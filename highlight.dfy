/** Highlight colour assignment (`define_colors`): a list of the muted colour,
    one entry per plotted item, with the highlighted entries overwritten. */
module Highlight {
  import opened Frames
  import opened PlotTypes

  /** The colours the charting code hands to the plotting calls. */
  datatype Color = LightGray | Gray | Purple

  /** The module-wide `HIGHLIGHT_COLOR`. */
  const HighlightColor: Color := Purple

  /** The `highlight` argument: a single integer, or an iterable of integers. */
  datatype Selector = Single(index: int) | Many(indices: seq<int>)

  /** Whether the colour list has one entry per value (a Series, or anything
      at all for a scatter plot), rather than one per column. */
  predicate PerValue(data: Data, plottype: PlotKind) {
    data.Series? || plottype == Scatter
  }

  /** The length of the colour list. */
  function ColorCount(data: Data, plottype: PlotKind): nat
    requires PerValue(data, plottype) || data.Table?
  {
    if PerValue(data, plottype) then data.Len() else |data.columns|
  }

  /** The colour list before highlighting; a TypeError for an input that is
      neither a Series nor a DataFrame, unless the plot is a scatter. */
  function BaseColors(data: Data, plottype: PlotKind): Result<seq<Color>> {
    if PerValue(data, plottype) || data.Table? then
      Success(seq(ColorCount(data, plottype), i => LightGray))
    else
      Failure(TypeError)
  }

  /** An index from a highlight list: a negative one is first moved up by
      `len(data)`. */
  function Normalize(h: int, dataLen: nat): int {
    if h < 0 then dataLen + h else h
  }

  /** Overwrites, in order, the entry each normalised index of `hs` resolves
      to; the first index that resolves to nothing is an IndexError. */
  function Paint(color: seq<Color>, hs: seq<int>, dataLen: nat): Result<seq<Color>>
    decreases |hs|
  {
    if hs == [] then Success(color)
    else
      match PyIndex(Normalize(hs[0], dataLen), |color|)
      case None => Failure(IndexError)
      case Some(p) => Paint(color[p := HighlightColor], hs[1..], dataLen)
  }

  /** `define_colors(highlight, data, plottype)`. */
  function ColorList(highlight: Selector, data: Data, plottype: PlotKind): Result<seq<Color>> {
    var base :- BaseColors(data, plottype);
    match highlight
    case Single(i) =>
      (match PyIndex(i, |base|)
       case None => Failure(IndexError)
       case Some(p) => Success(base[p := HighlightColor]))
    case Many(hs) => Paint(base, hs, data.Len())
  }

  /** Every index of the list resolves to an entry of a list of length n. */
  predicate AllResolve(hs: seq<int>, dataLen: nat, n: nat) {
    forall j :: 0 <= j < |hs| ==> PyIndex(Normalize(hs[j], dataLen), n).Some?
  }

  /** Some index of the list resolves to entry k. */
  predicate MarkedBy(hs: seq<int>, dataLen: nat, n: nat, k: nat) {
    exists j :: 0 <= j < |hs| && PyIndex(Normalize(hs[j], dataLen), n) == Some(k)
  }

  /** The highlight selects entry k of the colour list. */
  predicate Selected(highlight: Selector, data: Data, plottype: PlotKind, k: nat)
    requires PerValue(data, plottype) || data.Table?
  {
    match highlight
    case Single(i) => PyIndex(i, ColorCount(data, plottype)) == Some(k)
    case Many(hs) => MarkedBy(hs, data.Len(), ColorCount(data, plottype), k)
  }

  /** Every index of the highlight resolves within the colour list. */
  predicate Resolves(highlight: Selector, data: Data, plottype: PlotKind)
    requires PerValue(data, plottype) || data.Table?
  {
    match highlight
    case Single(i) => PyIndex(i, ColorCount(data, plottype)).Some?
    case Many(hs) => AllResolve(hs, data.Len(), ColorCount(data, plottype))
  }

  lemma {:induction false} PaintShape(color: seq<Color>, hs: seq<int>, dataLen: nat)
    decreases |hs|
    ensures Paint(color, hs, dataLen).Success? <==> AllResolve(hs, dataLen, |color|)
    ensures Paint(color, hs, dataLen).Failure? ==> Paint(color, hs, dataLen).error == IndexError
    ensures Paint(color, hs, dataLen).Success? ==>
              var r := Paint(color, hs, dataLen).value;
              |r| == |color| &&
              forall k :: 0 <= k < |color| ==>
                r[k] == if MarkedBy(hs, dataLen, |color|, k) then HighlightColor else color[k]
  {
    if hs != [] {
      var n := |color|;
      match PyIndex(Normalize(hs[0], dataLen), n)
      case None =>
        assert !PyIndex(Normalize(hs[0], dataLen), n).Some?;
      case Some(p) =>
        var tail := hs[1..];
        PaintShape(color[p := HighlightColor], tail, dataLen);
        assert AllResolve(hs, dataLen, n) <==> AllResolve(tail, dataLen, n) by {
          if AllResolve(tail, dataLen, n) {
            forall j | 0 <= j < |hs| ensures PyIndex(Normalize(hs[j], dataLen), n).Some? {
              if j > 0 { assert hs[j] == tail[j - 1]; }
            }
          }
          if AllResolve(hs, dataLen, n) {
            forall j | 0 <= j < |tail| ensures PyIndex(Normalize(tail[j], dataLen), n).Some? {
              assert tail[j] == hs[j + 1];
            }
          }
        }
        forall k | 0 <= k < n
          ensures MarkedBy(hs, dataLen, n, k) <==> k == p || MarkedBy(tail, dataLen, n, k)
        {
          if MarkedBy(tail, dataLen, n, k) {
            var j :| 0 <= j < |tail| && PyIndex(Normalize(tail[j], dataLen), n) == Some(k);
            assert hs[j + 1] == tail[j];
          }
          if MarkedBy(hs, dataLen, n, k) && k != p {
            var j :| 0 <= j < |hs| && PyIndex(Normalize(hs[j], dataLen), n) == Some(k);
            assert j != 0;
            assert tail[j - 1] == hs[j];
          }
          if k == p {
            assert PyIndex(Normalize(hs[0], dataLen), n) == Some(k);
          }
        }
    }
  }

  /** What `define_colors` returns: a TypeError exactly for an input that is
      neither a Series nor a DataFrame outside a scatter plot; otherwise an
      IndexError exactly when some highlighted index does not resolve, and
      else a list with one entry per plotted item that is the highlight colour
      exactly at the selected entries and light gray everywhere else. */
  lemma ColorListShape(highlight: Selector, data: Data, plottype: PlotKind)
    ensures ColorList(highlight, data, plottype) == Failure(TypeError) <==>
              !PerValue(data, plottype) && !data.Table?
    ensures PerValue(data, plottype) || data.Table? ==>
              var r := ColorList(highlight, data, plottype);
              (r.Success? <==> Resolves(highlight, data, plottype)) &&
              (r.Failure? ==> r.error == IndexError) &&
              (r.Success? ==>
                 |r.value| == ColorCount(data, plottype) &&
                 forall k :: 0 <= k < |r.value| ==>
                   r.value[k] == if Selected(highlight, data, plottype, k) then HighlightColor else LightGray)
  {
    if PerValue(data, plottype) || data.Table? {
      var base := seq(ColorCount(data, plottype), i => LightGray);
      if highlight.Many? {
        PaintShape(base, highlight.indices, data.Len());
      }
    }
  }

  /** Whenever the colour list has one entry per row (a Series, a scatter
      plot, or a DataFrame with as many columns as rows), a single index and
      the one-element list holding it mark the same entry, for every index in
      -len..len-1. */
  lemma SingleMatchesList(data: Data, h: int, plottype: PlotKind)
    requires PerValue(data, plottype) || data.Table?
    requires ColorCount(data, plottype) == data.Len()
    requires -(data.Len() as int) <= h < data.Len()
    ensures ColorList(Single(h), data, plottype) == ColorList(Many([h]), data, plottype)
  {
    var n := data.Len();
    var base := seq(n, i => LightGray);
    assert BaseColors(data, plottype) == Success(base);
    assert [h][1..] == [];
    var p := PyIndex(h, |base|).value;
    assert PyIndex(Normalize(h, n), |base|) == Some(p);
    assert Paint(base, [h], n) == Paint(base[p := HighlightColor], [], n);
  }

  /** The default highlight -1 marks exactly the last plotted item, on any
      non-empty Series or DataFrame. */
  lemma DefaultHighlightMarksLast(data: Data, plottype: PlotKind)
    requires PerValue(data, plottype) || data.Table?
    requires ColorCount(data, plottype) > 0
    ensures ColorList(Single(-1), data, plottype).Success?
    ensures var c := ColorList(Single(-1), data, plottype).value;
            forall k :: 0 <= k < |c| ==> (c[k] == HighlightColor <==> k == |c| - 1)
  {
    ColorListShape(Single(-1), data, plottype);
  }

  /** With nothing to plot the default highlight fails with an IndexError. */
  lemma DefaultHighlightOnEmptySeries(timeIndex: bool, plottype: PlotKind)
    ensures ColorList(Single(-1), Series([], timeIndex), plottype) == Failure(IndexError)
  {
  }

  /** For a DataFrame the list form normalises by the number of ROWS but
      indexes the per-column list: with 3 rows and 2 columns, `-1` marks the
      last column while `[-1]` becomes 2 and fails; with 2 rows and 3
      columns, `[-1]` becomes 1 and marks the middle column. */
  lemma TableSingleAndListDisagree(a: seq<real>, b: seq<real>, c: seq<real>)
    requires |a| == |b| == 3 && |c| == 2
    ensures ColorList(Single(-1), Table(3, [a, b], false), Bar) == Success([LightGray, Purple])
    ensures ColorList(Many([-1]), Table(3, [a, b], false), Bar) == Failure(IndexError)
    ensures ColorList(Single(-1), Table(2, [c, c, c], false), Bar) == Success([LightGray, LightGray, Purple])
    ensures ColorList(Many([-1]), Table(2, [c, c, c], false), Bar) == Success([LightGray, Purple, LightGray])
  {
    assert [-1][1..] == [];
    var two, three := seq(2, i => LightGray), seq(3, i => LightGray);
    assert two == [LightGray, LightGray];
    assert three == [LightGray, LightGray, LightGray];
    assert BaseColors(Table(3, [a, b], false), Bar) == Success(two);
    assert BaseColors(Table(2, [c, c, c], false), Bar) == Success(three);
    assert two[1 := Purple] == [LightGray, Purple];
    assert three[2 := Purple] == [LightGray, LightGray, Purple];
    assert three[1 := Purple] == [LightGray, Purple, LightGray];
    assert Paint(three, [-1], 2) == Paint(three[1 := Purple], [], 2);
  }

  /** Even on a Series the two forms part below -len: `[-4]` on three values
      is moved to -1 and marks the last entry, `-4` alone is an IndexError. */
  lemma SeriesListWrapsTwice(values: seq<real>)
    requires |values| == 3
    ensures ColorList(Single(-4), Series(values, false), Bar) == Failure(IndexError)
    ensures ColorList(Many([-4]), Series(values, false), Bar) == Success([LightGray, LightGray, Purple])
  {
    assert [-4][1..] == [];
    var three := seq(3, i => LightGray);
    assert three == [LightGray, LightGray, LightGray];
    assert BaseColors(Series(values, false), Bar) == Success(three);
    assert three[2 := Purple] == [LightGray, LightGray, Purple];
    assert Paint(three, [-4], 3) == Paint(three[2 := Purple], [], 3);
  }

  /** `define_colors` as the source runs it: allocate the muted list, then
      overwrite entries one highlighted index at a time. */
  method DefineColors(highlight: Selector, data: Data, plottype: PlotKind) returns (r: Result<seq<Color>>)
    ensures r == ColorList(highlight, data, plottype)
  {
    var color: seq<Color>;
    if data.Series? || plottype == Scatter {
      color := seq(data.Len(), i => LightGray);
    } else if data.Table? {
      color := seq(|data.columns|, i => LightGray);
    } else {
      return Failure(TypeError);
    }
    match highlight {
      case Many(hs) =>
        var i := 0;
        while i < |hs|
          invariant 0 <= i <= |hs|
          invariant Paint(color, hs[i..], data.Len()) == ColorList(highlight, data, plottype)
        {
          assert hs[i..][1..] == hs[i + 1..];
          var h := hs[i];
          if h < 0 {
            h := data.Len() + h;
          }
          if h < -|color| || h >= |color| {
            return Failure(IndexError);
          }
          var p := if h < 0 then |color| + h else h;
          color := color[p := HighlightColor];
          i := i + 1;
        }
        return Success(color);
      case Single(h) =>
        if h < -|color| || h >= |color| {
          return Failure(IndexError);
        }
        var p := if h < 0 then |color| + h else h;
        color := color[p := HighlightColor];
        return Success(color);
    }
  }
}
