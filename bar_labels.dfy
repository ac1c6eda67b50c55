/** Label placement (`plot_values_above_bar`): one text label per bar, just
    past the bar's end, nudged sideways when several series share a slot. */
module BarLabels {
  import opened Frames

  datatype VerticalAlignment = VCenter | VBottom
  datatype HorizontalAlignment = HLeft | HCenter

  /** The limits the axis reports through `get_xlim()` and `get_ylim()` when
      the labels are placed. */
  datatype Axes = Axes(xmin: real, xmax: real, ymin: real, ymax: real)

  /** One `ax.text` call: its position, the number it shows, the format
      string applied to that number, the text colour and the anchoring. */
  datatype Label = Label(x: real, y: real, shown: real, strfmt: string, textcolor: string,
                         va: VerticalAlignment, ha: HorizontalAlignment)

  /** The share of the axis span by which a label is moved past the bar end. */
  const LabelOffset: real := 0.025

  /** Where a label sits along the value axis: the bar end plus 2.5% of the
      span of that axis. */
  function ValuePosition(v: real, limMin: real, limMax: real): real {
    v + LabelOffset * (limMax - limMin)
  }

  /** The nudge of bar `barNr` of `nrBars` grouped bars within its slot. */
  function GroupOffset(barNr: int, nrBars: int): real
    requires nrBars + 2 != 0
  {
    -0.5 + 1.0 / (nrBars + 2) as real * (barNr + 1) as real
  }

  /** Where the label of item i sits along the category axis. */
  function SlotPosition(i: nat, barNr: Option<int>, nrBars: Option<int>): real
    requires nrBars.Some? ==> barNr.Some? && nrBars.value + 2 != 0
  {
    if nrBars.Some? then i as real + GroupOffset(barNr.value, nrBars.value) else i as real
  }

  /** The label of item i, for an orientation already known to be "v" or "h":
      with "v" (horizontal bars) x is the value position and y the slot, with
      "h" (vertical bars) the other way round. */
  function LabelAt(v: real, shown: real, i: nat, axes: Axes, strfmt: string, orient: string,
                   textcolor: string, barNr: Option<int>, nrBars: Option<int>): Label
    requires nrBars.Some? ==> barNr.Some? && nrBars.value + 2 != 0
  {
    if orient == "v" then
      Label(ValuePosition(v, axes.xmin, axes.xmax), SlotPosition(i, barNr, nrBars), shown,
            strfmt, textcolor, VCenter, HLeft)
    else
      Label(SlotPosition(i, barNr, nrBars), ValuePosition(v, axes.ymin, axes.ymax), shown,
            strfmt, textcolor, VBottom, HCenter)
  }

  function Min(a: nat, b: nat): nat {
    if a <= b then a else b
  }

  /** `plot_values_above_bar(data, display_values, ax, strfmt, orient,
      textcolor, bar_nr, nr_bars)`: a ValueError when exactly one of bar_nr
      and nr_bars is given or when orient is neither "v" nor "h"; a
      ZeroDivisionError when nr_bars is -2 and there is something to label;
      otherwise one label per pair of a position and a displayed value. */
  function LabelsAbove(data: seq<real>, displayValues: Option<seq<real>>, axes: Axes,
                       strfmt: string, orient: string, textcolor: string,
                       barNr: Option<int>, nrBars: Option<int>): Result<seq<Label>>
  {
    if barNr.None? != nrBars.None? then Failure(ValueError)
    else if orient != "v" && orient != "h" then Failure(ValueError)
    else
      var shown := displayValues.GetOr(data);
      var n := Min(|data|, |shown|);
      if n > 0 && nrBars.Some? && nrBars.value + 2 == 0 then Failure(ZeroDivisionError)
      else
        Success(seq(n, i requires 0 <= i < n =>
                      LabelAt(data[i], shown[i], i, axes, strfmt, orient, textcolor, barNr, nrBars)))
  }

  /** The errors of the helper, in both directions. */
  lemma LabelsAboveErrors(data: seq<real>, displayValues: Option<seq<real>>, axes: Axes,
                          strfmt: string, orient: string, textcolor: string,
                          barNr: Option<int>, nrBars: Option<int>)
    ensures var r := LabelsAbove(data, displayValues, axes, strfmt, orient, textcolor, barNr, nrBars);
            (r == Failure(ValueError) <==>
               barNr.None? != nrBars.None? || (orient != "v" && orient != "h")) &&
            (r == Failure(ZeroDivisionError) <==>
               barNr.None? == nrBars.None? && (orient == "v" || orient == "h") &&
               nrBars.Some? && nrBars.value == -2 &&
               |data| > 0 && |displayValues.GetOr(data)| > 0) &&
            (r.Failure? ==> r.error in {ValueError, ZeroDivisionError})
  {
  }

  /** There are as many labels as the shorter of the positions and the
      displayed values (Python's `zip`). Label i shows displayed value i, in
      the given format and text colour. Along the value axis it sits at
      position i shifted by 2.5% of that axis' span. Along the category axis
      it sits at slot i, nudged by `-0.5 + 1/(nr_bars+2) * (bar_nr+1)` when
      the bars are grouped. "v" anchors the label at its left centre, "h" at
      its bottom centre. */
  lemma LabelsAboveShape(data: seq<real>, displayValues: Option<seq<real>>, axes: Axes,
                         strfmt: string, orient: string, textcolor: string,
                         barNr: Option<int>, nrBars: Option<int>)
    requires orient == "v" || orient == "h"
    requires barNr.None? == nrBars.None?
    requires nrBars.Some? ==> nrBars.value != -2
    ensures var r := LabelsAbove(data, displayValues, axes, strfmt, orient, textcolor, barNr, nrBars);
            var shown := displayValues.GetOr(data);
            r.Success? && |r.value| == Min(|data|, |shown|) &&
            forall i :: 0 <= i < |r.value| ==>
              var slot := i as real +
                          if nrBars.Some?
                          then -0.5 + 1.0 / (nrBars.value + 2) as real * (barNr.value + 1) as real
                          else 0.0;
              r.value[i].shown == shown[i] && r.value[i].strfmt == strfmt && r.value[i].textcolor == textcolor &&
              (orient == "v" ==> r.value[i].x == data[i] + 0.025 * (axes.xmax - axes.xmin) &&
                                 r.value[i].y == slot &&
                                 r.value[i].va == VCenter && r.value[i].ha == HLeft) &&
              (orient == "h" ==> r.value[i].y == data[i] + 0.025 * (axes.ymax - axes.ymin) &&
                                 r.value[i].x == slot &&
                                 r.value[i].va == VBottom && r.value[i].ha == HCenter)
  {
  }

  /** Swapping the orientation swaps the coordinates: the labels for vertical
      bars are those for horizontal bars with x and y exchanged, when each
      reads the limits of its own value axis. */
  lemma OrientationSwapsCoordinates(data: seq<real>, displayValues: Option<seq<real>>, axes: Axes,
                                    strfmt: string, textcolor: string,
                                    barNr: Option<int>, nrBars: Option<int>)
    ensures var flipped := Axes(axes.ymin, axes.ymax, axes.xmin, axes.xmax);
            var v := LabelsAbove(data, displayValues, flipped, strfmt, "v", textcolor, barNr, nrBars);
            var h := LabelsAbove(data, displayValues, axes, strfmt, "h", textcolor, barNr, nrBars);
            v.Success? == h.Success? &&
            (v.Success? ==>
               |v.value| == |h.value| &&
               forall i :: 0 <= i < |v.value| ==>
                 v.value[i].x == h.value[i].y && v.value[i].y == h.value[i].x &&
                 v.value[i].shown == h.value[i].shown)
  {
  }

  /** Grouped labels stay inside their slot and keep the order of the bars:
      for 0 <= barNr < nrBars the nudge lies strictly between -0.5 and 0.5
      and grows with barNr. */
  lemma GroupOffsetWithinSlot(barNr: int, nrBars: int)
    requires 0 <= barNr < nrBars
    ensures -0.5 < GroupOffset(barNr, nrBars) < 0.5
    ensures barNr + 1 < nrBars ==> GroupOffset(barNr, nrBars) < GroupOffset(barNr + 1, nrBars)
  {
    var d := (nrBars + 2) as real;
    var b := (barNr + 1) as real;
    assert 0.0 < b < d;
    assert 0.0 < 1.0 / d * b < 1.0 by {
      assert 1.0 / d * b == b / d;
      assert b / d * d == b;
    }
    assert 1.0 / d * b < 1.0 / d * (b + 1.0) by {
      assert 1.0 / d > 0.0;
    }
  }

  /** The worked example: on an axis from 0 to 100 a bar ending at 40 gets
      its label at 42.5. */
  lemma LabelExample(axes: Axes)
    requires axes.xmin == 0.0 && axes.xmax == 100.0
    ensures LabelsAbove([40.0], None, axes, ".2f", "v", "black", None, None) ==
            Success([Label(42.5, 0.0, 40.0, ".2f", "black", VCenter, HLeft)])
  {
    var r := LabelsAbove([40.0], None, axes, ".2f", "v", "black", None, None);
    var first := LabelAt(40.0, 40.0, 0, axes, ".2f", "v", "black", None, None);
    assert first == Label(42.5, 0.0, 40.0, ".2f", "black", VCenter, HLeft);
    assert r.Success?;
    assert |r.value| == 1;
    assert r.value[0] == first;
    assert r.value == [first];
  }

  /** `plot_values_above_bar` as the source runs it: validate, read the axis
      limits, then emit one label per iteration of the zip loop. */
  method PlotValuesAboveBar(data: seq<real>, displayValues: Option<seq<real>>, axes: Axes,
                            strfmt: string, orient: string, textcolor: string,
                            barNr: Option<int>, nrBars: Option<int>)
      returns (r: Result<seq<Label>>)
    ensures r == LabelsAbove(data, displayValues, axes, strfmt, orient, textcolor, barNr, nrBars)
  {
    if barNr.None? != nrBars.None? {
      return Failure(ValueError);
    }
    var shown := if displayValues.None? then data else displayValues.value;
    var limMin, limMax, va, ha;
    if orient == "v" {
      limMin, limMax, va, ha := axes.xmin, axes.xmax, VCenter, HLeft;
    } else if orient == "h" {
      limMin, limMax, va, ha := axes.ymin, axes.ymax, VBottom, HCenter;
    } else {
      return Failure(ValueError);
    }
    var plotsize := limMax - limMin;
    var labels: seq<Label> := [];
    var i := 0;
    while i < |data| && i < |shown|
      invariant 0 <= i <= |data| && i <= |shown|
      invariant i > 0 && nrBars.Some? ==> nrBars.value + 2 != 0
      invariant |labels| == i
      invariant forall j :: 0 <= j < i ==>
                  labels[j] == LabelAt(data[j], shown[j], j, axes, strfmt, orient, textcolor, barNr, nrBars)
    {
      var v := data[i] + 0.025 * plotsize;
      var slot := i as real;
      if nrBars.Some? {
        if nrBars.value + 2 == 0 {
          return Failure(ZeroDivisionError);
        }
        slot := slot + (-0.5 + 1.0 / (nrBars.value + 2) as real * (barNr.value + 1) as real);
      }
      var x := if orient == "v" then v else slot;
      var y := if orient == "v" then slot else v;
      labels := labels + [Label(x, y, shown[i], strfmt, textcolor, va, ha)];
      i := i + 1;
    }
    var n := Min(|data|, |shown|);
    assert i == n;
    assert labels == seq(n, j requires 0 <= j < n =>
                           LabelAt(data[j], shown[j], j, axes, strfmt, orient, textcolor, barNr, nrBars));
    return Success(labels);
  }
}
