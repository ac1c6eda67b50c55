/** The decisions `micompanyify` takes before and around drawing: the chart
    kind, the orientation, the label format, the colours, whether to sort,
    what the chosen kind draws and labels, which exceptions it raises, and
    which tick labels it clears afterwards. */
module Micplot {
  import opened Frames
  import opened PlotTypes
  import opened Highlight
  import opened Waterfalls
  import opened BarLabels

  /** The `orient` string: "v" lays the bars out horizontally with the values
      along x, "h" stands them up with the values along y. */
  datatype Orient = V | H {
    function Name(): string {
      if V? then "v" else "h"
    }
  }

  /** Which axis has its tick labels cleared after drawing. */
  datatype TickAxis = XTicks | YTicks | NoTicks

  const PercentFormat: string := ".1%"
  const DecimalFormat: string := ".2f"

  /** Time series stand up ("h"); everything else lies down ("v"). */
  function OrientFor(kind: PlotKind): Orient {
    if kind in {BarTimeseries, LineTimeseries} then H else V
  }

  /** The label format when the caller gives none: a percentage when the data
      holds shares (every column of a DataFrame, or the Series itself). */
  function DefaultFormat(data: Data): string
    requires !data.Other?
  {
    if (data.Table? && AllColumnsPercentages(data.columns)) ||
       (data.Series? && IsPercentageSeries(data.values))
    then PercentFormat
    else DecimalFormat
  }

  /** Sorting is switched off for scatter, pie, composition and time-series
      kinds, and for anything that is not a Series. */
  predicate SortDisabled(kind: PlotKind, data: Data) {
    kind in {Scatter, Piechart, CompositionComparison, BarTimeseries, LineTimeseries} || !data.Series?
  }

  /** The tick clean-up after drawing: the x ticks go for lying charts other
      than scatter, the y ticks for standing charts other than the line. */
  function ClearedTicks(orient: Orient, kind: PlotKind): TickAxis {
    if orient == V && kind != Scatter then XTicks
    else if orient == H && kind !in {LineTimeseries, Scatter} then YTicks
    else NoTicks
  }

  /** The middle of each segment of a stacked column: the average of where it
      begins (`cumsum().shift().fillna(0)`) and where it ends (`cumsum()`). */
  function Midpoints(column: seq<real>): (m: seq<real>)
    ensures |m| == |column|
  {
    seq(|column|, r requires 0 <= r < |column| => (ShiftedCumSum(column)[r] + CumSum(column)[r]) / 2.0)
  }

  /** Each composition label sits halfway along its own segment: the sum of
      the segments below it plus half of its own, between the segment's ends
      when the segment is not negative. */
  lemma MidpointIsHalfway(column: seq<real>, r: nat)
    requires r < |column|
    ensures Midpoints(column)[r] == Sum(column[..r]) + column[r] / 2.0
    ensures column[r] >= 0.0 ==> Sum(column[..r]) <= Midpoints(column)[r] <= Sum(column[..r + 1])
  {
    ShiftedCumSumIsExclusivePrefixSum(column);
    CumSumIsInclusivePrefixSum(column);
    SumPrefixStep(column, r);
  }

  /** `data + blank`, for two aligned sequences. */
  function AddSeq(a: seq<real>, b: seq<real>): (s: seq<real>)
    requires |a| == |b|
    ensures |s| == |a|
  {
    seq(|a|, i requires 0 <= i < |a| => a[i] + b[i])
  }

  /** What one call draws beyond the chart itself: the waterfall geometry,
      when there is one, and the value labels. */
  datatype Drawing = Drawing(waterfall: Option<WaterfallChart>, labels: seq<Label>)

  /** Everything `micompanyify` decides for one call. */
  datatype Plan = Plan(kind: PlotKind, orient: Orient, strfmt: string, colors: seq<Color>,
                       order: Option<bool>, plotted: Data, drawing: Drawing, cleared: TickAxis)

  /** The labels of the DataFrame columns `from` onwards, each column nudged
      as bar `from` of `|columns|`. */
  function ColumnLabels(columns: seq<seq<real>>, from: nat, axes: Axes, strfmt: string,
                        orient: Orient): Result<seq<Label>>
    requires from <= |columns|
    decreases |columns| - from
  {
    if from == |columns| then Success([])
    else
      var mine :- LabelsAbove(columns[from], None, axes, strfmt, orient.Name(), "black",
                              Some(from), Some(|columns|));
      var rest :- ColumnLabels(columns, from + 1, axes, strfmt, orient);
      Success(mine + rest)
  }

  /** The labels of a bar chart: one set for a Series, one grouped set per
      column for a DataFrame. */
  function BarChartLabels(plotted: Data, axes: Axes, strfmt: string, orient: Orient): Result<seq<Label>>
    requires !plotted.Other?
  {
    if plotted.Series? then LabelsAbove(plotted.values, None, axes, strfmt, orient.Name(), "black", None, None)
    else ColumnLabels(plotted.columns, 0, axes, strfmt, orient)
  }

  /** The waterfall kinds: the geometry of `plot_waterfall`, labelled at the
      bar ends with the bar values. */
  function WaterfallDrawing(plotted: Data, colors: seq<Color>, buildup: bool, axes: Axes,
                            strfmt: string, orient: Orient): Result<Drawing>
    requires !plotted.Other?
  {
    if plotted.Table? then Failure(OutOfModel)
    else
      var w := BuildWaterfall(plotted.values, Some(colors), buildup);
      BuildWaterfallLengths(plotted.values, Some(colors), buildup);
      var labels :- LabelsAbove(AddSeq(w.data, w.blank), Some(w.data), axes, strfmt, orient.Name(),
                                "black", None, None);
      Success(Drawing(Some(w), labels))
  }

  lemma BuildWaterfallLengths(values: seq<real>, color: Option<seq<Color>>, buildup: bool)
    ensures |BuildWaterfall(values, color, buildup).data| == |values| + 1
    ensures |BuildWaterfall(values, color, buildup).blank| == |values| + 1
  {
  }

  /** The composition comparison: only a single highlighted row may be
      labelled; its labels sit at the segment middles and show the segment
      values in white. */
  function CompositionDrawing(plotted: Data, highlight: Selector, axes: Axes, strfmt: string,
                              orient: Orient): Result<Drawing>
    requires plotted.WellFormed() && !plotted.Other?
  {
    if !highlight.Single? then Failure(TypeError)
    else if plotted.Series? then Failure(IndexingError)
    else
      match PyIndex(highlight.index, plotted.rows)
      case None => Failure(IndexError)
      case Some(row) =>
        var columns := plotted.columns;
        var location := seq(|columns|, c requires 0 <= c < |columns| => Midpoints(columns[c])[row]);
        var segment := seq(|columns|, c requires 0 <= c < |columns| => columns[c][row]);
        var labels :- LabelsAbove(location, Some(segment), axes, strfmt, orient.Name(), "white", None, None);
        Success(Drawing(None, labels))
  }

  /** The scatter plot reads its x and y from the first two columns (a third,
      for the marker size, is optional): a Series has no columns to read, and
      a DataFrame with fewer than two has no y. */
  function ScatterDrawing(plotted: Data): Result<Drawing>
    requires !plotted.Other?
  {
    if plotted.Series? then Failure(IndexingError)
    else if |plotted.columns| < 2 then Failure(IndexError)
    else Success(Drawing(None, []))
  }

  /** The dispatch on the chart kind. */
  function Draw(kind: PlotKind, plotted: Data, colors: seq<Color>, highlight: Selector, orient: Orient,
                strfmt: string, axes: Axes): Result<Drawing>
    requires plotted.WellFormed() && !plotted.Other?
  {
    match kind
    case Bar =>
      var labels :- BarChartLabels(plotted, axes, strfmt, orient);
      Success(Drawing(None, labels))
    case BarTimeseries =>
      var labels :- BarChartLabels(plotted, axes, strfmt, orient);
      Success(Drawing(None, labels))
    case Waterfall => WaterfallDrawing(plotted, colors, false, axes, strfmt, orient)
    case WaterfallBuildup => WaterfallDrawing(plotted, colors, true, axes, strfmt, orient)
    case LineTimeseries => Success(Drawing(None, []))
    case Scatter => ScatterDrawing(plotted)
    case CompositionComparison => CompositionDrawing(plotted, highlight, axes, strfmt, orient)
    case Piechart => Failure(TypeError)
    case Unsupported(name) => Failure(NotImplementedError(name))
  }

  /** Grouped column labels are always placed: the orientation is valid,
      both bar_nr and nr_bars are given and nr_bars is never -2. */
  lemma {:induction false} ColumnLabelsSucceed(columns: seq<seq<real>>, from: nat, axes: Axes,
                                               strfmt: string, orient: Orient)
    requires from <= |columns|
    ensures ColumnLabels(columns, from, axes, strfmt, orient).Success?
    decreases |columns| - from
  {
    if from < |columns| {
      ColumnLabelsSucceed(columns, from + 1, axes, strfmt, orient);
    }
  }

  /** Label `l` shows `value` at its bar end, 2.5% of the value axis further
      on, and sits at `slot` on the category axis. */
  predicate PlacedAt(l: Label, value: real, slot: real, axes: Axes, orient: Orient) {
    l.shown == value &&
    (orient == V ==> l.x == value + 0.025 * (axes.xmax - axes.xmin) && l.y == slot) &&
    (orient == H ==> l.y == value + 0.025 * (axes.ymax - axes.ymin) && l.x == slot)
  }

  /** Where block k of a sequence of blocks of `rows` labels each begins. */
  function BlockStart(k: nat, rows: nat): nat {
    if k == 0 then 0 else BlockStart(k - 1, rows) + rows
  }

  /** Block k begins after k whole blocks. */
  lemma {:induction false} BlockStartIsProduct(k: nat, rows: nat)
    ensures BlockStart(k, rows) == k * rows
  {
    if k > 0 {
      BlockStartIsProduct(k - 1, rows);
      assert k * rows == (k - 1) * rows + rows;
    }
  }

  /** The labels of column c of n grouped columns: one per value, each at
      its bar end and in its slot nudged by `GroupOffset(c, n)`. */
  lemma ColumnBlockPlaced(column: seq<real>, c: nat, n: nat, axes: Axes, strfmt: string, orient: Orient)
    requires c < n
    ensures var m := LabelsAbove(column, None, axes, strfmt, orient.Name(), "black", Some(c), Some(n));
            m.Success? && |m.value| == |column| &&
            forall i :: 0 <= i < |column| ==>
              PlacedAt(m.value[i], column[i], i as real + GroupOffset(c, n), axes, orient)
  {
    LabelsAboveShape(column, None, axes, strfmt, orient.Name(), "black", Some(c), Some(n));
  }

  /** The labels from column `from` onwards are those of column `from`
      followed by those of the later columns. */
  lemma ColumnLabelsSplit(columns: seq<seq<real>>, from: nat, axes: Axes, strfmt: string, orient: Orient)
    requires from < |columns|
    ensures var r := ColumnLabels(columns, from, axes, strfmt, orient);
            var rest := ColumnLabels(columns, from + 1, axes, strfmt, orient);
            r.Success? && rest.Success? &&
            |r.value| == |columns[from]| + |rest.value| && r.value[|columns[from]|..] == rest.value
  {
    ColumnLabelsSucceed(columns, from + 1, axes, strfmt, orient);
    ColumnBlockPlaced(columns[from], from, |columns|, axes, strfmt, orient);
    var mine := LabelsAbove(columns[from], None, axes, strfmt, orient.Name(), "black", Some(from), Some(|columns|));
    var rest := ColumnLabels(columns, from + 1, axes, strfmt, orient).value;
    assert ColumnLabels(columns, from, axes, strfmt, orient) == Success(mine.value + rest);
    assert (mine.value + rest)[|mine.value|..] == rest;
  }

  /** The first labels from column `from` onwards are that column's own,
      placed in its grouped slots. */
  lemma ColumnLabelsFirstBlock(columns: seq<seq<real>>, from: nat, axes: Axes, strfmt: string, orient: Orient)
    requires from < |columns|
    ensures var r := ColumnLabels(columns, from, axes, strfmt, orient);
            r.Success? && |columns[from]| <= |r.value| &&
            forall i :: 0 <= i < |columns[from]| ==>
              PlacedAt(r.value[i], columns[from][i], i as real + GroupOffset(from, |columns|), axes, orient)
  {
    ColumnLabelsSucceed(columns, from + 1, axes, strfmt, orient);
    ColumnBlockPlaced(columns[from], from, |columns|, axes, strfmt, orient);
    var mine := LabelsAbove(columns[from], None, axes, strfmt, orient.Name(), "black", Some(from), Some(|columns|));
    var rest := ColumnLabels(columns, from + 1, axes, strfmt, orient).value;
    assert ColumnLabels(columns, from, axes, strfmt, orient) == Success(mine.value + rest);
  }

  /** With `rows` values in every column, the labels from column `from`
      onwards are `|columns| - from` blocks of `rows` labels. */
  lemma {:induction false} ColumnLabelsLength(columns: seq<seq<real>>, rows: nat, from: nat, axes: Axes,
                                              strfmt: string, orient: Orient)
    requires from <= |columns|
    requires forall c :: 0 <= c < |columns| ==> |columns[c]| == rows
    ensures var r := ColumnLabels(columns, from, axes, strfmt, orient);
            r.Success? && |r.value| == BlockStart(|columns| - from, rows)
    decreases |columns| - from
  {
    if from == |columns| {
      assert ColumnLabels(columns, from, axes, strfmt, orient) == Success([]);
    } else {
      ColumnLabelsLength(columns, rows, from + 1, axes, strfmt, orient);
      ColumnLabelsSplit(columns, from, axes, strfmt, orient);
    }
  }

  /** Label i of the block of column c, counted from column `from`, is label
      i of the labels from column c onwards. */
  lemma {:induction false} ColumnLabelsBlock(columns: seq<seq<real>>, rows: nat, from: nat, c: nat, i: nat,
                                             axes: Axes, strfmt: string, orient: Orient)
    requires from <= c < |columns| && i < rows
    requires forall c :: 0 <= c < |columns| ==> |columns[c]| == rows
    ensures var r := ColumnLabels(columns, from, axes, strfmt, orient);
            var own := ColumnLabels(columns, c, axes, strfmt, orient);
            r.Success? && own.Success? && i < |own.value| && BlockStart(c - from, rows) + i < |r.value| &&
            r.value[BlockStart(c - from, rows) + i] == own.value[i]
    decreases c - from
  {
    ColumnLabelsLength(columns, rows, c, axes, strfmt, orient);
    if from == c {
      assert BlockStart(c - from, rows) == 0;
    } else {
      ColumnLabelsBlock(columns, rows, from + 1, c, i, axes, strfmt, orient);
      ColumnLabelsSplit(columns, from, axes, strfmt, orient);
      var r := ColumnLabels(columns, from, axes, strfmt, orient).value;
      var rest := ColumnLabels(columns, from + 1, axes, strfmt, orient).value;
      var own := ColumnLabels(columns, c, axes, strfmt, orient).value;
      var k := BlockStart(c - (from + 1), rows) + i;
      assert BlockStart(c - from, rows) + i == rows + k;
      assert rest[k] == own[i];
      assert r[rows + k] == r[rows..][k] == rest[k];
    }
  }

  /** Label i of column c of the grouped labels of all the columns is at
      index `BlockStart(c, rows) + i`, showing value i of column c in slot i
      nudged by `GroupOffset(c, |columns|)`. */
  predicate LabelInBlock(columns: seq<seq<real>>, rows: nat, c: nat, i: nat, axes: Axes, strfmt: string,
                         orient: Orient)
    requires c < |columns| && i < rows
    requires forall c :: 0 <= c < |columns| ==> |columns[c]| == rows
  {
    var r := ColumnLabels(columns, 0, axes, strfmt, orient);
    r.Success? && BlockStart(c, rows) + i < |r.value| &&
    PlacedAt(r.value[BlockStart(c, rows) + i], columns[c][i], i as real + GroupOffset(c, |columns|), axes, orient)
  }

  /** Label i of column c among the grouped labels of all the columns. */
  lemma ColumnLabelPlaced(columns: seq<seq<real>>, rows: nat, c: nat, i: nat, axes: Axes, strfmt: string,
                          orient: Orient)
    requires c < |columns| && i < rows
    requires forall c :: 0 <= c < |columns| ==> |columns[c]| == rows
    ensures LabelInBlock(columns, rows, c, i, axes, strfmt, orient)
  {
    ColumnLabelsBlock(columns, rows, 0, c, i, axes, strfmt, orient);
    ColumnLabelsFirstBlock(columns, c, axes, strfmt, orient);
    var own := ColumnLabels(columns, c, axes, strfmt, orient).value;
    assert i < |columns[c]|;
    assert PlacedAt(own[i], columns[c][i], i as real + GroupOffset(c, |columns|), axes, orient);
  }

  /** Where the grouped labels of a DataFrame bar chart go. The columns
      contribute one block of `rows` labels each, in column order (block c
      begins at `c * rows`, see `BlockStartIsProduct`). Label i of column c
      shows that column's value i at its bar end, 2.5% of the value axis
      further on, and sits in slot i nudged by `GroupOffset(c, |columns|)`,
      the place of bar c among the grouped bars. */
  lemma ColumnLabelsPlacement(columns: seq<seq<real>>, rows: nat, axes: Axes, strfmt: string, orient: Orient)
    requires forall c :: 0 <= c < |columns| ==> |columns[c]| == rows
    ensures var r := ColumnLabels(columns, 0, axes, strfmt, orient);
            r.Success? && |r.value| == BlockStart(|columns|, rows)
    ensures forall c: nat, i: nat :: c < |columns| && i < rows ==> LabelInBlock(columns, rows, c, i, axes, strfmt, orient)
  {
    ColumnLabelsLength(columns, rows, 0, axes, strfmt, orient);
    forall c: nat, i: nat | c < |columns| && i < rows
      ensures LabelInBlock(columns, rows, c, i, axes, strfmt, orient)
    {
      ColumnLabelPlaced(columns, rows, c, i, axes, strfmt, orient);
    }
  }

  /** Bar labels, for a Series or a DataFrame, are always placed. */
  lemma BarChartLabelsSucceed(plotted: Data, axes: Axes, strfmt: string, orient: Orient)
    requires !plotted.Other?
    ensures BarChartLabels(plotted, axes, strfmt, orient).Success?
  {
    if plotted.Table? {
      ColumnLabelsSucceed(plotted.columns, 0, axes, strfmt, orient);
    } else {
      LabelsAboveErrors(plotted.values, None, axes, strfmt, orient.Name(), "black", None, None);
    }
  }

  /** A waterfall is drawn for every Series; a DataFrame is left to pandas. */
  lemma WaterfallDrawingErrors(plotted: Data, colors: seq<Color>, buildup: bool, axes: Axes,
                               strfmt: string, orient: Orient)
    requires !plotted.Other?
    ensures WaterfallDrawing(plotted, colors, buildup, axes, strfmt, orient).Success? <==> plotted.Series?
    ensures plotted.Table? ==> WaterfallDrawing(plotted, colors, buildup, axes, strfmt, orient) == Failure(OutOfModel)
  {
    if plotted.Series? {
      var w := BuildWaterfall(plotted.values, Some(colors), buildup);
      BuildWaterfallLengths(plotted.values, Some(colors), buildup);
      LabelsAboveErrors(AddSeq(w.data, w.blank), Some(w.data), axes, strfmt, orient.Name(), "black", None, None);
    }
  }

  /** The composition comparison fails only for a list of highlights
      (TypeError), for a Series (IndexingError) and for a row that does not
      exist (IndexError). */
  lemma CompositionDrawingErrors(plotted: Data, highlight: Selector, axes: Axes, strfmt: string, orient: Orient)
    requires plotted.WellFormed() && !plotted.Other?
    ensures var d := CompositionDrawing(plotted, highlight, axes, strfmt, orient);
            d.Failure? ==> d.error in {TypeError, IndexingError, IndexError}
  {
    if highlight.Single? && plotted.Table? && PyIndex(highlight.index, plotted.rows).Some? {
      var row := PyIndex(highlight.index, plotted.rows).value;
      var columns := plotted.columns;
      var location := seq(|columns|, c requires 0 <= c < |columns| => Midpoints(columns[c])[row]);
      var segment := seq(|columns|, c requires 0 <= c < |columns| => columns[c][row]);
      LabelsAboveErrors(location, Some(segment), axes, strfmt, orient.Name(), "white", None, None);
    }
  }

  /** A scatter plot is drawn exactly for a DataFrame of at least two
      columns; it carries no value labels. */
  lemma ScatterNeedsTwoColumns(plotted: Data, colors: seq<Color>, highlight: Selector, orient: Orient,
                               strfmt: string, axes: Axes)
    requires plotted.WellFormed() && !plotted.Other?
    ensures var r := Draw(Scatter, plotted, colors, highlight, orient, strfmt, axes);
            (r.Success? <==> plotted.Table? && |plotted.columns| >= 2) &&
            (r.Success? ==> r.value == Drawing(None, [])) &&
            (plotted.Series? ==> r == Failure(IndexingError)) &&
            (plotted.Table? && |plotted.columns| < 2 ==> r == Failure(IndexError))
  {
  }

  /** The dispatch refuses exactly the unknown kinds as not implemented, and
      the pie chart as a TypeError. */
  lemma DrawRefusals(kind: PlotKind, plotted: Data, colors: seq<Color>, highlight: Selector, orient: Orient,
                     strfmt: string, axes: Axes)
    requires plotted.WellFormed() && !plotted.Other?
    ensures var r := Draw(kind, plotted, colors, highlight, orient, strfmt, axes);
            (r.Failure? && r.error.NotImplementedError? <==> kind.Unsupported?) &&
            (kind.Unsupported? ==> r == Failure(NotImplementedError(kind.name))) &&
            (kind == Piechart ==> r == Failure(TypeError))
  {
    var r := Draw(kind, plotted, colors, highlight, orient, strfmt, axes);
    match kind
    case Bar =>
      BarChartLabelsSucceed(plotted, axes, strfmt, orient);
      assert r.Success?;
    case BarTimeseries =>
      BarChartLabelsSucceed(plotted, axes, strfmt, orient);
      assert r.Success?;
    case Waterfall =>
      WaterfallDrawingErrors(plotted, colors, false, axes, strfmt, orient);
      assert r == WaterfallDrawing(plotted, colors, false, axes, strfmt, orient);
    case WaterfallBuildup =>
      WaterfallDrawingErrors(plotted, colors, true, axes, strfmt, orient);
      assert r == WaterfallDrawing(plotted, colors, true, axes, strfmt, orient);
    case CompositionComparison =>
      CompositionDrawingErrors(plotted, highlight, axes, strfmt, orient);
      assert r == CompositionDrawing(plotted, highlight, axes, strfmt, orient);
    case LineTimeseries =>
    case Scatter =>
    case Piechart =>
    case Unsupported(name) =>
  }

  /** The chart kind of a call: the caller's, read from its name, or the
      automatic choice. */
  function ChosenKind(data: Data, plottype: Option<string>): PlotKind
    requires data.WellFormed() && !data.Other?
  {
    if plottype.None? then PickPlotType(data) else KindOf(plottype.value)
  }

  /** The sort order that applies: none where sorting is switched off,
      otherwise the caller's `ascending`. */
  function SortOrder(kind: PlotKind, data: Data, ascending: Option<bool>): Option<bool> {
    if SortDisabled(kind, data) then None else ascending
  }

  /** The data as drawn: a Series sorted in the given order, anything else
      unchanged. */
  function Sorted(data: Data, order: Option<bool>): (r: Data)
    requires data.WellFormed() && !data.Other?
    ensures r.WellFormed() && !r.Other?
  {
    if order.Some? && data.Series? then Series(SortValues(data.values, order.value), data.timeIndex)
    else data
  }

  /** Everything `micompanyify` does once `data` has been squeezed: choose
      the kind, the orientation and the format, colour, sort, draw and clear
      the ticks. */
  function Dispatch(data: Data, highlight: Selector, plottype: Option<string>, ascending: Option<bool>,
                    strfmt: Option<string>, axes: Axes): Result<Plan>
    requires data.WellFormed() && !data.Other?
  {
    var kind := ChosenKind(data, plottype);
    var orient := OrientFor(kind);
    var fmt := if strfmt.None? then DefaultFormat(data) else strfmt.value;
    var colors :- ColorList(highlight, data, kind);
    var order := SortOrder(kind, data, ascending);
    var plotted := Sorted(data, order);
    var drawing :- Draw(kind, plotted, colors, highlight, orient, fmt, axes);
    Success(Plan(kind, orient, fmt, colors, order, plotted, drawing, ClearedTicks(orient, kind)))
  }

  /** `micompanyify(data, highlight, plottype, ascending, strfmt)`, with the
      axis limits the drawn chart ends up with given as `axes`. Data that
      squeezes to a single number has no index to pick a kind from, and no
      length to colour. */
  function Micompanyify(data: Data, highlight: Selector, plottype: Option<string>, ascending: Option<bool>,
                        strfmt: Option<string>, axes: Axes): Result<Plan>
    requires data.WellFormed()
  {
    if data.Other? then Failure(TypeError)
    else
      match Squeeze(data)
      case None => if plottype.None? then Failure(AttributeError) else Failure(TypeError)
      case Some(squeezed) => Dispatch(squeezed, highlight, plottype, ascending, strfmt, axes)
  }

  /** Anything that is not a pandas object is refused with a TypeError. */
  lemma NonPandasIsTypeError(length: nat, highlight: Selector, plottype: Option<string>, ascending: Option<bool>,
                             strfmt: Option<string>, axes: Axes)
    ensures Micompanyify(Other(length), highlight, plottype, ascending, strfmt, axes) == Failure(TypeError)
  {
  }

  /** What `Dispatch` decides for squeezed data, see `DispatchDecisions`. */
  lemma DispatchPlan(data: Data, highlight: Selector, plottype: Option<string>, ascending: Option<bool>,
                     strfmt: Option<string>, axes: Axes)
    requires data.WellFormed() && !data.Other?
    requires Dispatch(data, highlight, plottype, ascending, strfmt, axes).Success?
    ensures var p := Dispatch(data, highlight, plottype, ascending, strfmt, axes).value;
            && p.kind == (if plottype.None? then PickPlotType(data) else KindOf(plottype.value))
            && p.kind != Piechart && !p.kind.Unsupported?
            && (p.orient == H <==> p.kind in {BarTimeseries, LineTimeseries})
            && p.strfmt == (if strfmt.None? then DefaultFormat(data) else strfmt.value)
            && ColorList(highlight, data, p.kind) == Success(p.colors)
            && (p.order.None? <==> ascending.None? || SortDisabled(p.kind, data))
            && (p.order.None? ==> p.plotted == data)
    ensures var p := Dispatch(data, highlight, plottype, ascending, strfmt, axes).value;
            p.order.Some? ==>
              data.Series? && p.kind in {Bar, Waterfall, WaterfallBuildup} &&
              p.plotted.Series? && multiset(p.plotted.values) == multiset(data.values) &&
              (p.order.value ==> Ascending(p.plotted.values)) &&
              (!p.order.value ==> Descending(p.plotted.values))
    ensures var p := Dispatch(data, highlight, plottype, ascending, strfmt, axes).value;
            && p.plotted.WellFormed() && !p.plotted.Other?
            && Draw(p.kind, p.plotted, p.colors, highlight, p.orient, p.strfmt, axes) == Success(p.drawing)
            && (p.cleared == NoTicks <==> p.kind in {Scatter, LineTimeseries})
            && (p.cleared == YTicks <==> p.kind == BarTimeseries)
  {
    var kind := ChosenKind(data, plottype);
    var fmt := if strfmt.None? then DefaultFormat(data) else strfmt.value;
    var colors := ColorList(highlight, data, kind);
    assert colors.Success?;
    var order := SortOrder(kind, data, ascending);
    var plotted := Sorted(data, order);
    var drawing := Draw(kind, plotted, colors.value, highlight, OrientFor(kind), fmt, axes);
    assert drawing.Success?;
    assert Dispatch(data, highlight, plottype, ascending, strfmt, axes).value ==
           Plan(kind, OrientFor(kind), fmt, colors.value, order, plotted, drawing.value, ClearedTicks(OrientFor(kind), kind));
  }

  /** The decisions of a call that draws: the kind is the caller's or the
      automatic one; time series stand up and nothing else does; the format
      is the caller's or the default; the colours are those of the data as
      given, before any sorting; only a Series drawn as a bar chart or a
      waterfall is sorted, into a permutation of its values in the requested
      direction; the drawing is that of the chosen kind on the data as
      sorted; and the tick labels of the value axis are cleared except for
      scatter and line charts. */
  lemma DispatchDecisions(data: Data, highlight: Selector, plottype: Option<string>, ascending: Option<bool>,
                          strfmt: Option<string>, axes: Axes)
    requires data.WellFormed()
    requires Micompanyify(data, highlight, plottype, ascending, strfmt, axes).Success?
    ensures !data.Other? && Squeeze(data).Some?
    ensures var p := Micompanyify(data, highlight, plottype, ascending, strfmt, axes).value;
            var sq := Squeeze(data).value;
            && p.kind == (if plottype.None? then PickPlotType(sq) else KindOf(plottype.value))
            && p.kind != Piechart && !p.kind.Unsupported?
            && (p.orient == H <==> p.kind in {BarTimeseries, LineTimeseries})
            && p.strfmt == (if strfmt.None? then DefaultFormat(sq) else strfmt.value)
            && ColorList(highlight, sq, p.kind) == Success(p.colors)
            && (p.order.None? <==> ascending.None? || SortDisabled(p.kind, sq))
            && (p.order.None? ==> p.plotted == sq)
    ensures var p := Micompanyify(data, highlight, plottype, ascending, strfmt, axes).value;
            var sq := Squeeze(data).value;
            p.order.Some? ==>
              sq.Series? && p.kind in {Bar, Waterfall, WaterfallBuildup} &&
              p.plotted.Series? && multiset(p.plotted.values) == multiset(sq.values) &&
              (p.order.value ==> Ascending(p.plotted.values)) &&
              (!p.order.value ==> Descending(p.plotted.values))
    ensures var p := Micompanyify(data, highlight, plottype, ascending, strfmt, axes).value;
            && p.plotted.WellFormed() && !p.plotted.Other?
            && Draw(p.kind, p.plotted, p.colors, highlight, p.orient, p.strfmt, axes) == Success(p.drawing)
            && (p.cleared == NoTicks <==> p.kind in {Scatter, LineTimeseries})
            && (p.cleared == YTicks <==> p.kind == BarTimeseries)
  {
    var sq := Squeeze(data).value;
    assert Micompanyify(data, highlight, plottype, ascending, strfmt, axes) ==
           Dispatch(sq, highlight, plottype, ascending, strfmt, axes);
    DispatchPlan(sq, highlight, plottype, ascending, strfmt, axes);
  }

  /** Data that squeezes to a single number, a Series of one value or a
      DataFrame of one row and one column, is refused: with an
      AttributeError when the kind is to be picked from its index, with a
      TypeError when it is to be coloured. */
  lemma ScalarAfterSqueeze(data: Data, highlight: Selector, plottype: Option<string>, ascending: Option<bool>,
                           strfmt: Option<string>, axes: Axes)
    requires data.WellFormed()
    requires (data.Series? && |data.values| == 1) || (data.Table? && data.rows == 1 && |data.columns| == 1)
    ensures var r := Micompanyify(data, highlight, plottype, ascending, strfmt, axes);
            r.Failure? && r.error == (if plottype.None? then AttributeError else TypeError)
  {
  }

  /** A DataFrame with a single column is treated exactly as the Series of
      that column; with one value, both squeeze to a number and fail alike. */
  lemma SingleColumnIsSeries(column: seq<real>, timeIndex: bool, highlight: Selector, plottype: Option<string>,
                             ascending: Option<bool>, strfmt: Option<string>, axes: Axes)
    ensures Micompanyify(Table(|column|, [column], timeIndex), highlight, plottype, ascending, strfmt, axes) ==
            Micompanyify(Series(column, timeIndex), highlight, plottype, ascending, strfmt, axes)
  {
    if |column| != 1 {
      SqueezeKeepsValues(Table(|column|, [column], timeIndex));
      SqueezeKeepsValues(Series(column, timeIndex));
    }
  }

  /** The default format is a percentage exactly when the automatic choice,
      for data without a time index, is one of the share charts. */
  lemma DefaultFormatMatchesAutomaticKind(data: Data)
    requires data.WellFormed() && !data.Other? && !data.timeIndex
    ensures DefaultFormat(data) == PercentFormat <==> PickPlotType(data) in {Waterfall, CompositionComparison}
  {
  }

  /** A pie chart is never drawn: the call always raises, with a TypeError
      once the colours could be assigned. */
  lemma PiechartAlwaysRaises(data: Data, highlight: Selector, ascending: Option<bool>,
                             strfmt: Option<string>, axes: Axes)
    requires data.WellFormed()
    ensures var r := Micompanyify(data, highlight, Some("piechart"), ascending, strfmt, axes);
            r.Failure? &&
            ((data.Other? || Squeeze(data).None? || ColorList(highlight, Squeeze(data).value, Piechart).Success?) ==>
               r.error == TypeError)
  {
  }

  /** An unknown chart kind always raises; once the colours could be assigned
      it is a NotImplementedError naming the kind. */
  lemma UnknownKindNotImplemented(data: Data, highlight: Selector, name: string, ascending: Option<bool>,
                                  strfmt: Option<string>, axes: Axes)
    requires data.WellFormed()
    requires name !in KnownNames
    ensures var r := Micompanyify(data, highlight, Some(name), ascending, strfmt, axes);
            r.Failure? &&
            (!data.Other? && Squeeze(data).Some? &&
             ColorList(highlight, Squeeze(data).value, Unsupported(name)).Success? ==>
               r.error == NotImplementedError(name))
  {
    assert KindOf(name) == Unsupported(name);
  }

  /** The automatic choice never ends in the refusals of unknown kinds or
      pie charts. */
  lemma AutomaticKindNeverRefused(data: Data, highlight: Selector, ascending: Option<bool>,
                                  strfmt: Option<string>, axes: Axes)
    requires data.WellFormed()
    ensures var r := Micompanyify(data, highlight, None, ascending, strfmt, axes);
            r.Failure? ==> !r.error.NotImplementedError?
  {
    if !data.Other? && Squeeze(data).Some? {
      var sq := Squeeze(data).value;
      var kind := ChosenKind(sq, None);
      PickedKindIsDrawable(sq);
      ColorListShape(highlight, sq, kind);
      var colors := ColorList(highlight, sq, kind);
      if colors.Success? {
        var plotted := Sorted(sq, SortOrder(kind, sq, ascending));
        var fmt := if strfmt.None? then DefaultFormat(sq) else strfmt.value;
        DrawRefusals(kind, plotted, colors.value, highlight, OrientFor(kind), fmt, axes);
      }
    }
  }

  /** A composition comparison labels a single row only: a list of
      highlights is a TypeError once the colours could be assigned. */
  lemma CompositionNeedsSingleHighlight(data: Data, hs: seq<int>, ascending: Option<bool>,
                                        strfmt: Option<string>, axes: Axes)
    requires data.WellFormed()
    ensures var r := Micompanyify(data, Many(hs), Some("composition_comparison"), ascending, strfmt, axes);
            r.Failure? &&
            ((data.Other? || Squeeze(data).None? ||
              ColorList(Many(hs), Squeeze(data).value, CompositionComparison).Success?) ==> r.error == TypeError)
  {
  }

  /** A composition comparison of a DataFrame draws for a highlighted row
      that exists: one white label per column, in the column's slot at the
      middle of that column's segment in the row, showing the segment's
      value. A row that does not exist is an IndexError, and a Series cannot
      be indexed by row and column. */
  lemma CompositionLabelsAtSegmentMiddles(plotted: Data, h: int, axes: Axes, strfmt: string)
    requires plotted.WellFormed() && !plotted.Other?
    ensures plotted.Series? ==> CompositionDrawing(plotted, Single(h), axes, strfmt, V) == Failure(IndexingError)
    ensures plotted.Table? && PyIndex(h, plotted.rows).None? ==>
              CompositionDrawing(plotted, Single(h), axes, strfmt, V) == Failure(IndexError)
    ensures plotted.Table? && PyIndex(h, plotted.rows).Some? ==>
              var d := CompositionDrawing(plotted, Single(h), axes, strfmt, V);
              var row := PyIndex(h, plotted.rows).value;
              d.Success? && d.value.waterfall.None? &&
              |d.value.labels| == |plotted.columns| &&
              forall c :: 0 <= c < |plotted.columns| ==>
                d.value.labels[c].textcolor == "white" &&
                d.value.labels[c].shown == plotted.columns[c][row] &&
                d.value.labels[c].x ==
                  Sum(plotted.columns[c][..row]) + plotted.columns[c][row] / 2.0 +
                  0.025 * (axes.xmax - axes.xmin) &&
                d.value.labels[c].y == c as real
  {
    if plotted.Table? && PyIndex(h, plotted.rows).Some? {
      var row := PyIndex(h, plotted.rows).value;
      forall c | 0 <= c < |plotted.columns| {
        MidpointIsHalfway(plotted.columns[c], row);
      }
    }
  }

  /** A build-down waterfall of a Series labels every bar at its far end,
      the running total up to and including it, in the bar's own slot, and
      shows the bar's own value; the total bar comes last and is labelled at
      the grand total. */
  lemma WaterfallLabelsAtRunningTotals(values: seq<real>, timeIndex: bool, colors: seq<Color>,
                                       axes: Axes, strfmt: string)
    ensures var d := WaterfallDrawing(Series(values, timeIndex), colors, false, axes, strfmt, V);
            var offset := 0.025 * (axes.xmax - axes.xmin);
            && d.Success?
            && d.value.waterfall == Some(BuildWaterfall(values, Some(colors), false))
            && |d.value.labels| == |values| + 1
            && (forall i :: 0 <= i < |values| ==>
                  d.value.labels[i].x == Sum(values[..i + 1]) + offset &&
                  d.value.labels[i].y == i as real &&
                  d.value.labels[i].shown == values[i])
            && d.value.labels[|values|].x == Sum(values) + offset
            && d.value.labels[|values|].y == |values| as real
            && d.value.labels[|values|].shown == Sum(values)
  {
    var w := BuildWaterfall(values, Some(colors), false);
    BarEndsAreRunningTotals(values, Some(colors));
    BuilddownShape(values, Some(colors));
    LabelsAboveShape(AddSeq(w.data, w.blank), Some(w.data), axes, strfmt, "v", "black", None, None);
    forall i | 0 <= i < |values| ensures w.data[i] == values[i] {
      assert w.data[..|values|][i] == w.data[i];
    }
  }

  /** A build-up waterfall of a Series labels the total bar first, in slot
      0, at the grand total; bar k after it is value n-k of the data, the
      values read backwards, and is labelled in slot k at the running total
      up to and including that value. */
  lemma BuildupLabelsAtRunningTotals(values: seq<real>, timeIndex: bool, colors: seq<Color>,
                                     axes: Axes, strfmt: string)
    ensures var d := WaterfallDrawing(Series(values, timeIndex), colors, true, axes, strfmt, V);
            var offset := 0.025 * (axes.xmax - axes.xmin);
            var n := |values|;
            && d.Success?
            && d.value.waterfall == Some(BuildWaterfall(values, Some(colors), true))
            && |d.value.labels| == n + 1
            && d.value.labels[0].x == Sum(values) + offset
            && d.value.labels[0].y == 0.0
            && d.value.labels[0].shown == Sum(values)
            && (forall k :: 1 <= k <= n ==>
                  d.value.labels[k].x == Sum(values[..n - k + 1]) + offset &&
                  d.value.labels[k].y == k as real &&
                  d.value.labels[k].shown == values[n - k])
  {
    var up := BuildWaterfall(values, Some(colors), true);
    BuildupBarEnds(values, Some(colors));
    LabelsAboveShape(AddSeq(up.data, up.blank), Some(up.data), axes, strfmt, "v", "black", None, None);
  }

  /** Sorting 3, 1, 2 in ascending order gives 1, 2, 3. */
  lemma SortExample()
    ensures SortValues([3.0, 1.0, 2.0], true) == [1.0, 2.0, 3.0]
  {
    var s := [3.0, 1.0, 2.0];
    assert s[1..] == [1.0, 2.0];
    assert [1.0, 2.0][1..] == [2.0];
    assert [2.0][1..] == [];
    var one := SortAscending([2.0]);
    assert one == Insert(2.0, []);
    assert one == [2.0];
    var two := SortAscending([1.0, 2.0]);
    assert two == Insert(1.0, one);
    assert two == [1.0, 2.0];
    var tail := Insert(3.0, [2.0]);
    assert tail == [2.0] + Insert(3.0, []);
    assert tail == [2.0, 3.0];
    var three := Insert(3.0, two);
    assert three == [1.0] + tail;
    assert SortAscending(s) == three;
  }

  /** The default highlight on three values colours the third. */
  lemma ColorsExample()
    ensures ColorList(Single(-1), Series([3.0, 1.0, 2.0], false), Bar) == Success([LightGray, LightGray, Purple])
  {
    var three := seq(3, i => LightGray);
    assert three == [LightGray, LightGray, LightGray];
    assert three[2 := Purple] == [LightGray, LightGray, Purple];
    assert BaseColors(Series([3.0, 1.0, 2.0], false), Bar) == Success(three);
  }

  /** Labelling the three sorted bars succeeds. */
  lemma BarExampleDraws(axes: Axes)
    ensures var labels := LabelsAbove([1.0, 2.0, 3.0], None, axes, DecimalFormat, "v", "black", None, None);
            labels.Success? &&
            Draw(Bar, Series([1.0, 2.0, 3.0], false), [LightGray, LightGray, Purple], Single(-1), V,
                 DecimalFormat, axes) == Success(Drawing(None, labels.value))
  {
    LabelsAboveShape([1.0, 2.0, 3.0], None, axes, DecimalFormat, "v", "black", None, None);
  }

  /** The data of the example is no share series: 3 lies above 1. */
  lemma ExampleFormat()
    ensures DefaultFormat(Series([3.0, 1.0, 2.0], false)) == DecimalFormat
  {
    var data := Series([3.0, 1.0, 2.0], false);
    assert !(data.values[0] <= 1.0);
  }

  /** The example asks for a bar chart, which a Series may sort. */
  lemma ExampleKind()
    ensures ChosenKind(Series([3.0, 1.0, 2.0], false), Some("bar")) == Bar
    ensures SortOrder(Bar, Series([3.0, 1.0, 2.0], false), Some(true)) == Some(true)
  {
    assert KindOf("bar") == Bar;
  }

  /** The example's bar chart is sorted into 1, 2, 3. */
  lemma ExampleSorted()
    ensures Sorted(Series([3.0, 1.0, 2.0], false), Some(true)) == Series([1.0, 2.0, 3.0], false)
  {
    SortExample();
  }

  /** The colours stay with the positions, not with the values: sorting
      3, 1, 2 ascending draws 1, 2, 3 while the default highlight still
      colours the last bar, which now shows 3 instead of the 2 that was last
      in the data given. */
  lemma ColorsAreNotPermutedBySort(axes: Axes)
    ensures var r := Micompanyify(Series([3.0, 1.0, 2.0], false), Single(-1), Some("bar"), Some(true), None, axes);
            r.Success? &&
            r.value.plotted.values == [1.0, 2.0, 3.0] &&
            r.value.colors == [LightGray, LightGray, Purple]
  {
    var data := Series([3.0, 1.0, 2.0], false);
    var colors := [LightGray, LightGray, Purple];
    var plotted := Series([1.0, 2.0, 3.0], false);
    BarExampleDraws(axes);
    var drawing := Drawing(None, LabelsAbove([1.0, 2.0, 3.0], None, axes, DecimalFormat, "v", "black", None, None).value);
    ColorsExample();
    ExampleKind();
    ExampleSorted();
    ExampleFormat();
    assert OrientFor(Bar) == V && ClearedTicks(V, Bar) == XTicks;
    assert Draw(Bar, plotted, colors, Single(-1), V, DecimalFormat, axes) == Success(drawing);
    assert Squeeze(data) == Some(data);
    assert Dispatch(data, Single(-1), Some("bar"), Some(true), None, axes) ==
           Success(Plan(Bar, V, DecimalFormat, colors, Some(true), plotted, drawing, XTicks));
    assert Micompanyify(data, Single(-1), Some("bar"), Some(true), None, axes) ==
           Success(Plan(Bar, V, DecimalFormat, colors, Some(true), plotted, drawing, XTicks));
  }
}
