# micplot in Dafny

A model of the decision logic of `micplot`. This small charting helper turns a
pandas Series or DataFrame into a chart in a fixed house style. Given the data,
`micompanyify` does the following:

- picks the chart kind (`pick_plottype`, using `is_percentage_series`);
- picks the orientation and the label format;
- builds the list of bar colours with the highlighted entries in purple (`define_colors`);
- sorts a Series when the chart kind allows it;
- dispatches to the chosen kind. A waterfall gets its floating bars from
  `plot_waterfall`. The bars get value labels from `plot_values_above_bar`.
  Pie charts and unknown kinds are refused.
- clears the tick labels of the value axis.

The model keeps all of these decisions, with their exceptions. It leaves out
the pixels.

Modules:

- `Frames` holds:
  - the data model: a Series as its values, a DataFrame as its columns, and any other object as its length;
  - the Python exceptions, as a `Result`;
  - the sequence work pandas does for the code: `squeeze`, `sum`, `cumsum`, `shift(1).fillna(0)`, `[::-1]`, `sort_values`;
  - Python's negative list subscripts.
- `PlotTypes` holds the chart kinds, `is_percentage_series` with `math.isclose`,
  and `pick_plottype`.
- `Highlight` holds `define_colors`. `ColorList` is the function the rest of
  the model uses. `DefineColors` is the method that runs the source's loop and
  is proved equal to it.
- `Waterfalls` holds `plot_waterfall`:
  - `BuildWaterfall` is the value-level function;
  - `PlotWaterfall` is a method on a mutable `SeriesObject` that appends the
    total row in place, as the source does.
- `BarLabels` holds `plot_values_above_bar`:
  - `LabelsAbove` is the function;
  - `PlotValuesAboveBar` is the method that runs the source's loop.
- `Micplot` holds `micompanyify`. It returns a `Plan` with the chosen kind,
  orientation, format, colours, sort order, plotted data, drawing (waterfall
  geometry and labels) and cleared ticks. Otherwise it returns the exception
  the call raises. `Micompanyify` squeezes the data; `Dispatch` is
  everything the call does after that.

The axis limits that matplotlib reports when the labels are placed are a
parameter (`Axes`).

In two places the code departs from its own docstrings. The model follows
the code:

- The colour list is computed from the data before sorting and is not
  permuted with it. The docstring of `micompanyify` (micplot.py:171) speaks
  of highlighting "the data point"; the highlight in fact stays on a
  position, not on a value (`Micplot.ColorsAreNotPermutedBySort`).
- The docstring of `define_colors` speaks of "indices of rows" and a list of
  `len(data)` colours (micplot.py:100, micplot.py:106). For a DataFrame the
  list has one entry per column. A single index counts columns, while an
  index in a list is first moved up by the number of rows
  (`Highlight.TableSingleAndListDisagree`).

Two further points of the code are worth knowing:

- The tick labels that get cleared are those of the value axis: x for
  horizontal bars, y for standing bars (`Micplot.DispatchDecisions`).
- The default highlight `-1` fails on empty data
  (`Highlight.DefaultHighlightOnEmptySeries`).

## Model

| member | source | states |
|---|---|---|
| `Frames.ShiftedCumSumIsExclusivePrefixSum` | micplot.py:80 | the waterfall blank of row i is the sum of the rows strictly before i |
| `Frames.CumSumIsInclusivePrefixSum` | micplot.py:252 | the running total of row i is the sum of the rows up to and including i |
| `Frames.PyIndex` | micplot.py:118-120 | a list subscript resolves iff it lies in -n..n-1; a negative subscript k lands on n + k, any other on k itself |
| `Frames.CumSum` | micplot.py:251-252 | `cumsum()` keeps the length; its meaning, the inclusive prefix sums, is `Frames.CumSumIsInclusivePrefixSum` |
| `Frames.ShiftedCumSum` | micplot.py:80 | `cumsum().shift(1).fillna(0)` keeps the length; its meaning, the exclusive prefix sums, is `Frames.ShiftedCumSumIsExclusivePrefixSum` |
| `Frames.Squeeze` | micplot.py:189 | exactly a one-value Series and a 1x1 DataFrame become a single number; anything else stays a Series or DataFrame with no dimension of 1 left |
| `Frames.SqueezeKeepsValues` | micplot.py:189 | a one-column DataFrame becomes that column as a Series, a one-row DataFrame the row as a Series without time index, anything else is unchanged; squeezing twice is squeezing once |
| `Frames.Reverse` | micplot.py:86-89 | the reversed sequence has the same length and elements, element k coming from position n-1-k |
| `Frames.BackwardsSameMultiset` | micplot.py:86-89 | a sequence holding another's elements in the opposite order holds the same elements, as many times each |
| `Frames.SortAscending` | micplot.py:209-210 | the ascending sort is a permutation of the values, in ascending order |
| `Frames.SortValues` | micplot.py:209-210 | sorting is a permutation of the values, ascending or descending as requested |
| `PlotTypes.KindOf` | micplot.py:212-263 | every plottype string selects exactly one branch; the unknown ones are exactly the strings outside the eight known names |
| `PlotTypes.KindOfName` | micplot.py:212-263 | naming a kind and reading the name back gives the same kind |
| `PlotTypes.IsClose` | micplot.py:129 | `math.isclose` with its default tolerances; what it accepts and refuses is stated by the three lemmas below |
| `PlotTypes.IsPercentageSeries` | micplot.py:123-129 | every value in [0, 1] and the total close to 1; see `PlotTypes.EmptyIsNoPercentageSeries`, `PlotTypes.ExactSharesArePercentages`, `PlotTypes.FarFromOneIsNoPercentageSeries` |
| `PlotTypes.EmptyIsNoPercentageSeries` | micplot.py:129 | an empty series is never a percentage series, since its sum 0 is not close to 1 |
| `PlotTypes.ExactSharesArePercentages` | micplot.py:129 | values in [0, 1] that add up to exactly 1 form a percentage series |
| `PlotTypes.FarFromOneIsNoPercentageSeries` | micplot.py:129 | a sum a full percent away from 1 fails the closeness test |
| `PlotTypes.PickPlotType` | micplot.py:144-159 | the full decision table: time index first (bars below 10 points, else line); Series of shares is a waterfall, else a bar chart; all-share DataFrame is a composition, else a scatter |
| `PlotTypes.PickedKindIsDrawable` | micplot.py:144-159 | the automatic choice is never the pie chart, the build-up waterfall or an unknown name |
| `Highlight.ColorList` | micplot.py:94-121 | `define_colors`; its errors, length and highlighted entries are stated by `Highlight.ColorListShape` |
| `Highlight.PaintShape` | micplot.py:114-118 | painting a list of indices succeeds iff every normalised index resolves; else IndexError; on success exactly the marked entries change, to the highlight colour |
| `Highlight.ColorListShape` | micplot.py:108-121 | TypeError iff the input is neither Series nor DataFrame outside scatter; else IndexError iff some index does not resolve; else one entry per value (Series, scatter) or per column (DataFrame), purple exactly at the selected entries |
| `Highlight.SingleMatchesList` | micplot.py:114-120 | whenever the colour list has one entry per row (a Series, a scatter plot, a square DataFrame), a single index in range and the one-element list holding it colour the same entry |
| `Highlight.DefaultHighlightMarksLast` | micplot.py:119-120 | the default -1 marks exactly the last entry of any non-empty colour list |
| `Highlight.DefaultHighlightOnEmptySeries` | micplot.py:119-120 | the default -1 on an empty Series is an IndexError |
| `Highlight.TableSingleAndListDisagree` | micplot.py:110-120 | on a DataFrame `-1` and `[-1]` differ: the list form normalises by rows, so it fails or marks a middle column |
| `Highlight.SeriesListWrapsTwice` | micplot.py:115-120 | below -len the two forms part: `[-4]` on three values marks the last entry, `-4` alone fails |
| `Highlight.DefineColors` | micplot.py:108-121 | the loop that overwrites one highlighted index at a time returns exactly `ColorList`, including its TypeError and IndexError |
| `Waterfalls.BuildWaterfall` | micplot.py:60-92 | `plot_waterfall` on values; its shape is stated by `Waterfalls.BuilddownShape`, `Waterfalls.BarEndsAreRunningTotals`, `Waterfalls.BuildupReversesBuilddown` and `Waterfalls.BuildupBarEnds` |
| `Waterfalls.BuilddownShape` | micplot.py:76-84 | a total row equal to the sum is appended; each blank is the sum of the rows before it; the total's blank is 0; the colours are those given (or light gray) followed by gray |
| `Waterfalls.BarEndsAreRunningTotals` | micplot.py:80-84 | each bar ends (value plus blank) at the running total through its row; the total bar ends at the grand total |
| `Waterfalls.BuildupReversesBuilddown` | micplot.py:86-89 | the build-up waterfall is the build-down one with values, blanks and colours reversed together, so the gray total comes first at 0 |
| `Waterfalls.BuildupTotalFirst` | micplot.py:86-89 | the gray total row, last when building down, is the first row of a build-up waterfall: value the grand total, blank 0 |
| `Waterfalls.ReversedBarEnds` | micplot.py:86-89 | reading bars that end at the running totals backwards, bar k (k ≥ 1) is value n-k and ends at the running total through that value |
| `Waterfalls.BuildupBarEnds` | micplot.py:76-89 | in a build-up waterfall the total bar comes first and ends at the grand total; bar k after it is value n-k and ends at the running total up to and including that value |
| `Waterfalls.WaterfallExample` | micplot.py:76-84 | 10, -3, 5 float at 0, 10, 7 and the total 12 stands at 0 |
| `Waterfalls.PlotWaterfall` | micplot.py:76-92 | the total row is appended to the caller's Series in place; build-down returns that same object, build-up a fresh reversed copy; the result is `BuildWaterfall` of the old values |
| `BarLabels.LabelsAbove` | micplot.py:15-57 | `plot_values_above_bar`; its errors are `BarLabels.LabelsAboveErrors`, its labels `BarLabels.LabelsAboveShape` |
| `BarLabels.LabelsAboveErrors` | micplot.py:30-52 | ValueError iff exactly one of bar_nr/nr_bars is given or orient is neither "v" nor "h"; ZeroDivisionError iff nr_bars is -2 and something is labelled |
| `BarLabels.LabelsAboveShape` | micplot.py:47-57 | one label per pair of a position and a displayed value (the shorter wins); label i shows value i at position i plus 2.5% of the value axis span, in slot i, nudged by -0.5 + (bar_nr+1)/(nr_bars+2) when grouped |
| `BarLabels.OrientationSwapsCoordinates` | micplot.py:37-55 | "v" and "h" give the same labels with x and y exchanged, each on its own value axis |
| `BarLabels.GroupOffsetWithinSlot` | micplot.py:51-52 | grouped labels of bars 0..nr_bars-1 stay strictly inside their slot and keep the bar order |
| `BarLabels.LabelExample` | micplot.py:49-57 | on an axis from 0 to 100 a bar ending at 40 is labelled at 42.5 |
| `BarLabels.PlotValuesAboveBar` | micplot.py:30-57 | the validating loop produces exactly `LabelsAbove`, including its errors |
| `Micplot.MidpointIsHalfway` | micplot.py:251-253 | a composition label sits at the sum of the segments before it plus half its own, within its segment when it is not negative |
| `Micplot.OrientFor` | micplot.py:194 | time series stand up, everything else lies down; stated in `Micplot.DispatchDecisions` |
| `Micplot.DefaultFormat` | micplot.py:196-201 | a percentage format for shares, two decimals otherwise; related to the automatic kind by `Micplot.DefaultFormatMatchesAutomaticKind` |
| `Micplot.SortDisabled` | micplot.py:205-207 | sorting off for scatter, pie, composition and time series, and for anything but a Series; stated in `Micplot.DispatchDecisions` |
| `Micplot.ClearedTicks` | micplot.py:264-268 | which axis loses its tick labels; stated in `Micplot.DispatchDecisions` |
| `Micplot.Draw` | micplot.py:212-263 | the branch of each kind; its refusals are `Micplot.DrawRefusals`, its labels the lemmas below, the build-up waterfall's labels `Micplot.BuildupLabelsAtRunningTotals` |
| `Micplot.ColumnBlockPlaced` | micplot.py:47-55 | the labels of column c of n grouped columns: one per value, at the bar end plus 2.5% of the axis, in slot i nudged by the offset of bar c |
| `Micplot.ColumnLabelsSplit` | micplot.py:217-219 | the labels from column c on are those of column c followed by those of the later columns |
| `Micplot.ColumnLabelsFirstBlock` | micplot.py:217-219 | the first labels from column c on are column c's own, placed in its grouped slots |
| `Micplot.ColumnLabelsLength` | micplot.py:217-219 | with `rows` values per column the labels form one block of `rows` per column |
| `Micplot.ColumnLabelsBlock` | micplot.py:217-219 | label i of column c sits at index c·rows + i of all the labels |
| `Micplot.ColumnLabelPlaced` | micplot.py:217-219 | label i of column c of a DataFrame bar chart shows value i of that column at its bar end, in slot i nudged by the offset of bar c among the columns |
| `Micplot.ColumnLabelsPlacement` | micplot.py:217-219 | all grouped labels of a DataFrame bar chart: one block per column in column order, each label at its bar end and in its grouped slot |
| `Micplot.ColumnLabelsSucceed` | micplot.py:217-219 | grouped labels for the columns of a DataFrame are always placed |
| `Micplot.BarChartLabelsSucceed` | micplot.py:212-219 | bar labels of a Series or a DataFrame are always placed |
| `Micplot.WaterfallDrawingErrors` | micplot.py:221-227 | a waterfall is drawn iff the data is a Series |
| `Micplot.CompositionDrawingErrors` | micplot.py:249-258 | a composition fails only with TypeError, IndexingError or IndexError |
| `Micplot.ScatterNeedsTwoColumns` | micplot.py:241-248 | a scatter is drawn iff the data is a DataFrame with at least two columns; a Series is an IndexingError, fewer columns an IndexError |
| `Micplot.DrawRefusals` | micplot.py:260-263 | the dispatch raises NotImplementedError exactly for unknown kinds, naming them, and TypeError for the pie chart |
| `Micplot.Micompanyify` | micplot.py:162-269 | `micompanyify`; its outcomes are stated by `Micplot.NonPandasIsTypeError`, `Micplot.ScalarAfterSqueeze`, `Micplot.SingleColumnIsSeries` and `Micplot.DispatchDecisions` |
| `Micplot.Dispatch` | micplot.py:191-268 | everything after `squeeze()`; stated by `Micplot.DispatchPlan` |
| `Micplot.NonPandasIsTypeError` | micplot.py:186-187 | anything that is not a Series or DataFrame is a TypeError |
| `Micplot.ScalarAfterSqueeze` | micplot.py:189-203 | data that squeezes to a single number raises: AttributeError when the kind is picked from its index, TypeError when it is coloured |
| `Micplot.SingleColumnIsSeries` | micplot.py:189 | a one-column DataFrame is treated exactly as the Series of its column, including when that column holds one value and both squeeze to a number |
| `Micplot.DispatchPlan` | micplot.py:191-268 | the decisions of `Dispatch` on squeezed data, as in `Micplot.DispatchDecisions` |
| `Micplot.DispatchDecisions` | micplot.py:189-268 | a successful call, on the squeezed data: kind, orientation (standing iff time series), format, colours of the unsorted data, sort only for Series bar/waterfall into a permutation in the requested order, drawing of that kind on the sorted data, value-axis ticks cleared except for scatter and line |
| `Micplot.DefaultFormatMatchesAutomaticKind` | micplot.py:196-201 | without a time index the default format is a percentage iff the automatic kind is a waterfall or a composition |
| `Micplot.PiechartAlwaysRaises` | micplot.py:260-261 | a pie chart always raises, a TypeError once colours could be assigned |
| `Micplot.UnknownKindNotImplemented` | micplot.py:262-263 | an unknown kind always raises, a NotImplementedError naming it once colours could be assigned |
| `Micplot.AutomaticKindNeverRefused` | micplot.py:191-192 | the automatic choice never ends in NotImplementedError |
| `Micplot.CompositionNeedsSingleHighlight` | micplot.py:254-255 | a composition with a list of highlights raises TypeError once colours could be assigned |
| `Micplot.CompositionLabelsAtSegmentMiddles` | micplot.py:249-258 | for an existing row, one white label per column, in that column's slot at the middle of its segment, showing the segment's value; IndexError for a missing row, IndexingError for a Series |
| `Micplot.WaterfallLabelsAtRunningTotals` | micplot.py:221-223 | waterfall labels sit at the running totals, each in its bar's slot, and show each bar's value; the last is the grand total |
| `Micplot.BuildupLabelsAtRunningTotals` | micplot.py:224-227 | a build-up waterfall of a Series labels the total first, at the grand total, in slot 0; label k shows value n-k in slot k, at the running total up to and including that value, plus 2.5% of the axis span |
| `Micplot.SortExample` | micplot.py:209-210 | 3, 1, 2 sorted ascending is 1, 2, 3 |
| `Micplot.ColorsExample` | micplot.py:203 | the default highlight on three values colours the third |
| `Micplot.ColorsAreNotPermutedBySort` | micplot.py:203-215 | sorting 3, 1, 2 draws 1, 2, 3 while the purple entry stays last |

## Left out

- Drawing: the matplotlib and seaborn calls, `plt.box(False)`, the returned
  `Axes` object and `**kwargs`. The model returns what would be drawn as a
  `Plan` value.
- Label text: `'{:{prec}}'.format(...)` is not evaluated. A label carries the
  number and the format string.
- Floating point: values are reals, and `math.isclose` is evaluated exactly.
  NaN and infinities are not modelled.
- `squeeze()` (micplot.py:189) is modelled by its shape only: the single
  number it can return is not a value of the model, so `Micompanyify` ends
  in the exception the next use of that number raises.
- Index labels: a Series is its values in order. The `'total'` label, the
  overwriting of an existing `'total'` row, and pandas' alignment of
  `data + blank` by label are not modelled. The two sequences are aligned by
  position, which is what the code produces.
- A waterfall of a DataFrame ends in `OutOfModel`. What pandas does with
  `loc['total']` and `[::-1]` on a frame is not modelled.
- Micompanyify: `plot_waterfall` appends the total row in place to the
  object it is given, which is the copy `squeeze()` or `sort_values()`
  returned, never the caller's Series. That append is modelled only by
  `Waterfalls.PlotWaterfall`; `Micompanyify` works on values.
- The highlight is an integer or a list of integers. Booleans, floats, numpy
  integers and other iterables are not modelled.
- The composition comparison raises its TypeError after the stacked bars are
  drawn. The partial drawing is not modelled.
- The plotting backend constant (micplot.py:12) is always `'matplotlib'`, so
  the build-up waterfall is always labelled.
- `ax=None` and `plt.gca()`: the current axes are not modelled. Their limits
  are the `Axes` parameter.
