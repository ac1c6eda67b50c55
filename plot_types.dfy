/** The chart kinds and the automatic choice between them (`pick_plottype`
    with its helper `is_percentage_series`). */
module PlotTypes {
  import opened Frames

  /** The `plottype` strings the charting code reacts to; any other string is
      `Unsupported`. */
  datatype PlotKind =
    | Bar
    | BarTimeseries
    | LineTimeseries
    | Waterfall
    | WaterfallBuildup
    | CompositionComparison
    | Scatter
    | Piechart
    | Unsupported(name: string)
  {
    /** The string a caller passes to select this kind. */
    function Name(): string {
      match this
      case Bar => "bar"
      case BarTimeseries => "bar_timeseries"
      case LineTimeseries => "line_timeseries"
      case Waterfall => "waterfall"
      case WaterfallBuildup => "waterfall_buildup"
      case CompositionComparison => "composition_comparison"
      case Scatter => "scatter"
      case Piechart => "piechart"
      case Unsupported(name) => name
    }
  }

  const KnownNames: set<string> :=
    {"bar", "bar_timeseries", "line_timeseries", "waterfall", "waterfall_buildup",
     "composition_comparison", "scatter", "piechart"}

  /** Reads a `plottype` string. Every string names exactly one kind, and
      naming that kind gives the string back. */
  function KindOf(name: string): (k: PlotKind)
    ensures k.Name() == name
    ensures k.Unsupported? <==> name !in KnownNames
  {
    if name == "bar" then Bar
    else if name == "bar_timeseries" then BarTimeseries
    else if name == "line_timeseries" then LineTimeseries
    else if name == "waterfall" then Waterfall
    else if name == "waterfall_buildup" then WaterfallBuildup
    else if name == "composition_comparison" then CompositionComparison
    else if name == "scatter" then Scatter
    else if name == "piechart" then Piechart
    else Unsupported(name)
  }

  /** Naming a known kind and reading the name back gives the same kind. */
  lemma KindOfName(k: PlotKind)
    requires !k.Unsupported? || k.name !in KnownNames
    ensures KindOf(k.Name()) == k
  {
  }

  function Abs(x: real): real {
    if x < 0.0 then -x else x
  }

  function Max(a: real, b: real): real {
    if a < b then b else a
  }

  /** Python's `math.isclose(a, b)` with its defaults (relative tolerance 1e-9,
      absolute tolerance 0), evaluated exactly over the reals. */
  predicate IsClose(a: real, b: real) {
    Abs(a - b) <= 0.000000001 * Max(Abs(a), Abs(b))
  }

  /** `is_percentage_series`: every value in [0, 1] (both ends included) and
      the total close to 1. */
  predicate IsPercentageSeries(values: seq<real>) {
    (forall i :: 0 <= i < |values| ==> 0.0 <= values[i] <= 1.0) && IsClose(Sum(values), 1.0)
  }

  /** An empty series sums to 0, which is not close to 1: it is never a
      percentage series. */
  lemma EmptyIsNoPercentageSeries()
    ensures !IsPercentageSeries([])
  {
  }

  /** Shares that add up to exactly 1 always pass the test. */
  lemma ExactSharesArePercentages(values: seq<real>)
    requires forall i :: 0 <= i < |values| ==> 0.0 <= values[i] <= 1.0
    requires Sum(values) == 1.0
    ensures IsPercentageSeries(values)
  {
  }

  /** A total a full percent away from 1 is never close enough. */
  lemma FarFromOneIsNoPercentageSeries(values: seq<real>)
    requires Abs(Sum(values) - 1.0) >= 0.01
    ensures !IsPercentageSeries(values)
  {
  }

  /** `data.apply(is_percentage_series).all()` on a DataFrame. */
  predicate AllColumnsPercentages(columns: seq<seq<real>>) {
    forall c :: 0 <= c < |columns| ==> IsPercentageSeries(columns[c])
  }

  /** `pick_plottype`: a time index decides first (bars for fewer than 10
      points, a line otherwise); then a Series of shares is a waterfall and
      any other Series a bar chart; a DataFrame whose every column holds
      shares is a composition comparison, any other DataFrame a scatter. */
  function PickPlotType(data: Data): (k: PlotKind)
    requires data.WellFormed() && !data.Other?
    ensures k in {BarTimeseries, LineTimeseries} <==> data.timeIndex
    ensures data.timeIndex ==> (k == BarTimeseries <==> data.Len() < 10)
    ensures !data.timeIndex && data.Series? ==>
              k in {Bar, Waterfall} && (k == Waterfall <==> IsPercentageSeries(data.values))
    ensures !data.timeIndex && data.Table? ==>
              k in {CompositionComparison, Scatter} &&
              (k == CompositionComparison <==> AllColumnsPercentages(data.columns))
  {
    if data.timeIndex then
      if data.Len() < 10 then BarTimeseries else LineTimeseries
    else if data.Series? then
      if IsPercentageSeries(data.values) then Waterfall else Bar
    else
      if AllColumnsPercentages(data.columns) then CompositionComparison else Scatter
  }

  /** The automatic choice is always a kind the dispatcher draws: never the
      refused pie chart, never the build-up waterfall and never an unknown
      name. */
  lemma PickedKindIsDrawable(data: Data)
    requires data.WellFormed() && !data.Other?
    ensures PickPlotType(data) !in {Piechart, WaterfallBuildup}
    ensures !PickPlotType(data).Unsupported?
  {
  }
}
