/** Waterfall geometry (`plot_waterfall`): every bar floats on a blank bar
    as long as the sum of the bars before it, and a final "total" bar stands
    on nothing. A build-up waterfall shows the same rows in reverse order. */
module Waterfalls {
  import opened Frames
  import opened Highlight

  /** What `plot_waterfall` hands to the stacked bar plot and returns: the
      values including the "total" row, the blank offset of every row, and
      the bar colours. */
  datatype WaterfallChart = WaterfallChart(data: seq<real>, blank: seq<real>, colors: seq<Color>)

  /** The colours `plot_waterfall` starts from: the ones given, or light gray
      for every row. */
  function WaterfallBaseColors(values: seq<real>, color: Option<seq<Color>>): seq<Color> {
    if color.None? then seq(|values|, i => LightGray) else color.value
  }

  /** `plot_waterfall(data, color, buildup)` on the values of a Series. */
  function BuildWaterfall(values: seq<real>, color: Option<seq<Color>>, buildup: bool): WaterfallChart {
    var data := values + [Sum(values)];
    var blank := ShiftedCumSum(values) + [0.0];
    var colors := WaterfallBaseColors(values, color) + [Gray];
    if buildup then WaterfallChart(Reverse(data), Reverse(blank), Reverse(colors))
    else WaterfallChart(data, blank, colors)
  }

  /** The build-down waterfall: the rows in their own order followed by the
      "total" row; row i floats at the sum of the rows before it; the total is
      the sum of all rows, stands at 0 and is gray; the colours given come
      first, unchanged. */
  lemma BuilddownShape(values: seq<real>, color: Option<seq<Color>>)
    ensures var w := BuildWaterfall(values, color, false);
            var n := |values|;
            |w.data| == |w.blank| == n + 1 &&
            w.data[..n] == values && w.data[n] == Sum(values) &&
            (forall i :: 0 <= i < n ==> w.blank[i] == Sum(values[..i])) &&
            w.blank[n] == 0.0 &&
            w.colors == WaterfallBaseColors(values, color) + [Gray]
  {
    var w := BuildWaterfall(values, color, false);
    ShiftedCumSumIsExclusivePrefixSum(values);
    assert w.data[..|values|] == values;
  }

  /** Each bar's far end, where its label goes (`data + blank`), is the
      running total up to and including that row; the total bar ends at the
      grand total. */
  lemma BarEndsAreRunningTotals(values: seq<real>, color: Option<seq<Color>>)
    ensures var w := BuildWaterfall(values, color, false);
            (forall i :: 0 <= i < |values| ==> w.data[i] + w.blank[i] == Sum(values[..i + 1])) &&
            w.data[|values|] + w.blank[|values|] == Sum(values)
  {
    BuilddownShape(values, color);
    forall i | 0 <= i < |values| {
      SumPrefixStep(values, i);
    }
  }

  /** A build-up waterfall is the build-down waterfall read backwards: values,
      offsets and colours are all reversed together, so the "total" row comes
      first. */
  lemma BuildupReversesBuilddown(values: seq<real>, color: Option<seq<Color>>)
    ensures var up := BuildWaterfall(values, color, true);
            var down := BuildWaterfall(values, color, false);
            |up.data| == |down.data| && |up.blank| == |down.blank| && |up.colors| == |down.colors| &&
            (forall i :: 0 <= i < |up.data| ==> up.data[i] == down.data[|down.data| - 1 - i]) &&
            (forall i :: 0 <= i < |up.blank| ==> up.blank[i] == down.blank[|down.blank| - 1 - i]) &&
            (forall i :: 0 <= i < |up.colors| ==> up.colors[i] == down.colors[|down.colors| - 1 - i])
    ensures var up := BuildWaterfall(values, color, true);
            up.data[0] == Sum(values) && up.blank[0] == 0.0 && up.colors[0] == Gray
  {
    BuildupTotalFirst(values, color);
  }

  /** The "total" row, the last of a build-down waterfall, is the first of a
      build-up one. */
  lemma BuildupTotalFirst(values: seq<real>, color: Option<seq<Color>>)
    ensures var up := BuildWaterfall(values, color, true);
            |up.data| == |up.blank| == |values| + 1 &&
            up.data[0] == Sum(values) && up.blank[0] == 0.0 && up.colors[0] == Gray
  {
    var down := BuildWaterfall(values, color, false);
    BuilddownShape(values, color);
    var n := |values|;
    assert Reverse(down.data)[0] == down.data[n];
    assert Reverse(down.blank)[0] == down.blank[n];
    assert Reverse(down.colors)[0] == down.colors[|down.colors| - 1];
  }

  /** Bars read backwards: when bar i of `data`/`blank` is value i ending at
      the running total through i, bar k of the reversed bars is value n-k
      ending at the running total through n-k. */
  lemma ReversedBarEnds(values: seq<real>, data: seq<real>, blank: seq<real>, upData: seq<real>,
                        upBlank: seq<real>)
    requires |data| == |blank| == |upData| == |upBlank| == |values| + 1
    requires forall i :: 0 <= i < |upData| ==> upData[i] == data[|data| - 1 - i]
    requires forall i :: 0 <= i < |upBlank| ==> upBlank[i] == blank[|blank| - 1 - i]
    requires data[..|values|] == values
    requires forall i :: 0 <= i < |values| ==> data[i] + blank[i] == Sum(values[..i + 1])
    ensures forall k :: 1 <= k <= |values| ==>
              upData[k] == values[|values| - k] && upData[k] + upBlank[k] == Sum(values[..|values| - k + 1])
  {
    var n := |values|;
    forall k | 1 <= k <= n
      ensures upData[k] == values[n - k] && upData[k] + upBlank[k] == Sum(values[..n - k + 1])
    {
      var j := n - k;
      assert upData[k] == data[j] && upBlank[k] == blank[j];
      assert data[..n][j] == data[j];
    }
  }

  /** In a build-up waterfall the total bar comes first and ends at the grand
      total; bar k after it is value n-k, and ends at the running total up to
      and including that value. */
  lemma BuildupBarEnds(values: seq<real>, color: Option<seq<Color>>)
    ensures var up := BuildWaterfall(values, color, true);
            var n := |values|;
            |up.data| == |up.blank| == n + 1 &&
            up.data[0] == Sum(values) && up.data[0] + up.blank[0] == Sum(values) &&
            forall k :: 1 <= k <= n ==>
              up.data[k] == values[n - k] && up.data[k] + up.blank[k] == Sum(values[..n - k + 1])
  {
    var up := BuildWaterfall(values, color, true);
    var down := BuildWaterfall(values, color, false);
    BuildupTotalFirst(values, color);
    BuilddownShape(values, color);
    BarEndsAreRunningTotals(values, color);
    ReversedBarEnds(values, down.data, down.blank, up.data, up.blank);
  }

  /** The example of a decomposition: 10, -3 and 5 float at 0, 10 and 7, and
      the total of 12 stands at 0. */
  lemma WaterfallExample()
    ensures BuildWaterfall([10.0, -3.0, 5.0], None, false) ==
            WaterfallChart([10.0, -3.0, 5.0, 12.0], [0.0, 10.0, 7.0, 0.0],
                           [LightGray, LightGray, LightGray, Gray])
  {
    var values := [10.0, -3.0, 5.0];
    ShiftedCumSumIsExclusivePrefixSum(values);
    assert values[..1] == [10.0];
    assert values[..2] == [10.0, -3.0];
    assert ShiftedCumSum(values) == [0.0, 10.0, 7.0];
    assert seq(3, i => LightGray) == [LightGray, LightGray, LightGray];
  }

  /** A pandas Series as a mutable object; only its values are modelled. */
  class SeriesObject {
    var values: seq<real>

    constructor (values: seq<real>)
      ensures this.values == values
    {
      this.values := values;
    }
  }

  /** `plot_waterfall` as the source runs it: it appends the "total" row to
      the Series it was given, in place, and returns that same object for a
      build-down waterfall, or a new reversed copy for a build-up one. */
  method PlotWaterfall(data: SeriesObject, color: Option<seq<Color>>, buildup: bool)
      returns (shown: SeriesObject, blank: seq<real>, colors: seq<Color>)
    modifies data
    ensures data.values == old(data.values) + [Sum(old(data.values))]
    ensures !buildup ==> shown == data
    ensures buildup ==> fresh(shown)
    ensures WaterfallChart(shown.values, blank, colors) == BuildWaterfall(old(data.values), color, buildup)
  {
    var base := if color.None? then seq(|data.values|, i => LightGray) else color.value;
    blank := ShiftedCumSum(data.values);
    var total := Sum(data.values);
    data.values := data.values + [total];
    blank := blank + [0.0];
    colors := base + [Gray];
    if buildup {
      shown := new SeriesObject(Reverse(data.values));
      blank := Reverse(blank);
      colors := Reverse(colors);
    } else {
      shown := data;
    }
  }
}
