/** Tagging one chain's chart series with its chain label. */
module AggregatedChartData {

  /** One point of a chart series as the query layer delivers it. */
  datatype ChartDataItem = ChartDataItem(time: int, value: real)

  /** The fixed chain label every aggregated entry carries. */
  const FANTOM: string := "Fantom"

  /** An aggregated entry: its `time` and one value per chain label. */
  datatype AggregatedEntry = AggregatedEntry(time: int, values: map<string, real>)

  /** The entry built for one series point. */
  function TagPoint(el: ChartDataItem): AggregatedEntry {
    AggregatedEntry(el.time, map[FANTOM := el.value])
  }

  /** The entries pushed for `series`, in iteration order. */
  function Tagged(series: seq<ChartDataItem>): (r: seq<AggregatedEntry>)
    ensures |r| == |series|
  {
    if series == [] then [] else Tagged(series[..|series| - 1]) + [TagPoint(series[|series| - 1])]
  }

  /** Reads the chain's series back out of aggregated entries. */
  function Untagged(entries: seq<AggregatedEntry>): (r: seq<ChartDataItem>)
    requires forall e :: e in entries ==> FANTOM in e.values
    ensures |r| == |entries|
  {
    if entries == [] then []
    else
      var last := entries[|entries| - 1];
      Untagged(entries[..|entries| - 1]) + [ChartDataItem(last.time, last.values[FANTOM])]
  }

  predicate TimesAscending(series: seq<ChartDataItem>) {
    forall i, j :: 0 <= i < j < |series| ==> series[i].time <= series[j].time
  }

  predicate TimesStrictlyAscending(series: seq<ChartDataItem>) {
    forall i, j :: 0 <= i < j < |series| ==> series[i].time < series[j].time
  }

  predicate EntriesAscending(entries: seq<AggregatedEntry>) {
    forall i, j :: 0 <= i < j < |entries| ==> entries[i].time <= entries[j].time
  }

  predicate EntriesStrictlyAscending(entries: seq<AggregatedEntry>) {
    forall i, j :: 0 <= i < j < |entries| ==> entries[i].time < entries[j].time
  }

  /** Entry k carries point k's time and, under the chain label alone, its value. */
  lemma {:induction false} TaggedAt(series: seq<ChartDataItem>, k: nat)
    requires k < |series|
    ensures Tagged(series)[k].time == series[k].time
    ensures Tagged(series)[k].values == map[FANTOM := series[k].value]
  {
    if k < |series| - 1 {
      TaggedAt(series[..|series| - 1], k);
    }
  }

  /** Whatever the input, every entry's only chain key is the fixed label. */
  lemma TaggedLabelIsFixed(series: seq<ChartDataItem>)
    ensures forall e :: e in Tagged(series) ==> e.values.Keys == {FANTOM}
  {
    forall e | e in Tagged(series)
      ensures e.values.Keys == {FANTOM}
    {
      var k :| 0 <= k < |Tagged(series)| && Tagged(series)[k] == e;
      TaggedAt(series, k);
    }
  }

  /** Tagging loses nothing: reading the label back gives the input series. */
  lemma {:induction false} UntaggedTagged(series: seq<ChartDataItem>)
    ensures forall e :: e in Tagged(series) ==> FANTOM in e.values
    ensures Untagged(Tagged(series)) == series
  {
    TaggedLabelIsFixed(series);
    if series != [] {
      var init := series[..|series| - 1];
      UntaggedTagged(init);
      assert Tagged(series)[..|series| - 1] == Tagged(init);
      assert series == init + [series[|series| - 1]];
    }
  }

  /** Order is preserved: ascending (strictly ascending) input times give
      ascending (strictly ascending) entry times. */
  lemma TaggedPreservesOrder(series: seq<ChartDataItem>)
    ensures TimesAscending(series) ==> EntriesAscending(Tagged(series))
    ensures TimesStrictlyAscending(series) ==> EntriesStrictlyAscending(Tagged(series))
  {
    forall k | 0 <= k < |series|
      ensures Tagged(series)[k].time == series[k].time
    {
      TaggedAt(series, k);
    }
  }

  /** The chart-data aggregator: walks the series and pushes one tagged entry
      per point. `defaultValue` is accepted and never read. */
  method GetAggregatedProtocolChartData(fantomChartData: seq<ChartDataItem>, defaultValue: real)
    returns (aggregatedData: seq<AggregatedEntry>)
    ensures aggregatedData == Tagged(fantomChartData)
    ensures |aggregatedData| == |fantomChartData|
    ensures forall k :: 0 <= k < |fantomChartData| ==>
              aggregatedData[k].time == fantomChartData[k].time &&
              aggregatedData[k].values == map[FANTOM := fantomChartData[k].value]
  {
    aggregatedData := [];
    var i := 0;
    while i < |fantomChartData|
      invariant 0 <= i <= |fantomChartData|
      invariant aggregatedData == Tagged(fantomChartData[..i])
    {
      var el := fantomChartData[i];
      var aggregatedEntry := TagPoint(el);
      aggregatedData := aggregatedData + [aggregatedEntry];
      assert fantomChartData[..i + 1][..i] == fantomChartData[..i];
      i := i + 1;
    }
    assert fantomChartData[..i] == fantomChartData;
    forall k | 0 <= k < |fantomChartData|
      ensures aggregatedData[k].time == fantomChartData[k].time
      ensures aggregatedData[k].values == map[FANTOM := fantomChartData[k].value]
    {
      TaggedAt(fantomChartData, k);
    }
  }
}
