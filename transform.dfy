/**
 * `transformToBarRace`: turns the chart payload (one configuration block and
 * one point list per series) into index-aligned names, colours and
 * `{y, date}` sequences, plus the sorted set of every date.
 */
module Transform {
  import opened Wrappers
  import opened Dates

  /** One element of `chart_config.seriesConfigs`; an absent name is the empty string. */
  datatype SeriesConfig = SeriesConfig(nameEn: string, nameTc: string, color: string)

  /** One raw point `[date, y]` of `chartData.series[idx]`. */
  datatype RawPoint = RawPoint(date: Date, y: int)

  /** The part of the payload the transform reads. */
  datatype ChartData = ChartData(seriesConfigs: seq<SeriesConfig>, series: seq<seq<RawPoint>>)

  /** One `{y, date}` element of a sequence. */
  datatype Point = Point(y: int, date: Date)

  datatype BarRaceData = BarRaceData(
    names: seq<string>,
    colors: seq<string>,
    sequences: seq<seq<Point>>,
    dates: seq<Date>)

  /** `seriesData[idx]` is undefined, so `data.map` throws. */
  datatype TransformError = MissingSeries(index: nat)

  predicate Aligned(d: BarRaceData)
  {
    |d.names| == |d.colors| == |d.sequences|
  }

  /** Some point of some sequence carries date `x`. */
  ghost predicate Occurs(sequences: seq<seq<Point>>, x: Date)
  {
    exists i, k :: 0 <= i < |sequences| && 0 <= k < |sequences[i]| && sequences[i][k].date == x
  }

  /** The dataset invariant: aligned arrays, and `dates` is the ascending set of all dates. */
  ghost predicate WellFormed(d: BarRaceData)
  {
    && Aligned(d)
    && StrictlyIncreasing(d.dates)
    && forall x :: x in d.dates <==> Occurs(d.sequences, x)
  }

  /** `name_en || name_tc`: the English name unless it is empty. */
  function DisplayName(c: SeriesConfig): string
  {
    if c.nameEn != "" then c.nameEn else c.nameTc
  }

  /** `d` carries, entry by entry, the names, colours and points of `chart`. */
  ghost predicate Normalizes(chart: ChartData, d: BarRaceData)
  {
    && |d.names| == |d.colors| == |d.sequences| == |chart.seriesConfigs| <= |chart.series|
    && (forall i :: 0 <= i < |d.names| ==>
          d.names[i] == DisplayName(chart.seriesConfigs[i])
          && d.colors[i] == chart.seriesConfigs[i].color)
    && (forall i :: 0 <= i < |d.sequences| ==> |d.sequences[i]| == |chart.series[i]|)
    && (forall i, k :: 0 <= i < |d.sequences| && 0 <= k < |d.sequences[i]| ==>
          d.sequences[i][k] == Point(chart.series[i][k].y, chart.series[i][k].date))
  }

  /** Some point among sequences `0..i-1`, or among the first `k` points of sequence `i`, carries `x`. */
  ghost predicate SeenBefore(sequences: seq<seq<Point>>, i: nat, k: nat, x: Date)
  {
    exists j, m :: 0 <= j < |sequences| && 0 <= m < |sequences[j]|
      && (j < i || (j == i && m < k)) && sequences[j][m].date == x
  }

  lemma SeenStep(sequences: seq<seq<Point>>, i: nat, k: nat)
    requires i < |sequences| && k < |sequences[i]|
    ensures forall x :: SeenBefore(sequences, i, k + 1, x) <==>
      SeenBefore(sequences, i, k, x) || x == sequences[i][k].date
  {
    assert SeenBefore(sequences, i, k + 1, sequences[i][k].date);
    forall x | SeenBefore(sequences, i, k + 1, x) && x != sequences[i][k].date
      ensures SeenBefore(sequences, i, k, x)
    {
      var j, m :| 0 <= j < |sequences| && 0 <= m < |sequences[j]|
        && (j < i || (j == i && m < k + 1)) && sequences[j][m].date == x;
      assert j < i || (j == i && m < k);
    }
  }

  lemma SeenNextSequence(sequences: seq<seq<Point>>, i: nat)
    requires i < |sequences|
    ensures forall x :: SeenBefore(sequences, i, |sequences[i]|, x) <==> SeenBefore(sequences, i + 1, 0, x)
  {
  }

  lemma SeenAll(sequences: seq<seq<Point>>)
    ensures forall x :: SeenBefore(sequences, |sequences|, 0, x) <==> Occurs(sequences, x)
  {
  }

  /**
   * `transformToBarRace`. Fails exactly when some configured series has no
   * point list; otherwise the result is aligned with the configuration, keeps
   * every point, and its `dates` is the ascending set of all dates.
   */
  method TransformToBarRace(chart: ChartData) returns (r: Result<BarRaceData, TransformError>)
    ensures r.Err? <==> |chart.series| < |chart.seriesConfigs|
    ensures r.Err? ==> r.error == MissingSeries(|chart.series|)
    ensures r.Ok? ==> Normalizes(chart, r.value) && WellFormed(r.value)
  {
    var configs: seq<SeriesConfig> := chart.seriesConfigs;
    var seriesData: seq<seq<RawPoint>> := chart.series;
    var names: seq<string> := [];
    var colors: seq<string> := [];
    var sequences: seq<seq<Point>> := [];

    var idx := 0;
    while idx < |configs|
      invariant idx <= |configs| && idx <= |seriesData|
      invariant |names| == |colors| == |sequences| == idx
      invariant forall i :: 0 <= i < idx ==>
        names[i] == DisplayName(configs[i]) && colors[i] == configs[i].color
      invariant forall i :: 0 <= i < idx ==> |sequences[i]| == |seriesData[i]|
      invariant forall i, k :: 0 <= i < idx && 0 <= k < |sequences[i]| ==>
        sequences[i][k] == Point(seriesData[i][k].y, seriesData[i][k].date)
    {
      var seriesConfig := configs[idx];
      var name := if seriesConfig.nameEn != "" then seriesConfig.nameEn else seriesConfig.nameTc;
      var color := seriesConfig.color;
      if idx >= |seriesData| {
        return Err(MissingSeries(idx));
      }
      var data: seq<RawPoint> := seriesData[idx];
      names := names + [name];
      colors := colors + [color];
      var sequence := seq(|data|, k requires 0 <= k < |data| => Point(data[k].y, data[k].date));
      sequences := sequences + [sequence];
      idx := idx + 1;
    }

    // The set of all dates, in insertion order.
    var allDates: seq<Date> := [];
    var i := 0;
    while i < |sequences|
      invariant i <= |sequences|
      invariant Distinct(allDates)
      invariant forall x :: x in allDates <==> SeenBefore(sequences, i, 0, x)
    {
      var sequence := sequences[i];
      var k := 0;
      while k < |sequence|
        invariant k <= |sequence|
        invariant Distinct(allDates)
        invariant forall x :: x in allDates <==> SeenBefore(sequences, i, k, x)
      {
        SeenStep(sequences, i, k);
        if sequence[k].date !in allDates {
          allDates := allDates + [sequence[k].date];
        }
        k := k + 1;
      }
      SeenNextSequence(sequences, i);
      i := i + 1;
    }
    SeenAll(sequences);

    var sortedDates := SortDates(allDates);
    r := Ok(BarRaceData(names, colors, sequences, sortedDates));
  }

  /**
   * A payload determines its dataset: the names, colours and sequences
   * entry by entry, and the timeline as the one ascending sequence of its
   * dates.
   */
  lemma NormalizesUnique(chart: ChartData, d1: BarRaceData, d2: BarRaceData)
    requires Normalizes(chart, d1) && WellFormed(d1)
    requires Normalizes(chart, d2) && WellFormed(d2)
    ensures d1 == d2
  {
    assert |d1.sequences| == |d2.sequences|;
    forall i | 0 <= i < |d1.sequences|
      ensures d1.sequences[i] == d2.sequences[i]
    {
      assert |d1.sequences[i]| == |d2.sequences[i]|;
      assert forall k :: 0 <= k < |d1.sequences[i]| ==> d1.sequences[i][k] == d2.sequences[i][k];
    }
    assert d1.sequences == d2.sequences;
    assert d1.names == d2.names;
    assert d1.colors == d2.colors;
    StrictlyIncreasingUnique(d1.dates, d2.dates);
  }
}
