/** The data shaping of the Apex chart: on each new in-range list the series
    becomes its points sorted by time, capped to the most recent `MAX_READS`;
    an empty list leaves the previous series in place. */
module ApexChart {
  import opened Wrappers
  import opened StoreTypes
  import ArraySort
  import ChartOptions
  import Utils

  datatype RealPowerDatum = RealPowerDatum(x: int, y: real)

  datatype ApexSerie = ApexSerie(name: string, data: seq<RealPowerDatum>)

  const VoidChartData: ApexSerie := ApexSerie("Real Power", [])

  function XOf(d: RealPowerDatum): int { d.x }

  function ToDatum(s: Sample): RealPowerDatum { RealPowerDatum(s.timestamp, s.value) }

  predicate SortedByX(s: seq<RealPowerDatum>) {
    forall i, j :: 0 <= i < j < |s| ==> s[i].x <= s[j].x
  }

  /** The points of the in-range samples: `x` the timestamp, `y` the value. */
  function Points(samples: seq<Sample>): (r: seq<RealPowerDatum>)
    ensures |r| == |samples|
    ensures forall i :: 0 <= i < |samples| ==> r[i] == RealPowerDatum(samples[i].timestamp, samples[i].value)
  {
    seq(|samples|, i requires 0 <= i < |samples| => ToDatum(samples[i]))
  }

  function Min(a: int, b: int): int { if a <= b then a else b }

  /** `kept` is what the series keeps of `all`: sorted by x, at most
      `MAX_READS` long, drawn from `all`, and no point left out is later than
      a point kept. */
  predicate IsMostRecent(kept: seq<RealPowerDatum>, all: seq<RealPowerDatum>) {
    && SortedByX(kept)
    && |kept| == Min(|all|, ChartOptions.MAX_READS)
    && multiset(kept) <= multiset(all)
    && forall d, k :: d in multiset(all) - multiset(kept) && k in kept ==> d.x <= k.x
  }

  /** A suffix of a sorted list holds its latest points: whatever precedes it
      is no later than anything in it. */
  lemma {:induction false} SortedSuffixIsLatest(full: seq<RealPowerDatum>, start: nat)
    requires SortedByX(full) && start <= |full|
    ensures multiset(full[start..]) <= multiset(full)
    ensures forall d, k :: d in multiset(full) - multiset(full[start..]) && k in full[start..] ==> d.x <= k.x
  {
    assert full == full[..start] + full[start..];
    assert multiset(full) == multiset(full[..start]) + multiset(full[start..]);
    forall d, k | d in multiset(full) - multiset(full[start..]) && k in full[start..]
      ensures d.x <= k.x
    {
      assert d in multiset(full[..start]);
      var i :| 0 <= i < start && full[i] == d;
      var j :| start <= j < |full| && full[j] == k;
    }
  }

  /** The points sorted by x in a fresh array; the points themselves are a
      value and stay as they were. */
  method SortedCopy(points: seq<RealPowerDatum>) returns (sorted: seq<RealPowerDatum>, ghost perm: seq<int>)
    ensures SortedByX(sorted) && multiset(sorted) == multiset(points)
    ensures ArraySort.StablePermutation(sorted, points, perm, XOf)
  {
    var data := new RealPowerDatum[|points|](i requires 0 <= i < |points| => points[i]);
    assert data[..] == points;
    perm := ArraySort.SortBy(data, XOf);
    sorted := data[..];
    assert ArraySort.SortedBy(sorted, XOf);
  }

  /** Sorts the points by x and keeps the last `MAX_READS` of them. The sort
      is stable, so among points with equal x the ones later in `points` are
      the ones kept. */
  method MostRecentSorted(points: seq<RealPowerDatum>)
      returns (kept: seq<RealPowerDatum>, ghost full: seq<RealPowerDatum>, ghost perm: seq<int>)
    ensures IsMostRecent(kept, points)
    ensures ArraySort.SortedBy(full, XOf) && ArraySort.StablePermutation(full, points, perm, XOf)
    ensures |kept| <= |full| && kept == full[|full| - |kept|..]
  {
    var sorted;
    sorted, perm := SortedCopy(points);
    var start := if |sorted| > ChartOptions.MAX_READS then |sorted| - ChartOptions.MAX_READS else 0;
    SortedSuffixIsLatest(sorted, start);
    kept := sorted[start..];
    full := sorted;
  }

  /** The x-axis title: the same text as `formatLatestTime`, "Last {r/60}
      Minutes" when `r` divides by 60, else "Last {r} Seconds". */
  function XAxisTitle(xRange: int): (t: string)
    ensures Utils.ParseLatestTime(t) == Some(xRange)
    ensures t[..5] == "Last "
    ensures xRange % 60 == 0 <==> t[|t| - |Utils.MINUTES|..] == Utils.MINUTES
    ensures t == Utils.FormatLatestTime(xRange)
  {
    Utils.LatestTimeRoundTrip(xRange);
    Utils.FormatLatestTime(xRange)
  }

  /** The chart's `series` state cell and the effect that refreshes it. */
  class ApexChartView {
    var series: ApexSerie

    constructor ()
      ensures series == VoidChartData
    {
      series := VoidChartData;
    }

    /** The effect run when the in-range list changes. */
    method OnSamplesChanged(realPowerSamples: seq<Sample>)
      modifies this
      ensures |realPowerSamples| == 0 ==> series == old(series)
      ensures |realPowerSamples| > 0 ==>
        series.name == old(series.name) && IsMostRecent(series.data, Points(realPowerSamples))
    {
      if |realPowerSamples| == 0 {
        return;
      }
      var kept, full, perm := MostRecentSorted(Points(realPowerSamples));
      series := series.(data := kept);
    }
  }
}
