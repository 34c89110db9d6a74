/** The windowing pipeline: sort the stored log by timestamp (in place), keep
    the samples inside the look-back window, and derive the time-axis domain. */
module SamplesSelector {
  import opened StoreTypes
  import ArraySort

  function TimestampOf(s: Sample): int { s.timestamp }

  predicate SortedByTime(s: seq<Sample>) {
    forall i, j :: 0 <= i < j < |s| ==> s[i].timestamp <= s[j].timestamp
  }

  /** The oldest timestamp still inside a window of `timeRange` seconds
      ending at `now`. */
  function WindowStart(timeRange: int, now: int): int {
    now - timeRange * 1000
  }

  /** `selectSamplesSorted`: the stored log itself is reordered, ascending by
      timestamp, and keeps exactly its samples; samples with equal
      timestamps keep their relative order. */
  method SelectSamplesSorted(log: array<Sample>) returns (ghost perm: seq<int>)
    modifies log
    ensures SortedByTime(log[..])
    ensures multiset(log[..]) == old(multiset(log[..]))
    ensures ArraySort.StablePermutation(log[..], old(log[..]), perm, TimestampOf)
  {
    perm := ArraySort.SortBy(log, TimestampOf);
    assert ArraySort.SortedBy(log[..], TimestampOf);
  }

  /** The filter of `selectSamplesInRange`: the samples at or after the
      window start, in their original order. */
  function InRange(samples: seq<Sample>, timeRange: int, now: int): (r: seq<Sample>)
    ensures |r| <= |samples| && multiset(r) <= multiset(samples)
    ensures forall x :: x in r <==> x in samples && x.timestamp >= WindowStart(timeRange, now)
    decreases |samples|
  {
    if samples == [] then []
    else
      var rest := InRange(samples[1..], timeRange, now);
      assert samples == [samples[0]] + samples[1..];
      if samples[0].timestamp >= WindowStart(timeRange, now) then [samples[0]] + rest else rest
  }

  /** Every sample inside the window is kept as many times as it occurs, and
      none outside it is kept. */
  lemma {:induction false} InRangeCounts(samples: seq<Sample>, timeRange: int, now: int)
    ensures forall x :: multiset(InRange(samples, timeRange, now))[x] == if x.timestamp >= WindowStart(timeRange, now) then multiset(samples)[x] else 0
    decreases |samples|
  {
    if samples != [] {
      InRangeCounts(samples[1..], timeRange, now);
      assert samples == [samples[0]] + samples[1..];
      assert multiset(samples) == multiset([samples[0]]) + multiset(samples[1..]);
    }
  }

  /** The filter works sample by sample, in order: filtering a concatenation
      is concatenating the filtered parts, and a single sample is kept exactly
      when it is inside the window. */
  lemma {:induction false} InRangeConcat(a: seq<Sample>, b: seq<Sample>, timeRange: int, now: int)
    ensures InRange(a + b, timeRange, now) == InRange(a, timeRange, now) + InRange(b, timeRange, now)
    decreases |a|
  {
    if a == [] {
      assert a + b == b;
    } else {
      assert (a + b)[0] == a[0] && (a + b)[1..] == a[1..] + b;
      InRangeConcat(a[1..], b, timeRange, now);
    }
  }

  lemma InRangeSingle(x: Sample, timeRange: int, now: int)
    ensures InRange([x], timeRange, now) == if x.timestamp >= WindowStart(timeRange, now) then [x] else []
  {
  }

  /** Filtering a sorted log gives a sorted list. */
  lemma {:induction false} InRangeSorted(s: seq<Sample>, timeRange: int, now: int)
    requires SortedByTime(s)
    ensures SortedByTime(InRange(s, timeRange, now))
    decreases |s|
  {
    if s != [] {
      InRangeSorted(s[1..], timeRange, now);
      var rest := InRange(s[1..], timeRange, now);
      forall x | x in rest ensures s[0].timestamp <= x.timestamp {
        var k :| 0 <= k < |s[1..]| && s[1..][k] == x;
        assert s[k + 1] == x;
      }
    }
  }

  /** When every sample is inside the window, the filter keeps them all. */
  lemma {:induction false} InRangeKeepsAll(s: seq<Sample>, timeRange: int, now: int)
    requires forall i :: 0 <= i < |s| ==> s[i].timestamp >= WindowStart(timeRange, now)
    ensures InRange(s, timeRange, now) == s
    decreases |s|
  {
    if s != [] {
      InRangeKeepsAll(s[1..], timeRange, now);
    }
  }

  /** On a sorted log the window is a contiguous suffix: the in-range list is
      the last |r| samples of the sorted log, so it is an order-preserving
      subsequence of it. */
  lemma {:induction false} InRangeOfSortedIsSuffix(s: seq<Sample>, timeRange: int, now: int)
    requires SortedByTime(s)
    ensures var r := InRange(s, timeRange, now); r == s[|s| - |r|..]
    decreases |s|
  {
    if s != [] {
      if s[0].timestamp >= WindowStart(timeRange, now) {
        InRangeKeepsAll(s, timeRange, now);
      } else {
        InRangeOfSortedIsSuffix(s[1..], timeRange, now);
        var r := InRange(s, timeRange, now);
        assert r == InRange(s[1..], timeRange, now);
        assert s[1..][|s| - 1 - |r|..] == s[|s| - |r|..];
      }
    }
  }

  /** The window start itself is inside the window; one millisecond earlier
      is outside, one later is inside. */
  lemma WindowBoundary(timeRange: int, now: int, v: real)
    ensures var b := WindowStart(timeRange, now);
      && InRange([Sample(b, v)], timeRange, now) == [Sample(b, v)]
      && InRange([Sample(b - 1, v)], timeRange, now) == []
      && InRange([Sample(b + 1, v)], timeRange, now) == [Sample(b + 1, v)]
  {
  }

  /** The largest timestamp of a non-empty list (d3's `extent` upper end). */
  function MaxTimestamp(s: seq<Sample>): (m: int)
    requires |s| > 0
    ensures exists i :: 0 <= i < |s| && s[i].timestamp == m
    ensures forall i :: 0 <= i < |s| ==> s[i].timestamp <= m
    decreases |s|
  {
    if |s| == 1 then s[0].timestamp
    else
      var m := MaxTimestamp(s[1..]);
      assert forall i :: 1 <= i < |s| ==> s[i] == s[1..][i - 1];
      if s[0].timestamp >= m then s[0].timestamp else m
  }

  /** `selectSampleDomain`: `[max - range*1000, max]`, where `max` falls back
      to 0 when nothing is in range. */
  function SampleDomain(inRange: seq<Sample>, timeRange: int): (d: (int, int))
    ensures d.1 - d.0 == timeRange * 1000
    ensures inRange == [] ==> d == (-timeRange * 1000, 0)
    ensures inRange != [] ==>
      (exists i :: 0 <= i < |inRange| && inRange[i].timestamp == d.1)
      && forall i :: 0 <= i < |inRange| ==> inRange[i].timestamp <= d.1
  {
    var maxTime := if inRange == [] then 0 else MaxTimestamp(inRange);
    (maxTime - timeRange * 1000, maxTime)
  }

  /** For a sorted, non-empty in-range list the domain ends at its last
      sample. */
  lemma DomainEndsAtLast(inRange: seq<Sample>, timeRange: int)
    requires SortedByTime(inRange) && inRange != []
    ensures SampleDomain(inRange, timeRange).1 == inRange[|inRange| - 1].timestamp
  {
    var d := SampleDomain(inRange, timeRange);
    var i :| 0 <= i < |inRange| && inRange[i].timestamp == d.1;
    assert inRange[i].timestamp <= inRange[|inRange| - 1].timestamp;
  }

  /** The pipeline up to the filter: sorts the stored log in place, then
      keeps the window of the sorted log. */
  method SelectSamplesInRange(log: array<Sample>, timeRange: int, now: int) returns (inRange: seq<Sample>)
    modifies log
    ensures SortedByTime(log[..]) && multiset(log[..]) == old(multiset(log[..]))
    ensures inRange == InRange(log[..], timeRange, now)
    ensures SortedByTime(inRange) && inRange == log[log.Length - |inRange|..]
    ensures forall x :: x in inRange <==> x in old(multiset(log[..])) && x.timestamp >= WindowStart(timeRange, now)
  {
    ghost var perm := SelectSamplesSorted(log);
    inRange := InRange(log[..], timeRange, now);
    InRangeOfSortedIsSuffix(log[..], timeRange, now);
  }

  /** The whole pipeline: the time-axis domain of the window, always
      `range*1000` wide. */
  method SelectSampleDomain(log: array<Sample>, timeRange: int, now: int) returns (domain: (int, int))
    modifies log
    ensures SortedByTime(log[..]) && multiset(log[..]) == old(multiset(log[..]))
    ensures domain == SampleDomain(InRange(log[..], timeRange, now), timeRange)
    ensures domain.1 - domain.0 == timeRange * 1000
  {
    var inRange := SelectSamplesInRange(log, timeRange, now);
    domain := SampleDomain(inRange, timeRange);
  }
}
