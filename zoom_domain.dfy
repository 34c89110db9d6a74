/** What the two zoomable charts share: the committed zoom record, the filter
    of samples inside a time sub-range, and the value extent over it
    (`getAxisYDomain`, written identically in both charts). */
module ZoomDomain {
  import opened StoreTypes

  /** A committed zoom: the time sub-range and the padded value range. */
  datatype ZoomBox = ZoomBox(left: real, right: real, top: real, bottom: real)

  /** The margin added above and below the value extent. */
  const ZOOM_PADDING: real := 20.0

  /** What every zoom that gets committed satisfies: a proper time range and
      a value range at least twice the padding tall. */
  predicate WellFormed(z: ZoomBox) {
    z.left < z.right && z.top - z.bottom >= 2.0 * ZOOM_PADDING
  }

  /** The samples whose timestamp lies in `[fromX, toX]`, both ends included,
      in their original order. */
  function Between(samples: seq<Sample>, fromX: real, toX: real): (r: seq<Sample>)
    ensures |r| <= |samples|
    ensures forall x :: x in r <==> x in samples && fromX <= x.timestamp as real <= toX
    decreases |samples|
  {
    if samples == [] then []
    else
      var rest := Between(samples[1..], fromX, toX);
      assert samples == [samples[0]] + samples[1..];
      if fromX <= samples[0].timestamp as real <= toX then [samples[0]] + rest else rest
  }

  /** Every sample inside the range is kept as many times as it occurs, and
      none outside it is kept. */
  lemma {:induction false} BetweenCounts(samples: seq<Sample>, fromX: real, toX: real)
    ensures forall x :: multiset(Between(samples, fromX, toX))[x] == if fromX <= x.timestamp as real <= toX then multiset(samples)[x] else 0
    decreases |samples|
  {
    if samples != [] {
      BetweenCounts(samples[1..], fromX, toX);
      assert samples == [samples[0]] + samples[1..];
      assert multiset(samples) == multiset([samples[0]]) + multiset(samples[1..]);
    }
  }

  /** The filter works sample by sample, in order: filtering a concatenation
      is concatenating the filtered parts, and a single sample is kept exactly
      when its timestamp is inside the range. */
  lemma {:induction false} BetweenConcat(a: seq<Sample>, b: seq<Sample>, fromX: real, toX: real)
    ensures Between(a + b, fromX, toX) == Between(a, fromX, toX) + Between(b, fromX, toX)
    decreases |a|
  {
    if a == [] {
      assert a + b == b;
    } else {
      assert (a + b)[0] == a[0] && (a + b)[1..] == a[1..] + b;
      BetweenConcat(a[1..], b, fromX, toX);
    }
  }

  lemma BetweenSingle(x: Sample, fromX: real, toX: real)
    ensures Between([x], fromX, toX) == if fromX <= x.timestamp as real <= toX then [x] else []
  {
  }

  function MinValue(s: seq<Sample>): (m: real)
    requires |s| > 0
    ensures exists i :: 0 <= i < |s| && s[i].value == m
    ensures forall i :: 0 <= i < |s| ==> m <= s[i].value
    decreases |s|
  {
    if |s| == 1 then s[0].value
    else
      var m := MinValue(s[1..]);
      assert forall i :: 1 <= i < |s| ==> s[i] == s[1..][i - 1];
      if s[0].value <= m then s[0].value else m
  }

  function MaxValue(s: seq<Sample>): (m: real)
    requires |s| > 0
    ensures exists i :: 0 <= i < |s| && s[i].value == m
    ensures forall i :: 0 <= i < |s| ==> s[i].value <= m
    decreases |s|
  {
    if |s| == 1 then s[0].value
    else
      var m := MaxValue(s[1..]);
      assert forall i :: 1 <= i < |s| ==> s[i] == s[1..][i - 1];
      if s[0].value >= m then s[0].value else m
  }

  /** `getAxisYDomain`: `[min, max]` of the values of the samples inside
      `[fromX, toX]`, or `[0, 0]` when none is. */
  function AxisYDomain(samples: seq<Sample>, fromX: real, toX: real): (d: (real, real))
    ensures d.0 <= d.1
    ensures Between(samples, fromX, toX) == [] ==> d == (0.0, 0.0)
    ensures forall x :: x in samples && fromX <= x.timestamp as real <= toX ==> d.0 <= x.value <= d.1
    ensures Between(samples, fromX, toX) != [] ==>
      (exists x :: x in samples && fromX <= x.timestamp as real <= toX && x.value == d.0)
      && (exists x :: x in samples && fromX <= x.timestamp as real <= toX && x.value == d.1)
  {
    var inside := Between(samples, fromX, toX);
    if inside == [] then (0.0, 0.0)
    else
      var lo, hi := MinValue(inside), MaxValue(inside);
      assert forall x :: x in inside ==> lo <= x.value <= hi by {
        forall x | x in inside ensures lo <= x.value <= hi {
          var k :| 0 <= k < |inside| && inside[k] == x;
        }
      }
      (lo, hi)
  }

  /** The zoom committed for the time range `[left, right]` when the value
      extent is taken over `[fromX, toX]`. */
  function Commit(samples: seq<Sample>, left: real, right: real, fromX: real, toX: real): (z: ZoomBox)
    ensures z.left == left && z.right == right
    ensures z.top - z.bottom >= 2.0 * ZOOM_PADDING
    ensures (z.bottom + ZOOM_PADDING, z.top - ZOOM_PADDING) == AxisYDomain(samples, fromX, toX)
    ensures forall x :: x in samples && fromX <= x.timestamp as real <= toX ==>
      z.bottom + ZOOM_PADDING <= x.value <= z.top - ZOOM_PADDING
  {
    var d := AxisYDomain(samples, fromX, toX);
    var z := ZoomBox(left, right, d.1 + ZOOM_PADDING, d.0 - ZOOM_PADDING);
    assert z.bottom + ZOOM_PADDING == d.0 && z.top - ZOOM_PADDING == d.1;
    z
  }
}
