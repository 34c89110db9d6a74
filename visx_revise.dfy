/** The zoom/brush interaction of the revised visx chart. The drag ends are
    pixel positions with -1 for "unset"; on release they are converted to
    timestamps by the time scale's `invert`, which this model takes as a
    parameter. The zoomed scales are kept as their domains. */
module VisxRevise {
  import opened Wrappers
  import opened StoreTypes
  import opened ZoomDomain
  import ChartOptions

  /** The sentinel of an unset drag end. */
  const UNSET: int := -1

  datatype ZoomState = ZoomState(
    refAreaLeft: int,
    refAreaRight: int,
    zoomConstraints: Option<ZoomBox>,
    xScaleZoomed: Option<(real, real)>,
    yScaleZoomed: Option<(real, real)>)

  const Initial: ZoomState := ZoomState(UNSET, UNSET, None, None, None)

  /** A committed zoom is well formed and the zoomed scales span it. */
  predicate Valid(s: ZoomState) {
    s.zoomConstraints.Some? ==>
      var z := s.zoomConstraints.value;
      && WellFormed(z)
      && s.xScaleZoomed == Some((z.left, z.right))
      && s.yScaleZoomed == Some((z.bottom, z.top))
  }

  /** Mouse-down sets the left end to `clientX || 0`. */
  function MouseDown(s: ZoomState, clientX: Option<int>): (r: ZoomState)
    ensures Valid(s) ==> Valid(r)
    ensures r.refAreaLeft == clientX.GetOr(0) && r == s.(refAreaLeft := r.refAreaLeft)
  {
    s.(refAreaLeft := clientX.GetOr(0))
  }

  /** Mouse-move sets the right end, only while the left end is not -1. */
  function MouseMove(s: ZoomState, clientX: Option<int>): (r: ZoomState)
    ensures Valid(s) ==> Valid(r)
    ensures s.refAreaLeft != UNSET ==> r == s.(refAreaRight := clientX.GetOr(0))
    ensures s.refAreaLeft == UNSET ==> r == s
  {
    if s.refAreaLeft != UNSET then s.(refAreaRight := clientX.GetOr(0)) else s
  }

  /** The release guard, on the inverted positions: the left time is not
      strictly before the right time, or the right time equals -1. */
  predicate Rejects(s: ZoomState, invert: int -> real): (b: bool)
    ensures !b <==> invert(s.refAreaLeft) < invert(s.refAreaRight) && invert(s.refAreaRight) != UNSET as real
  {
    invert(s.refAreaLeft) >= invert(s.refAreaRight) || invert(s.refAreaRight) == UNSET as real
  }

  /** What a release does past the guard, given the range over which the
      value extent is taken. */
  function Release(s: ZoomState, samples: seq<Sample>, invert: int -> real, fromX: real, toX: real): (r: ZoomState)
    ensures Valid(s) ==> Valid(r)
    ensures r.refAreaLeft == UNSET && r.refAreaRight == UNSET
    ensures Rejects(s, invert) ==> r == s.(refAreaLeft := UNSET, refAreaRight := UNSET)
    ensures !Rejects(s, invert) ==>
      r.zoomConstraints == Some(Commit(samples, invert(s.refAreaLeft), invert(s.refAreaRight), fromX, toX))
  {
    if Rejects(s, invert) then s.(refAreaLeft := UNSET, refAreaRight := UNSET)
    else
      var refLeft, refRight := invert(s.refAreaLeft), invert(s.refAreaRight);
      var lo := if refLeft > refRight then refRight else refLeft;
      var hi := if refLeft > refRight then refLeft else refRight;
      assert lo == refLeft && hi == refRight;
      var z := Commit(samples, lo, hi, fromX, toX);
      ZoomState(UNSET, UNSET, Some(z), Some((lo, hi)), Some((z.bottom, z.top)))
  }

  /** `zoom` as written: the value extent is taken over the raw pixel
      positions, compared with sample timestamps. */
  function ZoomAsWritten(s: ZoomState, samples: seq<Sample>, invert: int -> real): (r: ZoomState)
    ensures Valid(s) ==> Valid(r)
    ensures r.refAreaLeft == UNSET && r.refAreaRight == UNSET
    ensures !Rejects(s, invert) ==>
      && r.zoomConstraints.Some?
      && (r.zoomConstraints.value.bottom + ZOOM_PADDING, r.zoomConstraints.value.top - ZOOM_PADDING)
         == AxisYDomain(samples, s.refAreaLeft as real, s.refAreaRight as real)
  {
    Release(s, samples, invert, s.refAreaLeft as real, s.refAreaRight as real)
  }

  /** `zoom`, with the value extent taken over the selected time range. A
      rejected drag resets both ends to -1 and keeps the zoom; an accepted one
      commits `[invert(left), invert(right)]` and the padded value extent of
      the samples inside it. */
  function Zoom(s: ZoomState, samples: seq<Sample>, invert: int -> real): (r: ZoomState)
    ensures Valid(s) ==> Valid(r)
    ensures r.refAreaLeft == UNSET && r.refAreaRight == UNSET
    ensures Rejects(s, invert) ==> r == s.(refAreaLeft := UNSET, refAreaRight := UNSET)
    ensures !Rejects(s, invert) ==> r.zoomConstraints.Some? && WellFormed(r.zoomConstraints.value)
    ensures !Rejects(s, invert) ==> var z := r.zoomConstraints.value;
      && z.left == invert(s.refAreaLeft) && z.right == invert(s.refAreaRight)
      && (z.bottom + ZOOM_PADDING, z.top - ZOOM_PADDING) == AxisYDomain(samples, z.left, z.right)
  {
    Release(s, samples, invert, invert(s.refAreaLeft), invert(s.refAreaRight))
  }

  /** `zoomOut` resets both ends to -1 and the zoom to null; the zoomed
      scale cells keep their last value. */
  function ZoomOut(s: ZoomState): (r: ZoomState)
    ensures Valid(r)
    ensures r.refAreaLeft == UNSET && r.refAreaRight == UNSET && r.zoomConstraints.None?
    ensures r.xScaleZoomed == s.xScaleZoomed && r.yScaleZoomed == s.yScaleZoomed
  {
    s.(refAreaLeft := UNSET, refAreaRight := UNSET, zoomConstraints := None)
  }

  /** The plotted data: while zoomed, the in-range samples inside the zoomed
      time range, in order; otherwise all of them. */
  function ZoomedData(s: ZoomState, samples: seq<Sample>): (r: seq<Sample>)
    ensures s.zoomConstraints.None? ==> r == samples
    ensures s.zoomConstraints.Some? ==> forall x :: x in r <==>
      x in samples && s.zoomConstraints.value.left <= x.timestamp as real <= s.zoomConstraints.value.right
  {
    if s.zoomConstraints.Some? then Between(samples, s.zoomConstraints.value.left, s.zoomConstraints.value.right)
    else samples
  }

  /** The value axis: the zoomed scale while a zoom is set, else the default. */
  function YAxisDomain(s: ZoomState): (d: (real, real))
    ensures Valid(s) ==> d.0 < d.1
    ensures Valid(s) && s.zoomConstraints.Some? ==>
      d == (s.zoomConstraints.value.bottom, s.zoomConstraints.value.top)
    ensures s.zoomConstraints.None? ==> d == (ChartOptions.Y_MIN, ChartOptions.Y_MAX)
  {
    if s.zoomConstraints.Some? && s.yScaleZoomed.Some? then s.yScaleZoomed.value
    else (ChartOptions.Y_MIN, ChartOptions.Y_MAX)
  }

  /** The selection rectangle is drawn only while both ends are set and the
      right end is past the left one. */
  predicate ShowsSelection(s: ZoomState): (b: bool)
    ensures b <==> s.refAreaLeft != UNSET && s.refAreaRight != UNSET && s.refAreaRight - s.refAreaLeft > 0
  {
    s.refAreaLeft != UNSET && s.refAreaRight != UNSET && s.refAreaRight > s.refAreaLeft
  }

  /** The selection rectangle follows the drag: after a mouse-down at a set
      position and a move, it is drawn exactly when the move lands right of
      the start; a release (accepted or not) and a zoom-out always hide it. */
  lemma SelectionFollowsDrag(s: ZoomState, a: Option<int>, b: Option<int>, samples: seq<Sample>, invert: int -> real)
    ensures a.GetOr(0) != UNSET ==>
      (ShowsSelection(MouseMove(MouseDown(s, a), b)) <==> b.GetOr(0) != UNSET && b.GetOr(0) > a.GetOr(0))
    ensures !ShowsSelection(Zoom(s, samples, invert)) && !ShowsSelection(ZoomAsWritten(s, samples, invert))
    ensures !ShowsSelection(ZoomOut(s))
  {
  }

  /** The swap never fires: past the guard the left time is strictly before
      the right time, and the committed range is `[invert(left), invert(right)]`. */
  lemma {:induction false} SwapIsDead(s: ZoomState, samples: seq<Sample>, invert: int -> real)
    requires !Rejects(s, invert)
    ensures invert(s.refAreaLeft) < invert(s.refAreaRight)
    ensures Zoom(s, samples, invert).xScaleZoomed == Some((invert(s.refAreaLeft), invert(s.refAreaRight)))
  {
  }

  /** The as-written release misses the selection: with epoch timestamps no
      sample lies between two pixel positions, so the committed value range
      is always [-20, 20]. Here a sample of 500 W inside the selected time
      range gives [-20, 20] as written and [480, 520] once the extent is
      taken over the selected times. */
  lemma {:induction false} PixelExtentMissesSelection()
    ensures var samples := [Sample(1_700_000_000_000, 500.0)];
      var invert := (p: int) => 1_699_999_800_000.0 + (p as real) * 1000.0;
      var s := ZoomState(100, 300, None, None, None);
      && ZoomAsWritten(s, samples, invert).zoomConstraints
           == Some(ZoomBox(1_699_999_900_000.0, 1_700_000_100_000.0, 20.0, -20.0))
      && Zoom(s, samples, invert).zoomConstraints
           == Some(ZoomBox(1_699_999_900_000.0, 1_700_000_100_000.0, 520.0, 480.0))
  {
    var samples := [Sample(1_700_000_000_000, 500.0)];
    assert samples[1..] == [];
    assert Between(samples, 100.0, 300.0) == [];
    assert Between(samples, 1_699_999_900_000.0, 1_700_000_100_000.0) == samples;
  }

  /** The chart's state cells, updated by its event handlers. */
  class VisxReviseChart {
    var refAreaLeft: int
    var refAreaRight: int
    var zoomConstraints: Option<ZoomBox>
    var xScaleZoomed: Option<(real, real)>
    var yScaleZoomed: Option<(real, real)>

    function State(): ZoomState
      reads this
    {
      ZoomState(refAreaLeft, refAreaRight, zoomConstraints, xScaleZoomed, yScaleZoomed)
    }

    predicate ValidChart()
      reads this
    {
      Valid(State())
    }

    constructor ()
      ensures State() == Initial && ValidChart()
    {
      refAreaLeft, refAreaRight := UNSET, UNSET;
      zoomConstraints, xScaleZoomed, yScaleZoomed := None, None, None;
    }

    method OnMouseDown(clientX: Option<int>)
      requires ValidChart()
      modifies this
      ensures ValidChart()
      ensures State() == MouseDown(old(State()), clientX)
    {
      refAreaLeft := clientX.GetOr(0);
    }

    method OnMouseMove(clientX: Option<int>)
      requires ValidChart()
      modifies this
      ensures ValidChart()
      ensures State() == MouseMove(old(State()), clientX)
    {
      if refAreaLeft != UNSET {
        refAreaRight := clientX.GetOr(0);
      }
    }

    /** The mouse-up handler with the corrected `zoom`: the value extent is
        taken over the inverted times, not over the raw pixel positions the
        program passes (`ZoomAsWritten`). `samples` is the chart's in-range
        list and `invert` the current time scale's inverse. */
    method OnMouseUp(samples: seq<Sample>, invert: int -> real)
      requires ValidChart()
      modifies this
      ensures ValidChart()
      ensures State() == Zoom(old(State()), samples, invert)
    {
      var refLeft, refRight := invert(refAreaLeft), invert(refAreaRight);
      if refLeft >= refRight || refRight == UNSET as real {
        refAreaLeft := UNSET;
        refAreaRight := UNSET;
        return;
      }
      if refLeft > refRight {
        refLeft, refRight := refRight, refLeft;
      }
      var (bottom, top) := AxisYDomain(samples, refLeft, refRight);
      refAreaLeft := UNSET;
      refAreaRight := UNSET;
      zoomConstraints := Some(ZoomBox(refLeft, refRight, top + ZOOM_PADDING, bottom - ZOOM_PADDING));
      xScaleZoomed := Some((refLeft, refRight));
      yScaleZoomed := Some((bottom - ZOOM_PADDING, top + ZOOM_PADDING));
    }

    method OnZoomOut()
      requires ValidChart()
      modifies this
      ensures ValidChart()
      ensures State() == ZoomOut(old(State()))
    {
      refAreaLeft := UNSET;
      refAreaRight := UNSET;
      zoomConstraints := None;
    }
  }
}
