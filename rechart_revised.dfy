/** The zoom/brush interaction of the revised Recharts chart. The drag ends are
    chart labels (timestamps) with `''` for "unset"; the committed zoom is
    `{left, right, top, bottom}` or null. */
module RechartRevised {
  import opened Wrappers
  import opened StoreTypes
  import opened ZoomDomain
  import ChartOptions

  /** A drag end: a timestamp label, or the empty-string sentinel. */
  datatype Label = Unset | At(t: int)

  /** `e?.activeLabel || ''`: a missing label and the (falsy) label 0 both
      give the sentinel. */
  function LabelOf(activeLabel: Option<int>): (l: Label)
    ensures l.At? <==> activeLabel.Some? && activeLabel.value != 0
    ensures l.At? ==> l.t == activeLabel.value
  {
    if activeLabel.Some? && activeLabel.value != 0 then At(activeLabel.value) else Unset
  }

  /** `Number(label)`; `Number('')` is 0. JavaScript also reads `''` as 0 when
      it is compared with a number. */
  function NumberOf(l: Label): int {
    if l.At? then l.t else 0
  }

  datatype ZoomState = ZoomState(refAreaLeft: Label, refAreaRight: Label, zoomConstraints: Option<ZoomBox>)

  const Initial: ZoomState := ZoomState(Unset, Unset, None)

  /** No drag end holds the falsy label 0, and a committed zoom is well formed. */
  predicate Valid(s: ZoomState) {
    && s.refAreaLeft != At(0) && s.refAreaRight != At(0)
    && (s.zoomConstraints.Some? ==> WellFormed(s.zoomConstraints.value))
  }

  /** Mouse-down sets the left end. */
  function MouseDown(s: ZoomState, activeLabel: Option<int>): (r: ZoomState)
    ensures Valid(s) ==> Valid(r)
    ensures r.refAreaLeft == LabelOf(activeLabel)
    ensures r.refAreaRight == s.refAreaRight && r.zoomConstraints == s.zoomConstraints
  {
    s.(refAreaLeft := LabelOf(activeLabel))
  }

  /** Mouse-move updates the right end, but only while a left end is set. */
  function MouseMove(s: ZoomState, activeLabel: Option<int>): (r: ZoomState)
    ensures Valid(s) ==> Valid(r)
    ensures s.refAreaLeft.At? ==> r == s.(refAreaRight := LabelOf(activeLabel))
    ensures s.refAreaLeft.Unset? ==> r == s
  {
    if s.refAreaLeft.At? then s.(refAreaRight := LabelOf(activeLabel)) else s
  }

  /** The release guard: the right end is unset, or the left end is not
      strictly before it. */
  predicate Rejects(s: ZoomState): (b: bool)
    ensures !b <==> s.refAreaRight.At? && NumberOf(s.refAreaLeft) < NumberOf(s.refAreaRight)
  {
    s.refAreaRight.Unset? || NumberOf(s.refAreaLeft) >= NumberOf(s.refAreaRight)
  }

  /** `zoom`, on mouse-up over the in-range samples. A rejected drag clears
      both ends and keeps the zoom; an accepted one commits the dragged range
      with the value extent inside it, padded by 20 on each side. The swap of
      the source is kept; past the guard it never fires. */
  function Zoom(s: ZoomState, samples: seq<Sample>): (r: ZoomState)
    ensures Valid(s) ==> Valid(r)
    ensures r.refAreaLeft == Unset && r.refAreaRight == Unset
    ensures Rejects(s) ==> r.zoomConstraints == s.zoomConstraints
    ensures !Rejects(s) ==> r.zoomConstraints.Some? && WellFormed(r.zoomConstraints.value)
    ensures !Rejects(s) ==> var z := r.zoomConstraints.value;
      && z.left == NumberOf(s.refAreaLeft) as real && z.right == NumberOf(s.refAreaRight) as real
      && (z.bottom, z.top) == (AxisYDomain(samples, z.left, z.right).0 - ZOOM_PADDING,
                               AxisYDomain(samples, z.left, z.right).1 + ZOOM_PADDING)
  {
    if Rejects(s) then ZoomState(Unset, Unset, s.zoomConstraints)
    else
      var (refLeft, refRight) :=
        if NumberOf(s.refAreaLeft) > NumberOf(s.refAreaRight) then (s.refAreaRight, s.refAreaLeft)
        else (s.refAreaLeft, s.refAreaRight);
      var z := Commit(samples, NumberOf(refLeft) as real, NumberOf(refRight) as real,
                      NumberOf(s.refAreaLeft) as real, NumberOf(s.refAreaRight) as real);
      ZoomState(Unset, Unset, Some(z))
  }

  /** `zoomOut` clears the drag and the zoom. */
  function ZoomOut(s: ZoomState): (r: ZoomState)
    ensures r == Initial && Valid(r)
  {
    ZoomState(Unset, Unset, None)
  }

  /** The x-axis domain: the zoomed range, else the pipeline's domain. */
  function XDomain(s: ZoomState, domain: (int, int)): (d: (real, real))
    ensures s.zoomConstraints.Some? ==> d == (s.zoomConstraints.value.left, s.zoomConstraints.value.right)
    ensures s.zoomConstraints.None? ==> d == (domain.0 as real, domain.1 as real)
  {
    if s.zoomConstraints.Some? then (s.zoomConstraints.value.left, s.zoomConstraints.value.right)
    else (domain.0 as real, domain.1 as real)
  }

  /** The y-axis domain: the zoomed value range, else `[Y_MIN, Y_MAX]`. */
  function YDomain(s: ZoomState): (d: (real, real))
    ensures Valid(s) ==> d.0 < d.1
    ensures s.zoomConstraints.Some? ==> d == (s.zoomConstraints.value.bottom, s.zoomConstraints.value.top)
    ensures s.zoomConstraints.None? ==> d == (ChartOptions.Y_MIN, ChartOptions.Y_MAX)
  {
    if s.zoomConstraints.Some? then (s.zoomConstraints.value.bottom, s.zoomConstraints.value.top)
    else (ChartOptions.Y_MIN, ChartOptions.Y_MAX)
  }

  /** The selection rectangle is drawn while both ends are set. */
  predicate ShowsReferenceArea(s: ZoomState): (b: bool)
    ensures Valid(s) ==> (b <==> NumberOf(s.refAreaLeft) != 0 && NumberOf(s.refAreaRight) != 0)
  {
    s.refAreaLeft.At? && s.refAreaRight.At?
  }

  /** A release with equal or inverted ends is discarded: both ends clear and
      an existing zoom stays as it was. */
  lemma InvalidReleaseDiscarded(z: Option<ZoomBox>, t: int, u: int, samples: seq<Sample>)
    requires t >= u && u != 0
    ensures Zoom(ZoomState(At(t), At(u), z), samples) == ZoomState(Unset, Unset, z)
    ensures Zoom(ZoomState(At(t), Unset, z), samples) == ZoomState(Unset, Unset, z)
  {
  }

  /** The dead swap: past the guard the left end is already strictly before
      the right one, so the committed range is the dragged range as is. */
  lemma {:induction false} SwapIsDead(s: ZoomState)
    requires !Rejects(s)
    ensures NumberOf(s.refAreaLeft) < NumberOf(s.refAreaRight)
    ensures s.refAreaRight.At?
  {
  }

  /** Samples (0,100), (1000,200), (2000,300) and a drag over [500, 1500]
      commit the value range [180, 220]: only the sample at 1000 is inside. */
  lemma {:induction false} CommitExample()
    ensures var samples := [Sample(0, 100.0), Sample(1000, 200.0), Sample(2000, 300.0)];
      Zoom(ZoomState(At(500), At(1500), None), samples).zoomConstraints
        == Some(ZoomBox(500.0, 1500.0, 220.0, 180.0))
  {
    var samples := [Sample(0, 100.0), Sample(1000, 200.0), Sample(2000, 300.0)];
    assert Between(samples, 500.0, 1500.0) == [Sample(1000, 200.0)] by {
      assert samples[1..][1..] == [Sample(2000, 300.0)];
      assert samples[1..][1..][1..] == [];
    }
  }

  /** As written, a release whose left end is unset but whose right end was
      left over from a drag released outside the chart is not discarded: the
      unset end reads as 0 and the zoom spans `[0, right]`. */
  lemma {:induction false} UnsetLeftReadsAsZero(t: int, z: Option<ZoomBox>, samples: seq<Sample>)
    requires t > 0
    ensures var r := Zoom(ZoomState(Unset, At(t), z), samples);
      r.zoomConstraints.Some? && r.zoomConstraints.value.left == 0.0
      && r.zoomConstraints.value.right == t as real
  {
  }

  /** The reference area follows the drag: after a mouse-down and a move it
      is drawn exactly when both gave a label; a release (accepted or not)
      and a zoom-out always hide it. */
  lemma ReferenceAreaFollowsDrag(s: ZoomState, a: Option<int>, b: Option<int>, samples: seq<Sample>)
    ensures ShowsReferenceArea(MouseMove(MouseDown(s, a), b)) <==> LabelOf(a).At? && LabelOf(b).At?
    ensures !ShowsReferenceArea(Zoom(s, samples)) && !ShowsReferenceArea(ZoomOut(s))
  {
  }

  /** Zooming out twice is the same as zooming out once. */
  lemma ZoomOutIdempotent(s: ZoomState)
    ensures ZoomOut(ZoomOut(s)) == ZoomOut(s)
  {
  }

  /** The chart's three state cells, updated by its event handlers. */
  class RechartRevisedChart {
    var refAreaLeft: Label
    var refAreaRight: Label
    var zoomConstraints: Option<ZoomBox>

    function State(): ZoomState
      reads this
    {
      ZoomState(refAreaLeft, refAreaRight, zoomConstraints)
    }

    predicate ValidChart()
      reads this
    {
      Valid(State())
    }

    constructor ()
      ensures State() == Initial && ValidChart()
    {
      refAreaLeft, refAreaRight, zoomConstraints := Unset, Unset, None;
    }

    method OnMouseDown(activeLabel: Option<int>)
      requires ValidChart()
      modifies this
      ensures ValidChart()
      ensures State() == MouseDown(old(State()), activeLabel)
    {
      refAreaLeft := LabelOf(activeLabel);
    }

    method OnMouseMove(activeLabel: Option<int>)
      requires ValidChart()
      modifies this
      ensures ValidChart()
      ensures State() == MouseMove(old(State()), activeLabel)
    {
      if refAreaLeft.At? {
        refAreaRight := LabelOf(activeLabel);
      }
    }

    /** `zoom`, bound to mouse-up; `samples` is the chart's in-range list. */
    method OnMouseUp(samples: seq<Sample>)
      requires ValidChart()
      modifies this
      ensures ValidChart()
      ensures State() == Zoom(old(State()), samples)
    {
      var refLeft, refRight := refAreaLeft, refAreaRight;
      if refRight.Unset? || NumberOf(refLeft) >= NumberOf(refRight) {
        refAreaLeft := Unset;
        refAreaRight := Unset;
        return;
      }
      if NumberOf(refLeft) > NumberOf(refRight) {
        refLeft, refRight := refRight, refLeft;
      }
      var fromX, toX := NumberOf(refAreaLeft) as real, NumberOf(refAreaRight) as real;
      var (bottom, top) := AxisYDomain(samples, fromX, toX);
      var z := ZoomBox(NumberOf(refLeft) as real, NumberOf(refRight) as real, top + ZOOM_PADDING, bottom - ZOOM_PADDING);
      assert z == Commit(samples, NumberOf(refLeft) as real, NumberOf(refRight) as real, fromX, toX);
      refAreaLeft := Unset;
      refAreaRight := Unset;
      zoomConstraints := Some(z);
    }

    method OnZoomOut()
      modifies this
      ensures State() == Initial && ValidChart()
    {
      refAreaLeft := Unset;
      refAreaRight := Unset;
      zoomConstraints := None;
    }
  }
}
