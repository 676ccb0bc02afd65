/**
 * The badge's view model and the drag gesture handler that updates it in
 * place. `SharedViewModel` holds the observable animation parameters;
 * `TiltImageView` owns the gesture callbacks, which write those fields one
 * after another. The haptic feedback generator is represented only by the
 * ghost counter `hapticPulses`.
 */
module View {
  import opened Drag

  class SharedViewModel {
    var rotationAngle: real
    var rotationAxis: Axis
    var offsetX: real
    var offsetY: real
    var offsetBadge: real
    var perspective: real
    var startPoint: Point
    var endPoint: Point
    var shadowRadius: real
    var shadowX: real
    var shadowY: real
    var didTriggerHaptic: bool
    var didPassThreshold: bool

    /** The current values of all fields. */
    ghost function State(): ViewState
      reads this
    {
      ViewState(rotationAngle, rotationAxis, offsetX, offsetY, offsetBadge, perspective,
                startPoint, endPoint, shadowRadius, shadowX, shadowY,
                didTriggerHaptic, didPassThreshold)
    }

    ghost predicate Valid()
      reads this
    {
      Invariant(State())
    }

    /** A fresh view model holds the field initialisers. */
    constructor ()
      ensures State() == Rest()
      ensures Valid()
    {
      rotationAngle := 0.0;
      rotationAxis := Axis(0.0, 0.0, 1.0);
      offsetX := 0.0;
      offsetY := 0.0;
      offsetBadge := 0.0;
      perspective := 0.0;
      startPoint := Point(0.0, 1.0);
      endPoint := Point(0.1, 0.9);
      shadowRadius := 20.0;
      shadowX := 0.0;
      shadowY := 20.0;
      didTriggerHaptic := false;
      didPassThreshold := false;
    }
  }

  class TiltImageView {
    const viewModel: SharedViewModel
    /** How many heavy-impact haptic pulses the gesture handler has requested. */
    ghost var hapticPulses: nat

    constructor (viewModel: SharedViewModel)
      ensures this.viewModel == viewModel
      ensures hapticPulses == 0
    {
      this.viewModel := viewModel;
      hapticPulses := 0;
    }

    /**
     * The pull-down branch of the drag-changed callback for the clamped
     * vertical offset `dragFromCenterY`: badge offset and flags become
     * those of `ThresholdGate`, and a pulse is requested exactly when it fires.
     */
    method PullDown(dragFromCenterY: real)
      modifies this`hapticPulses, viewModel
      ensures var g := ThresholdGate(dragFromCenterY, old(viewModel.offsetBadge),
                                     old(viewModel.didPassThreshold), old(viewModel.didTriggerHaptic));
        && viewModel.State() == old(viewModel.State()).(offsetBadge := g.offsetBadge,
             didPassThreshold := g.passed, didTriggerHaptic := g.triggered)
        && hapticPulses == old(hapticPulses) + (if g.fired then 1 else 0)
    {
      if dragFromCenterY > Threshold {
        viewModel.offsetBadge := dragFromCenterY;
        viewModel.didPassThreshold := true;
        if !viewModel.didTriggerHaptic {
          hapticPulses := hapticPulses + 1;
          viewModel.didTriggerHaptic := true;
        }
      } else if viewModel.didPassThreshold {
        viewModel.offsetBadge := Max(dragFromCenterY, 0.0);
      } else {
        viewModel.didTriggerHaptic := false;
      }
    }

    /**
     * The tilt, shine and shadow part of the drag-changed callback, from the
     * drag offsets, the normalised upward drag and the distance.
     */
    method Tilt(dragFromCenterX: real, dragFromCenterY: real, upwardDrag: real, distance: Length)
      requires dragFromCenterY >= MaxUpwardDrag
      modifies viewModel
      ensures viewModel.State() == old(viewModel.State()).(
        rotationAngle := RotationAngle(distance),
        rotationAxis := RotationAxis(dragFromCenterX, dragFromCenterY),
        offsetX := OffsetX(dragFromCenterX),
        offsetY := OffsetY(dragFromCenterY),
        startPoint := ShineStart(upwardDrag),
        endPoint := ShineEnd(upwardDrag),
        shadowRadius := ShadowRadius(distance),
        shadowX := ShadowX(dragFromCenterX),
        shadowY := ShadowY(dragFromCenterY))
    {
      viewModel.rotationAngle := Min(distance * 0.15, 25.0);
      viewModel.rotationAxis := Axis(-dragFromCenterY, dragFromCenterX, 0.0);
      viewModel.offsetX := Max(Min(-dragFromCenterX * 0.05, 10.0), -10.0);
      viewModel.offsetY := Max(Min(-dragFromCenterY * 0.05, 10.0), -10.0);
      viewModel.startPoint := Point(0.8 * upwardDrag, 1.0 - 0.8 * upwardDrag);
      viewModel.endPoint := Point(0.2 + 0.8 * upwardDrag, 0.8 - 0.8 * upwardDrag);

      var shadowRadius := 20.0 + distance / 30.0;
      var shadowX := 1.0 - dragFromCenterX / 20.0;
      var shadowY := Max(1.0 - dragFromCenterY / 3.0, 25.0);
      viewModel.shadowRadius := Min(shadowRadius, 25.0);
      viewModel.shadowX := shadowX;
      viewModel.shadowY := Min(shadowY, 60.0);
    }

    /**
     * The drag-changed callback for a pointer at (x, y) in local
     * coordinates; `distance` is the length of the clamped drag vector.
     * The new view-model state is `Changed` of the old one, every visual
     * field lands within its clamp, and one pulse is added exactly when the
     * sample goes beyond the threshold with the haptic armed.
     */
    method OnChanged(x: real, y: real, distance: real)
      requires distance >= 0.0
      requires IsDistance(Sample(x, y, distance))
      requires viewModel.Valid()
      modifies this`hapticPulses, viewModel
      ensures viewModel.Valid()
      ensures viewModel.State() == Changed(old(viewModel.State()), Sample(x, y, distance))
      ensures DragBounds(viewModel.State())
      ensures hapticPulses == old(hapticPulses) +
        (if Fires(old(viewModel.State()), Sample(x, y, distance)) then 1 else 0)
    {
      ghost var before := viewModel.State();
      var dragFromCenterX := x - HalfSize;
      var dragFromCenterY := Max(y - HalfSize, MaxUpwardDrag);
      var upwardDrag := Max(-100.0, -dragFromCenterY) / HalfSize;

      PullDown(dragFromCenterY);
      Tilt(dragFromCenterX, dragFromCenterY, upwardDrag, distance);

      ChangedBounds(before, Sample(x, y, distance));
      ChangedPreservesInvariant(before, Sample(x, y, distance));
    }

    /**
     * The drag-ended callback: the view model goes back to rest except for
     * the haptic flag, the rotation axis and the perspective; no pulse.
     */
    method OnEnded()
      requires viewModel.Valid()
      modifies viewModel
      ensures viewModel.Valid()
      ensures viewModel.State() == Ended(old(viewModel.State()))
      ensures viewModel.State() == Rest().(rotationAxis := old(viewModel.rotationAxis),
                                           perspective := old(viewModel.perspective),
                                           didTriggerHaptic := old(viewModel.didTriggerHaptic))
    {
      viewModel.rotationAngle := 0.0;
      viewModel.offsetX := 0.0;
      viewModel.offsetY := 0.0;
      viewModel.startPoint := Point(0.0, 1.0);
      viewModel.endPoint := Point(0.1, 0.9);
      viewModel.shadowRadius := 20.0;
      viewModel.shadowX := 0.0;
      viewModel.shadowY := 20.0;
      viewModel.offsetBadge := 0.0;
      viewModel.didPassThreshold := false;
      EndedPreservesInvariant(old(viewModel.State()));
    }
  }

  /**
   * A drag, its release and a second drag delivered to the handler. The
   * view model ends in the state `Replay` gives for the same events and the
   * handler requests exactly the pulses `Pulses` counts, so the lemmas about
   * runs of events bound what the handler does: at most two pulses, and only
   * one when both drags start beyond the threshold from rest.
   */
  method DragReleaseDrag(view: TiltImageView, p: Sample, q: Sample)
    requires IsDistance(p) && IsDistance(q)
    requires view.viewModel.Valid()
    modifies view`hapticPulses, view.viewModel
    ensures view.viewModel.Valid()
    ensures view.viewModel.State() == Replay(old(view.viewModel.State()), [Moved(p), Lifted, Moved(q)])
    ensures view.hapticPulses ==
      old(view.hapticPulses) + Pulses(old(view.viewModel.State()), [Moved(p), Lifted, Moved(q)])
    ensures view.hapticPulses <= old(view.hapticPulses) + 2
    ensures old(view.viewModel.State()) == Rest() && Crosses(p) && Crosses(q) ==>
      view.hapticPulses == old(view.hapticPulses) + 1
  {
    ghost var s0 := view.viewModel.State();
    view.OnChanged(p.x, p.y, p.distance);
    view.OnEnded();
    view.OnChanged(q.x, q.y, q.distance);
    DragReleaseDragRun(s0, p, q);
    if s0 == Rest() && Crosses(p) && Crosses(q) {
      TwoCrossingGesturesOnePulse(p, q);
    }
  }
}
