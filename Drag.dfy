/**
 * The drag-to-tilt mapping of the badge view, on values.
 *
 * A drag sample is a pointer location in the badge's local coordinates
 * (the badge is 300 x 300, its centre is at (150, 150)) together with the
 * Euclidean distance of the clamped drag vector from the centre. Every
 * visual parameter of the view model is a function of the sample; the
 * pull-down threshold logic also reads the two flags of the view model.
 * `Changed` and `Ended` give the whole new view-model state for the two
 * gesture callbacks, and the lemmas state what those callbacks promise.
 */
module Drag {

  /** A unit point as used for the gradient sweep (values outside [0, 1] are allowed). */
  datatype Point = Point(x: real, y: real)

  /** The (unnormalised) axis handed to the 3D rotation. */
  datatype Axis = Axis(x: real, y: real, z: real)

  /** Lengths produced by a square root are never negative. */
  type Length = r: real | r >= 0.0

  /** Half the badge's side: the badge centre in local coordinates. */
  const HalfSize: real := 150.0
  /** The furthest the drag vector may point upwards. */
  const MaxUpwardDrag: real := -150.0
  /** How far below the centre the pointer must be for the pull-down to engage. */
  const Threshold: real := 100.0

  /**
   * One `onChanged` sample: the pointer location and the length of the
   * clamped drag vector (the source computes it with a square root).
   */
  datatype Sample = Sample(x: real, y: real, distance: Length)

  function Sq(r: real): real { r * r }

  function Min(a: real, b: real): (m: real)
    ensures m <= a && m <= b
    ensures m == a || m == b
  {
    if a <= b then a else b
  }

  function Max(a: real, b: real): (m: real)
    ensures m >= a && m >= b
    ensures m == a || m == b
  {
    if a >= b then a else b
  }

  /** `max(min(v, hi), lo)`, the clamp the source writes out. */
  function Clamp(v: real, lo: real, hi: real): (c: real)
    requires lo <= hi
    ensures lo <= c <= hi
    ensures lo <= v <= hi ==> c == v
    ensures v < lo ==> c == lo
    ensures v > hi ==> c == hi
  {
    Max(Min(v, hi), lo)
  }

  // ---------------------------------------------------------------------
  // Quantities derived from one sample
  // ---------------------------------------------------------------------

  /** Horizontal offset of the pointer from the badge centre. */
  function DragFromCenterX(x: real): (dx: real)
    ensures dx + HalfSize == x
    ensures dx == 0.0 <==> x == HalfSize
  {
    x - HalfSize
  }

  /** Vertical offset of the pointer from the centre, with upward travel clamped. */
  function DragFromCenterY(y: real): (dy: real)
    ensures dy >= MaxUpwardDrag
    ensures dy >= y - HalfSize
    ensures dy == y - HalfSize || dy == MaxUpwardDrag
  {
    Max(y - HalfSize, MaxUpwardDrag)
  }

  /** The distance the sample must carry: that of the clamped drag vector. */
  predicate IsDistance(p: Sample)
  {
    Sq(p.distance) == Sq(DragFromCenterX(p.x)) + Sq(DragFromCenterY(p.y))
  }

  /** Normalised upward drag: linear in the upward travel, floored at 100 units downwards. */
  function UpwardDrag(dy: real): (u: real)
    requires dy >= MaxUpwardDrag
    ensures -100.0 / 150.0 <= u <= 1.0
    ensures dy <= 100.0 ==> u * HalfSize == -dy
    ensures dy >= 100.0 ==> u * HalfSize == -100.0
  {
    Max(-100.0, -dy) / HalfSize
  }

  /** Tilt in degrees: proportional to the distance, saturating at 25. */
  function RotationAngle(distance: Length): (a: real)
    ensures 0.0 <= a <= 25.0
    ensures a <= distance * 0.15
    ensures a == distance * 0.15 || a == 25.0
  {
    Min(distance * 0.15, 25.0)
  }

  /** The rotation axis lies in the badge's plane, perpendicular to the drag vector. */
  function RotationAxis(dx: real, dy: real): (a: Axis)
    ensures a.z == 0.0
    ensures a.x * dx + a.y * dy == 0.0
    ensures Sq(a.x) + Sq(a.y) == Sq(dx) + Sq(dy)
    ensures dx * a.y - dy * a.x == Sq(dx) + Sq(dy)
  {
    Axis(-dy, dx, 0.0)
  }

  /** Back-face shift opposite the horizontal drag, within 10 units. */
  function OffsetX(dx: real): (o: real)
    ensures -10.0 <= o <= 10.0
    ensures -200.0 <= dx <= 200.0 ==> o == -dx * 0.05
    ensures dx < -200.0 ==> o == 10.0
    ensures dx > 200.0 ==> o == -10.0
  {
    Clamp(-dx * 0.05, -10.0, 10.0)
  }

  /**
   * Back-face shift opposite the vertical drag. Because upward travel is
   * clamped at 150 units, the upper clamp at 10 is never reached.
   */
  function OffsetY(dy: real): (o: real)
    requires dy >= MaxUpwardDrag
    ensures -10.0 <= o <= 7.5
    ensures dy <= 200.0 ==> o == -dy * 0.05
    ensures dy > 200.0 ==> o == -10.0
  {
    Clamp(-dy * 0.05, -10.0, 10.0)
  }

  /** Where the shine sweep starts: on the anti-diagonal x + y == 1. */
  function ShineStart(u: real): (p: Point)
    ensures p.x + p.y == 1.0
    ensures p.x == 0.8 * u
  {
    Point(0.8 * u, 1.0 - 0.8 * u)
  }

  /** Where the shine sweep ends: the start moved by (0.2, -0.2), again on x + y == 1. */
  function ShineEnd(u: real): (p: Point)
    ensures p.x + p.y == 1.0
    ensures p.x == ShineStart(u).x + 0.2 && p.y == ShineStart(u).y - 0.2
  {
    Point(0.2 + 0.8 * u, 0.8 - 0.8 * u)
  }

  /** Shadow blur: grows with the distance from 20 and saturates at 25. */
  function ShadowRadius(distance: Length): (r: real)
    ensures 20.0 <= r <= 25.0
    ensures r <= 20.0 + distance / 30.0
    ensures r == 20.0 + distance / 30.0 || r == 25.0
  {
    Min(20.0 + distance / 30.0, 25.0)
  }

  /** Horizontal shadow shift; the pointer's horizontal offset can be read back from it. */
  function ShadowX(dx: real): (s: real)
    ensures dx == 20.0 * (1.0 - s)
  {
    1.0 - dx / 20.0
  }

  /**
   * Vertical shadow shift, at least 25. Because upward travel is clamped at
   * 150 units it never exceeds 51, so the cap at 60 is never reached.
   */
  function ShadowY(dy: real): (s: real)
    requires dy >= MaxUpwardDrag
    ensures 25.0 <= s <= 51.0
    ensures s >= 1.0 - dy / 3.0
    ensures s == 1.0 - dy / 3.0 || s == 25.0
  {
    Min(Max(1.0 - dy / 3.0, 25.0), 60.0)
  }

  // ---------------------------------------------------------------------
  // The pull-down threshold
  // ---------------------------------------------------------------------

  /** What the threshold branch leaves behind, and whether the haptic pulse fired. */
  datatype Gate = Gate(offsetBadge: real, passed: bool, triggered: bool, fired: bool)

  /**
   * The three-branch update of the badge offset and the two flags:
   * beyond the threshold the badge follows the pointer and the pulse fires
   * unless it already has; back inside after a crossing the badge follows
   * the pointer but never rises above its rest position; inside without a
   * crossing only the haptic is re-armed.
   */
  function ThresholdGate(dy: real, offsetBadge: real, passed: bool, triggered: bool): (g: Gate)
    ensures dy > Threshold ==>
      g.offsetBadge == dy && g.passed && g.triggered && (g.fired <==> !triggered)
    ensures dy <= Threshold && passed ==>
      g.offsetBadge >= 0.0 && g.offsetBadge >= dy && (g.offsetBadge == dy || g.offsetBadge == 0.0) &&
      g.passed && g.triggered == triggered && !g.fired
    ensures dy <= Threshold && !passed ==>
      g.offsetBadge == offsetBadge && !g.passed && !g.triggered && !g.fired
  {
    if dy > Threshold then
      Gate(dy, true, true, !triggered)
    else if passed then
      Gate(Max(dy, 0.0), true, triggered, false)
    else
      Gate(offsetBadge, false, false, false)
  }

  // ---------------------------------------------------------------------
  // The whole view-model state
  // ---------------------------------------------------------------------

  /** A snapshot of every field of the view model. */
  datatype ViewState = ViewState(
    rotationAngle: real,
    rotationAxis: Axis,
    offsetX: real,
    offsetY: real,
    offsetBadge: real,
    perspective: real,
    startPoint: Point,
    endPoint: Point,
    shadowRadius: real,
    shadowX: real,
    shadowY: real,
    didTriggerHaptic: bool,
    didPassThreshold: bool)

  /** The field initialisers of the view model. */
  function Rest(): ViewState
  {
    ViewState(0.0, Axis(0.0, 0.0, 1.0), 0.0, 0.0, 0.0, 0.0,
              Point(0.0, 1.0), Point(0.1, 0.9), 20.0, 0.0, 20.0, false, false)
  }

  function GateOf(s: ViewState, p: Sample): Gate
  {
    ThresholdGate(DragFromCenterY(p.y), s.offsetBadge, s.didPassThreshold, s.didTriggerHaptic)
  }

  /** Whether the `onChanged` sample `p`, applied to `s`, fires the haptic pulse. */
  predicate Fires(s: ViewState, p: Sample)
  {
    GateOf(s, p).fired
  }

  /** Whether the sample lies beyond the pull-down threshold. */
  predicate Crosses(p: Sample)
  {
    DragFromCenterY(p.y) > Threshold
  }

  /**
   * The state after the `onChanged` callback handles sample `p`. The
   * threshold flag records whether any sample since the release went beyond
   * the threshold; the haptic flag is set by a crossing, kept while engaged
   * and cleared otherwise; the perspective is carried over.
   */
  function Changed(s: ViewState, p: Sample): (r: ViewState)
    ensures r.didPassThreshold <==> s.didPassThreshold || Crosses(p)
    ensures r.didTriggerHaptic <==> Crosses(p) || (s.didPassThreshold && s.didTriggerHaptic)
    ensures r.perspective == s.perspective
  {
    var dx := DragFromCenterX(p.x);
    var dy := DragFromCenterY(p.y);
    var u := UpwardDrag(dy);
    var g := GateOf(s, p);
    ViewState(
      RotationAngle(p.distance),
      RotationAxis(dx, dy),
      OffsetX(dx),
      OffsetY(dy),
      g.offsetBadge,
      s.perspective,
      ShineStart(u),
      ShineEnd(u),
      ShadowRadius(p.distance),
      ShadowX(dx),
      ShadowY(dy),
      g.triggered,
      g.passed)
  }

  /** The state after the `onEnded` callback. */
  function Ended(s: ViewState): ViewState
  {
    s.(rotationAngle := 0.0, offsetX := 0.0, offsetY := 0.0,
       startPoint := Point(0.0, 1.0), endPoint := Point(0.1, 0.9),
       shadowRadius := 20.0, shadowX := 0.0, shadowY := 20.0,
       offsetBadge := 0.0, didPassThreshold := false)
  }

  /** The bounds every field keeps right after an `onChanged` sample. */
  ghost predicate DragBounds(s: ViewState)
  {
    && 0.0 <= s.rotationAngle <= 25.0
    && s.rotationAxis.z == 0.0
    && -10.0 <= s.offsetX <= 10.0
    && -10.0 <= s.offsetY <= 10.0
    && s.startPoint.x + s.startPoint.y == 1.0
    && -0.8 * 100.0 / 150.0 <= s.startPoint.x <= 0.8
    && s.endPoint.x == s.startPoint.x + 0.2 && s.endPoint.y == s.startPoint.y - 0.2
    && 20.0 <= s.shadowRadius <= 25.0
    && 25.0 <= s.shadowY <= 60.0
    && s.offsetBadge >= 0.0
  }

  /**
   * The invariant of the view model from creation on, through any number of
   * `onChanged` and `onEnded` calls: the visual fields stay within their
   * clamps, the badge never rises above its rest position (and is there
   * unless the threshold has been passed), having passed the threshold
   * implies the haptic has fired, and the perspective is never changed.
   */
  ghost predicate Invariant(s: ViewState)
  {
    && 0.0 <= s.rotationAngle <= 25.0
    && -10.0 <= s.offsetX <= 10.0
    && -10.0 <= s.offsetY <= 10.0
    && s.startPoint.x + s.startPoint.y == 1.0
    && s.endPoint.x + s.endPoint.y == 1.0
    && 20.0 <= s.shadowRadius <= 25.0
    && 20.0 <= s.shadowY <= 60.0
    && s.offsetBadge >= 0.0
    && (!s.didPassThreshold ==> s.offsetBadge == 0.0)
    && (s.didPassThreshold ==> s.didTriggerHaptic)
    && s.perspective == 0.0
  }

  // ---------------------------------------------------------------------
  // Properties of one callback
  // ---------------------------------------------------------------------

  lemma RestInvariant()
    ensures Invariant(Rest())
  {
  }

  /** Whatever the state before, one sample leaves every visual field within its clamp. */
  lemma ChangedBounds(s: ViewState, p: Sample)
    requires Invariant(s)
    ensures DragBounds(Changed(s, p))
  {
  }

  lemma ChangedPreservesInvariant(s: ViewState, p: Sample)
    requires Invariant(s)
    ensures Invariant(Changed(s, p))
  {
  }

  lemma EndedPreservesInvariant(s: ViewState)
    requires Invariant(s)
    ensures Invariant(Ended(s))
  {
  }

  /**
   * `onEnded` puts everything back to rest except the haptic flag, the
   * rotation axis and the perspective, which it leaves as they were.
   */
  lemma EndedRestores(s: ViewState)
    ensures Ended(s) == Rest().(rotationAxis := s.rotationAxis, perspective := s.perspective,
                                didTriggerHaptic := s.didTriggerHaptic)
    ensures Ended(s).didTriggerHaptic == s.didTriggerHaptic
  {
  }

  /** Handling the same sample twice gives the same state, and the second time nothing fires. */
  lemma ChangedIdempotent(s: ViewState, p: Sample)
    ensures Changed(Changed(s, p), p) == Changed(s, p)
    ensures !Fires(Changed(s, p), p)
  {
  }

  /**
   * On reachable states the state after a sample depends only on the sample
   * and the threshold flag: the badge offset is fixed by that flag, the
   * haptic flag is implied by it or overwritten, and the perspective is 0.
   */
  lemma ChangedDependsOnThresholdFlag(s1: ViewState, s2: ViewState, p: Sample)
    requires Invariant(s1) && Invariant(s2)
    requires s1.didPassThreshold == s2.didPassThreshold
    ensures Changed(s1, p) == Changed(s2, p)
  {
  }

  /** The tilt axis is as long as the drag vector: its squared length is the squared distance. */
  lemma AxisLengthIsDistance(s: ViewState, p: Sample)
    requires IsDistance(p)
    ensures var a := Changed(s, p).rotationAxis; Sq(a.x) + Sq(a.y) == Sq(p.distance)
  {
  }

  // ---------------------------------------------------------------------
  // Sequences of callbacks: the haptic pulse
  // ---------------------------------------------------------------------

  /** A gesture event: an `onChanged` sample, or the `onEnded` release. */
  datatype Event = Moved(sample: Sample) | Lifted

  function Step(s: ViewState, e: Event): ViewState
  {
    match e
    case Moved(p) => Changed(s, p)
    case Lifted => Ended(s)
  }

  /** Haptic pulses that one event causes (zero or one). */
  function Pulse(s: ViewState, e: Event): nat
  {
    if e.Moved? && Fires(s, e.sample) then 1 else 0
  }

  /** The state after handling `evs` in order, starting from `s`. */
  function Replay(s: ViewState, evs: seq<Event>): ViewState
    decreases |evs|
  {
    if evs == [] then s else Replay(Step(s, evs[0]), evs[1..])
  }

  /** The haptic pulses caused while handling `evs` in order, starting from `s`. */
  function Pulses(s: ViewState, evs: seq<Event>): nat
    decreases |evs|
  {
    if evs == [] then 0 else Pulse(s, evs[0]) + Pulses(Step(s, evs[0]), evs[1..])
  }

  /** The events of one continuous drag: no release among them. */
  ghost predicate OneGesture(evs: seq<Event>)
  {
    forall i :: 0 <= i < |evs| ==> evs[i].Moved?
  }

  /** Number of releases among `evs`. */
  function Lifts(evs: seq<Event>): nat
    decreases |evs|
  {
    if evs == [] then 0 else (if evs[0].Lifted? then 1 else 0) + Lifts(evs[1..])
  }

  /** Passed the threshold and already fired: nothing fires until the release. */
  ghost predicate Settled(s: ViewState)
  {
    s.didPassThreshold && s.didTriggerHaptic
  }

  /** Any number of calls keeps the invariant. */
  lemma {:induction false} ReplayInvariant(s: ViewState, evs: seq<Event>)
    requires Invariant(s)
    ensures Invariant(Replay(s, evs))
    decreases |evs|
  {
    if evs != [] {
      match evs[0] {
        case Moved(p) => ChangedPreservesInvariant(s, p);
        case Lifted => EndedPreservesInvariant(s);
      }
      ReplayInvariant(Step(s, evs[0]), evs[1..]);
    }
  }

  /** Once settled, the rest of the gesture stays settled and fires nothing. */
  lemma {:induction false} SettledIsSilent(s: ViewState, evs: seq<Event>)
    requires Settled(s) && OneGesture(evs)
    ensures Pulses(s, evs) == 0
    ensures Settled(Replay(s, evs))
    decreases |evs|
  {
    if evs != [] {
      assert evs[0].Moved?;
      SettledIsSilent(Step(s, evs[0]), evs[1..]);
    }
  }

  /** Within one gesture the haptic fires at most once, whatever the samples and the start state. */
  lemma {:induction false} AtMostOncePerGesture(s: ViewState, evs: seq<Event>)
    requires OneGesture(evs)
    ensures Pulses(s, evs) <= 1
    decreases |evs|
  {
    if evs != [] {
      assert evs[0].Moved?;
      if Fires(s, evs[0].sample) {
        SettledIsSilent(Step(s, evs[0]), evs[1..]);
      } else {
        AtMostOncePerGesture(Step(s, evs[0]), evs[1..]);
      }
    }
  }

  /**
   * With the haptic armed, a gesture fires exactly when one of its samples
   * goes beyond the threshold.
   */
  lemma {:induction false} FiresIffCrosses(s: ViewState, evs: seq<Event>)
    requires !s.didTriggerHaptic && OneGesture(evs)
    ensures Pulses(s, evs) == 1 <==> exists i :: 0 <= i < |evs| && Crosses(evs[i].sample)
    decreases |evs|
  {
    if evs != [] {
      assert evs[0].Moved?;
      var p := evs[0].sample;
      if Crosses(p) {
        SettledIsSilent(Step(s, evs[0]), evs[1..]);
      } else {
        FiresIffCrosses(Step(s, evs[0]), evs[1..]);
        if exists i :: 0 <= i < |evs[1..]| && Crosses(evs[1..][i].sample) {
          var i :| 0 <= i < |evs[1..]| && Crosses(evs[1..][i].sample);
          assert Crosses(evs[i + 1].sample);
        }
        if exists i :: 0 <= i < |evs| && Crosses(evs[i].sample) {
          var i :| 0 <= i < |evs| && Crosses(evs[i].sample);
          assert i > 0 && Crosses(evs[1..][i - 1].sample);
        }
      }
    }
  }

  lemma {:induction false} PulsesBound(s: ViewState, evs: seq<Event>)
    ensures Pulses(s, evs) <= Lifts(evs) + (if Settled(s) then 0 else 1)
    decreases |evs|
  {
    if evs != [] {
      PulsesBound(Step(s, evs[0]), evs[1..]);
    }
  }

  /**
   * `onEnded` does not re-arm the haptic: a gesture that follows one which
   * fired and whose first sample is already beyond the threshold fires nothing.
   */
  lemma StaleTriggerSuppresses(s: ViewState, evs: seq<Event>)
    requires s.didTriggerHaptic && OneGesture(evs)
    requires |evs| > 0 && Crosses(evs[0].sample)
    ensures Pulses(s, evs) == 0
  {
    assert evs[0].Moved?;
    assert Settled(Step(s, evs[0]));
    SettledIsSilent(Step(s, evs[0]), evs[1..]);
  }

  /** A drag, its release and a second drag: the run step by step, and at most two pulses. */
  lemma DragReleaseDragRun(s: ViewState, p: Sample, q: Sample)
    ensures var s1 := Changed(s, p);
      && Replay(s, [Moved(p), Lifted, Moved(q)]) == Changed(Ended(s1), q)
      && Pulses(s, [Moved(p), Lifted, Moved(q)]) ==
           (if Fires(s, p) then 1 else 0) + (if Fires(Ended(s1), q) then 1 else 0)
    ensures Pulses(s, [Moved(p), Lifted, Moved(q)]) <= 2
  {
    var evs := [Moved(p), Lifted, Moved(q)];
    assert evs[1..] == [Lifted, Moved(q)];
    assert evs[1..][1..] == [Moved(q)];
    assert evs[1..][1..][1..] == [];
    var s1 := Changed(s, p);
    assert Replay(s, evs) == Replay(s1, [Lifted, Moved(q)]);
    assert Replay(s1, [Lifted, Moved(q)]) == Replay(Ended(s1), [Moved(q)]);
    assert Replay(Ended(s1), [Moved(q)]) == Replay(Changed(Ended(s1), q), []);
    assert Pulses(s, evs) == Pulse(s, Moved(p)) + Pulses(s1, [Lifted, Moved(q)]);
    assert Pulses(s1, [Lifted, Moved(q)]) == Pulses(Ended(s1), [Moved(q)]);
    assert Pulses(Ended(s1), [Moved(q)]) == Pulse(Ended(s1), Moved(q)) + Pulses(Changed(Ended(s1), q), []);
  }

  // ---------------------------------------------------------------------
  // Single steps and concrete runs
  // ---------------------------------------------------------------------

  /** The pointer at the centre: no tilt, no shift, the resting drop shadow. */
  lemma CentreSample(s: ViewState)
    ensures var c := Changed(s, Sample(150.0, 150.0, 0.0));
      c.rotationAngle == 0.0 && c.rotationAxis == Axis(0.0, 0.0, 0.0) &&
      c.offsetX == 0.0 && c.offsetY == 0.0 &&
      c.shadowRadius == 20.0 && c.shadowX == 1.0 && c.shadowY == 25.0 &&
      c.startPoint == Point(0.0, 1.0) && c.endPoint == Point(0.2, 0.8)
  {
  }

  /** A sample beyond the threshold engages the pull-down; it fires exactly when armed. */
  lemma CrossingEngages(s: ViewState, p: Sample)
    requires Crosses(p)
    ensures Settled(Changed(s, p))
    ensures Changed(s, p).offsetBadge == DragFromCenterY(p.y)
    ensures Fires(s, p) <==> !s.didTriggerHaptic
  {
  }

  /** After a crossing, a sample inside the threshold moves the badge, never above rest, silently. */
  lemma EngagedFollows(s: ViewState, p: Sample)
    requires Settled(s) && !Crosses(p)
    ensures Settled(Changed(s, p))
    ensures Changed(s, p).offsetBadge == Max(DragFromCenterY(p.y), 0.0)
    ensures !Fires(s, p)
  {
  }

  /** From rest, one unit beyond the threshold fires the pulse and engages the pull-down. */
  lemma PullPastThreshold()
    ensures var s1 := Changed(Rest(), Sample(150.0, 251.0, 101.0));
      Fires(Rest(), Sample(150.0, 251.0, 101.0)) && s1.offsetBadge == 101.0 && Settled(s1)
  {
  }

  /** Pulling further down once engaged moves the badge and fires nothing more. */
  lemma PullFurther(s1: ViewState)
    requires Settled(s1)
    ensures var s2 := Changed(s1, Sample(150.0, 400.0, 250.0));
      !Fires(s1, Sample(150.0, 400.0, 250.0)) && s2.offsetBadge == 250.0 && Settled(s2)
  {
  }

  /** Coming back above the centre once engaged puts the badge at rest height, still engaged. */
  lemma ReturnAboveCentre(s2: ViewState)
    requires Settled(s2)
    ensures var s3 := Changed(s2, Sample(150.0, 140.0, 10.0));
      !Fires(s2, Sample(150.0, 140.0, 10.0)) && s3.offsetBadge == 0.0 && Settled(s3)
  {
  }

  /**
   * The release clears the threshold flag but leaves the haptic flag set,
   * so right after a gesture that fired the haptic is not re-armed.
   */
  lemma ReleaseKeepsTrigger(s: ViewState)
    requires Settled(s)
    ensures Ended(s).didTriggerHaptic && !Ended(s).didPassThreshold
  {
  }

  /**
   * Two gestures that both start beyond the threshold give a single pulse:
   * the second one finds the haptic flag still set.
   */
  lemma TwoCrossingGesturesOnePulse(p: Sample, q: Sample)
    requires Crosses(p) && Crosses(q)
    ensures Pulses(Rest(), [Moved(p), Lifted, Moved(q)]) == 1
  {
    var evs := [Moved(p), Lifted, Moved(q)];
    var s1 := Changed(Rest(), p);
    assert Pulse(Rest(), evs[0]) == 1;
    assert evs[1..] == [Lifted, Moved(q)];
    assert Pulses(s1, evs[1..]) == Pulses(Ended(s1), [Moved(q)]) by {
      assert evs[1..][1..] == [Moved(q)];
    }
    StaleTriggerSuppresses(Ended(s1), [Moved(q)]);
  }
}
