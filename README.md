# Tilting badge: the drag gesture handler

The badge view is a round image that tilts in 3D while the user drags on it.
A shine gradient and a drop shadow follow the tilt. Pulling the badge more
than 100 points below its centre engages a pull-down: the badge follows the
finger, and, unless the haptic flag is still set from an earlier gesture,
one heavy haptic pulse is requested. All of this lives in the
two callbacks of the drag gesture in `TiltImageView`. They write the
observable fields of `SharedViewModel`, and the renderer reads those fields.

The project models that state and those callbacks:

- `Drag.dfy` (module `Drag`) works on values:
  - the per-sample quantities: the clamped drag offsets, the normalised upward drag, the angle, the axis, the back-face offsets, the shine points and the shadow;
  - the three-branch pull-down update `ThresholdGate`;
  - a snapshot `ViewState` of every field, with `Changed` (the drag-changed callback) and `Ended` (the drag-ended callback);
  - the invariant the view model keeps;
  - lemmas about runs of events (`Replay`, `Pulses`): the haptic pulse fires at most once per gesture.
- `View.dfy` (module `View`) holds the two classes:
  - `SharedViewModel`, whose fields are updated in place;
  - `TiltImageView`, with the imperative `OnChanged` and `OnEnded` methods.

  Each method is proved to leave the view model in the state `Changed` or `Ended` computes from the old state.
  The haptic feedback generator is a ghost counter `hapticPulses`.

Points worth knowing, all proved:

- Upward travel is clamped at 150 points, so two caps never bind. The vertical shadow shift is at most 51, so its cap at 60 never applies. The vertical back-face offset is at most 7.5, so its cap at +10 never applies.
- The normalised upward drag lies in [-2/3, 1]. It is negative when the finger is below the centre. Both shine points lie on the line x + y = 1, and the end point is the start point moved by (0.2, -0.2).
- Once a gesture has fired the haptic, both flags stay set until the release. The release clears only `didPassThreshold`, so `didTriggerHaptic` survives into the next gesture. If that gesture's first sample is already beyond the threshold, it fires nothing (`StaleTriggerSuppresses`). It re-arms only after a sample inside the threshold.
- Besides the clamps, the invariant says that passing the threshold implies the haptic has fired, that the badge offset is 0 unless the threshold has been passed, and that the perspective stays 0.

Four things a reader might expect do not hold in the code:

- `upwardDrag` lies in [-2/3, 1] and is negative below the centre (BadgeTest/ContentView.swift:121).
- After a release, `didTriggerHaptic` can be true while `didPassThreshold` is false (`ReleaseKeepsTrigger`).
- The haptic flag is re-armed only in the branch for a sample inside the threshold before any crossing (BadgeTest/ContentView.swift:140-141). It is not re-armed when the finger comes back inside the threshold after a crossing.
- The rotation axis is not always in the badge's plane. It starts as (0, 0, 1) (BadgeTest/ContentView.swift:13), and the drag-ended callback never resets it. So it has z = 1 until the first sample and keeps the last drag's axis after a release (`Rest`, `EndedRestores`).

## Model

| member | source | states |
|---|---|---|
| `Drag.DragFromCenterX` | BadgeTest/ContentView.swift:119 | the horizontal drag offset is the pointer's x read relative to the centre at 150: adding 150 gives x back, and it is 0 exactly at the centre |
| `Drag.DragFromCenterY` | BadgeTest/ContentView.swift:118-120 | the vertical drag offset is `y - 150` floored at -150: at least -150, at least `y - 150`, and equal to one of them |
| `Drag.UpwardDrag` | BadgeTest/ContentView.swift:121 | for an offset of at least -150 the normalised upward drag lies in [-100/150, 1]; it is `-dy/150` down to 100 points below the centre and `-100/150` from there on |
| `Drag.RotationAngle` | BadgeTest/ContentView.swift:144 | the tilt angle lies in [0, 25], never exceeds `0.15 * distance`, and equals `0.15 * distance` or the saturation value 25 |
| `Drag.RotationAxis` | BadgeTest/ContentView.swift:147 | the axis has z = 0, is perpendicular to the drag vector, is as long as the drag vector, and is the drag vector turned a quarter turn counter-clockwise (`dx * a.y - dy * a.x` equals the squared length) |
| `Drag.OffsetX` | BadgeTest/ContentView.swift:151 | the horizontal back-face offset lies in [-10, 10]; it is `-0.05 * dx` while the drag is within 200 points, otherwise the bound on the opposite side |
| `Drag.OffsetY` | BadgeTest/ContentView.swift:152 | for a clamped drag the vertical back-face offset lies in [-10, 7.5]; it is `-0.05 * dy` up to 200 points downwards and -10 beyond |
| `Drag.ShineStart` | BadgeTest/ContentView.swift:154 | the shine start point lies on the line x + y = 1, with x = `0.8 * upwardDrag` |
| `Drag.ShineEnd` | BadgeTest/ContentView.swift:155 | the shine end point lies on x + y = 1 and is the start point moved by (0.2, -0.2) |
| `Drag.ShadowRadius` | BadgeTest/ContentView.swift:158-163 | the shadow radius lies in [20, 25], never exceeds `20 + distance/30`, and equals it or 25 |
| `Drag.ShadowX` | BadgeTest/ContentView.swift:159-164 | the horizontal shadow shift determines the horizontal drag: `dx == 20 * (1 - shadowX)` |
| `Drag.ShadowY` | BadgeTest/ContentView.swift:160-165 | for a clamped drag the vertical shadow shift lies in [25, 51]; it is at least `1 - dy/3` and equals it or 25, so the cap at 60 never applies |
| `Drag.ThresholdGate` | BadgeTest/ContentView.swift:128-142 | beyond 100 points: the badge follows `dy`, both flags are set, and the pulse fires exactly when the haptic flag was clear. Inside after a crossing: the badge offset is `max(dy, 0)`, the flags are unchanged, and nothing fires. Inside without a crossing: the haptic flag is cleared and nothing else changes |
| `Drag.IsDistance` | BadgeTest/ContentView.swift:124 | the `distance` a sample carries squares to `dx*dx + dy*dy`; it has no ensures of its own, and `AxisLengthIsDistance` states what follows from it |
| `Drag.Rest` | BadgeTest/ContentView.swift:12-30 | the field initialisers; it has no ensures of its own, and `RestInvariant` and `EndedRestores` state its properties |
| `Drag.Changed` | BadgeTest/ContentView.swift:114-167 | the state after a drag-changed sample: the threshold flag is set exactly when it was set or the sample crosses the threshold; the haptic flag is set exactly when the sample crosses or both flags were set; the perspective is carried over. `ChangedBounds`, `ChangedPreservesInvariant`, `ChangedIdempotent` and `ChangedDependsOnThresholdFlag` state the rest |
| `Drag.Ended` | BadgeTest/ContentView.swift:168-181 | the state after the drag-ended callback; it has no ensures of its own, and `EndedRestores` and `EndedPreservesInvariant` state its properties |
| `Drag.Invariant` | BadgeTest/ContentView.swift:11-31 | the view-model invariant: every visual field within its clamp, the badge offset at least 0 and 0 unless the threshold has been passed, passing implies the haptic has fired, perspective 0. `RestInvariant`, `ChangedPreservesInvariant`, `EndedPreservesInvariant` and `ReplayInvariant` show it holds throughout |
| `Drag.RestInvariant` | BadgeTest/ContentView.swift:12-30 | the initial field values satisfy the view-model invariant |
| `Drag.ChangedBounds` | BadgeTest/ContentView.swift:128-165 | after any sample from a state satisfying the invariant: angle in [0, 25], axis z = 0, offsets in [-10, 10], shine points on x + y = 1 one step apart, radius in [20, 25], vertical shadow in [25, 60], badge offset at least 0 |
| `Drag.ChangedPreservesInvariant` | BadgeTest/ContentView.swift:128-165 | a drag-changed sample preserves the view-model invariant |
| `Drag.EndedPreservesInvariant` | BadgeTest/ContentView.swift:168-180 | the drag-ended callback preserves the view-model invariant |
| `Drag.EndedRestores` | BadgeTest/ContentView.swift:168-180 | after the release every field holds its initial value, except the haptic flag, the rotation axis and the perspective, which keep their old values |
| `Drag.ChangedIdempotent` | BadgeTest/ContentView.swift:116-165 | handling the same sample twice in a row gives the same state both times, and the second time fires nothing |
| `Drag.ChangedDependsOnThresholdFlag` | BadgeTest/ContentView.swift:116-165 | on states satisfying the invariant, the state after a sample depends only on the sample and `didPassThreshold` |
| `Drag.AxisLengthIsDistance` | BadgeTest/ContentView.swift:124-147 | when `distance` is the length of the clamped drag vector, the squared length of the rotation axis equals the squared distance |
| `Drag.ReplayInvariant` | BadgeTest/ContentView.swift:114-180 | any sequence of drag-changed and drag-ended calls preserves the invariant |
| `Drag.SettledIsSilent` | BadgeTest/ContentView.swift:128-139 | once the threshold is passed and the haptic has fired, the rest of the gesture keeps both flags set and fires nothing |
| `Drag.AtMostOncePerGesture` | BadgeTest/ContentView.swift:128-142 | within one gesture the haptic fires at most once, from any starting state and for any samples |
| `Drag.FiresIffCrosses` | BadgeTest/ContentView.swift:128-142 | with the haptic armed, a gesture fires exactly once if and only if one of its samples goes beyond the threshold |
| `Drag.PulsesBound` | BadgeTest/ContentView.swift:128-180 | the pulses over any run of events are at most the number of releases, plus one unless the run starts with both flags set |
| `Drag.DragReleaseDragRun` | BadgeTest/ContentView.swift:114-181 | a drag, its release and a second drag end in the state of the three callbacks applied in turn, and fire at most two pulses, one per drag that fires |
| `Drag.StaleTriggerSuppresses` | BadgeTest/ContentView.swift:128-180 | with the haptic flag still set, a gesture whose first sample is beyond the threshold fires nothing |
| `Drag.CentreSample` | BadgeTest/ContentView.swift:116-165 | the pointer at the centre gives no tilt, axis (0, 0, 0), offsets 0, shadow (20, 1, 25), shine from (0, 1) to (0.2, 0.8) |
| `Drag.CrossingEngages` | BadgeTest/ContentView.swift:128-137 | a sample beyond the threshold sets both flags, puts the badge offset at `dy`, and fires exactly when the haptic flag was clear |
| `Drag.EngagedFollows` | BadgeTest/ContentView.swift:138-139 | after a crossing, a sample inside the threshold keeps both flags, sets the badge offset to `max(dy, 0)`, and fires nothing |
| `Drag.PullPastThreshold` | BadgeTest/ContentView.swift:128-137 | from rest, the sample (150, 251) fires once, engages the pull-down, and puts the badge at 101 |
| `Drag.PullFurther` | BadgeTest/ContentView.swift:128-137 | once engaged, the sample (150, 400) puts the badge at 250 and fires nothing |
| `Drag.ReturnAboveCentre` | BadgeTest/ContentView.swift:118-139 | once engaged, the sample (150, 140) puts the badge back at 0, stays engaged, and fires nothing |
| `Drag.ReleaseKeepsTrigger` | BadgeTest/ContentView.swift:168-180 | releasing an engaged gesture clears the threshold flag but leaves the haptic flag set |
| `Drag.TwoCrossingGesturesOnePulse` | BadgeTest/ContentView.swift:128-180 | from rest, two gestures that each start beyond the threshold fire one pulse in total |
| `View.SharedViewModel.constructor` | BadgeTest/ContentView.swift:11-31 | a new view model holds the initial values of every field and satisfies the invariant |
| `View.TiltImageView.constructor` | BadgeTest/ContentView.swift:54-55 | the view observes the given view model, and no pulse has been requested |
| `View.TiltImageView.PullDown` | BadgeTest/ContentView.swift:128-142 | the badge offset and both flags become those of `ThresholdGate` on the old values, nothing else changes, and one pulse is requested exactly when the gate fires |
| `View.TiltImageView.Tilt` | BadgeTest/ContentView.swift:144-165 | the nine visual fields become the per-sample functions of the drag, and nothing else changes |
| `View.TiltImageView.OnChanged` | BadgeTest/ContentView.swift:114-167 | the new state is `Changed` of the old state and the sample; every visual field is within its clamp; the invariant is kept; one pulse is added exactly when the sample fires |
| `View.TiltImageView.OnEnded` | BadgeTest/ContentView.swift:168-181 | the new state is `Ended` of the old one: the initial values except for the old haptic flag, axis and perspective; the invariant is kept; no pulse |
| `View.DragReleaseDrag` | BadgeTest/ContentView.swift:114-181 | delivering a drag, its release and a second drag to the handler leaves the view model in the `Replay` state for those events and adds exactly `Pulses` haptic pulses: at most two, and exactly one from rest when both drags start beyond the threshold |

## Left out

- Rendering is not modelled: the view tree, `rotation3DEffect`, shadow, blur, blend mode, frames, and the doubling of the shine points inside `body` (BadgeTest/ContentView.swift:59-111). The framework does this work.
- The change notifications of `ObservableObject` and `@Published` are not modelled (BadgeTest/ContentView.swift:11-30). Each write in the two callbacks would send one to the renderer; the model keeps only the field values.
- `AnimatableGradient` and the `animatableGradient` extension are not modelled (BadgeTest/ContentView.swift:33-52). They are animation-interpolation hooks of the UI framework.
- The `withAnimation(.easeOut(...))` transitions are not modelled. Each callback is an instantaneous state update; the renderer does the easing.
- `UIImpactFeedbackGenerator` is a device API. It appears only as the ghost counter `hapticPulses`, which goes up by one where the source calls `impactOccurred`.
- `sqrt` is not modelled. `OnChanged` takes `distance` as a parameter and requires it to be nonnegative, with its square equal to `dx*dx + dy*dy`.
- Floating point is not modelled. CGFloat and Double are modelled as exact `real`, so there is no rounding, NaN or infinity. The `Double(distance)` conversion is the identity.
- The drag-changed callback is written as one method, `OnChanged`, that calls two helper methods in source order: `PullDown` covers lines 128-142 and `Tilt` covers lines 144-165. This split only keeps each proof small; the statements and their order are the source's.
- `BadgeTestApp.swift` and the preview provider (BadgeTest/ContentView.swift:186-195) are not modelled. They are app wiring with no logic.
