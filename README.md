# KMPSwipe gesture core in Dafny

This project models the core of KMPSwipe, a swipeable-card widget for Compose
Multiplatform. Two generations of the widget are modelled.

- **kmpswipe** (`KmpSwipe`) splits the work across three parts:
  - a `SwipeController` state machine with five mutable fields
    (`currentDirection`, `completedDirection`, `currentSwipeState`,
    `persistentSwipeState`, `swipingStateEmitted`);
  - a drag pipeline that divides each delta by the resistance, clamps
    against threshold × limit multiplier, snaps the single offset, and on
    drag end requests haptics, settles to 0 and resets the direction;
  - a `SwipeLayout` that draws the right or left background by the
    offset's sign and the permitted directions.
- **TailorSwipe** is the older widget. It does the same inline, with no
  state machine and no direction filter.

Modules, one per component of the Kotlin code:

| file | module | models |
|---|---|---|
| swipe_types.dfy | `SwipeTypes` | `SwipeDirection`, `SwipeState`, nullable values, `abs`, `coerceIn`, the sign-to-direction rule, `toDp`/`toPx` |
| swipe_controller.dfy | `SwipeControllerModel` | class `SwipeController`; host callbacks as an `Event` log |
| swipe_layout.dfy | `SwipeLayoutModel` | `SwipeLayout` as a function from the offset to the drawn layers |
| kmp_swipe.dfy | `KmpSwipeModel` | class `KmpSwipe`: threshold choice, the three drag handlers, the haptic gate, one composition |
| tailor_swipe.dfy | `TailorSwipeModel` | class `TailorSwipe`, its layout, and how it compares with the newer controller |
| swipe_scenarios.dfy | `SwipeScenarios` | whole gestures on a freshly composed `KmpSwipe` |

How the model represents things:

- Offsets, thresholds and resistance are `real`.
- Host callbacks are appended to an event log, so that "reported once" and
  "no callback" can be stated.
- Haptic pulses are a counter.
- The settle animation is its end result, `offsetX := 0`; a snap is an
  assignment.
- Pixels and Dp convert through the host density: `dp = px / density` and
  `px = dp * density`, with `density > 0` a property of the host.

Main results:

- In `KmpSwipe`, the offset always stays within ±threshold×multiplier.
- At rest and while dragging, the offset is only ever displaced towards a
  permitted side. So in those phases, whenever the card is displaced, the
  background for that side is drawn. Only a permitted direction ever
  completes (for a non-negative threshold). The settle after drag end is
  modelled by its end result, so these statements do not cover it (see
  "## Left out").
- `Swiping` is reported at most once per drag. This is an invariant tying
  the one-shot guard to the event log.
- A completion reports `SwipeComplete` then `End`. A cancellation sets the
  current state to the persistent one and reports it; the persistent state
  and the completed direction stay as they were.
- A haptic pulse happens exactly when a completion happens and vibration is
  enabled.

Behaviour of the code that the model keeps as it is:

- The handlers do not guard against out-of-order events, such as a drag end
  without a drag start. The model runs them in any order they are called.
- `resistance` is not validated. The model excludes only 0, because it
  divides by it.
- A cancelled drag reports the persistent state, not `Cancelled`. So after
  the first completion every cancelled drag reports `End`
  (`RepeatedRightSwipes`).
- Both constructors take the default arguments of the Kotlin code: 100 Dp threshold,
  resistance 1, multiplier 1.5, vibration on, and for `KmpSwipe` also no
  dynamic threshold, enabled, and both directions (`DefaultConfiguration`).

## Model

| member | source | states |
|---|---|---|
| `SwipeTypes.Abs` | kmpswipe/src/commonMain/kotlin/io/github/ismoy/kmpswipe/controllers/SwipeController.kt:33 | `kotlin.math.abs`: the result is non-negative and is the value or its negation |
| `SwipeTypes.SignDirection` | kmpswipe/src/commonMain/kotlin/io/github/ismoy/kmpswipe/controllers/SwipeController.kt:46 | the direction read off an offset is never None, and is Right exactly when the value is positive (zero reads as Left) |
| `SwipeTypes.Clamp` | kmpswipe/src/commonMain/kotlin/io/github/ismoy/kmpswipe/controllers/SwipeController.kt:54-57 | `coerceIn` with ordered bounds lands in `[lo, hi]`, returns an in-range value unchanged, and returns the violated bound otherwise |
| `SwipeTypes.ToDp` | kmpswipe/src/commonMain/kotlin/io/github/ismoy/kmpswipe/ui/SwipeLayout.kt:33 | the px-to-Dp conversion keeps the sign: positive exactly for positive, negative exactly for negative |
| `SwipeTypes.ToPx` | kmpswipe/src/commonMain/kotlin/io/github/ismoy/kmpswipe/KmpSwipe.kt:78-80 | Dp-to-px is undone by px-to-Dp |
| `SwipeControllerModel.SwipingSinceStartAppend` | kmpswipe/src/commonMain/kotlin/io/github/ismoy/kmpswipe/controllers/SwipeController.kt:63-67 | appending a report to the log: Start resets the count of Swiping reports, Swiping adds one, any other callback keeps it |
| `SwipeControllerModel.SwipingSinceStartQuiet` | kmpswipe/src/commonMain/kotlin/io/github/ismoy/kmpswipe/controllers/SwipeController.kt:32-43 | callbacks that are neither a Start nor a Swiping report (completion, End, Cancelled) leave the count of Swiping reports unchanged |
| `SwipeControllerModel.DragResult` | kmpswipe/src/commonMain/kotlin/io/github/ismoy/kmpswipe/controllers/SwipeController.kt:45-57 | a move is rejected (null) exactly when the direction of the raw sum is not permitted; an accepted one lies in `[-threshold, threshold]`, equals the raw sum when that is in range and the violated bound when it is not, and is positive only if Right is permitted and negative only if Left is |
| `SwipeControllerModel.SwipeController.constructor` | kmpswipe/src/commonMain/kotlin/io/github/ismoy/kmpswipe/controllers/SwipeController.kt:8-24 | a fresh controller is in Start, with persistent state Cancelled, both directions None, the guard false and no callback fired |
| `SwipeControllerModel.SwipeController.OnDragStart` | kmpswipe/src/commonMain/kotlin/io/github/ismoy/kmpswipe/controllers/SwipeController.kt:26-30 | the state becomes Start, exactly one Start report is appended, the guard is cleared, and no other field changes |
| `SwipeControllerModel.SwipeController.OnDragEnd` | kmpswipe/src/commonMain/kotlin/io/github/ismoy/kmpswipe/controllers/SwipeController.kt:32-43 | past the threshold: the completed direction is the offset's sign, one completion and then End are reported, and both states become End; otherwise the state becomes the persistent one and is reported, with no completion and the persistent state and completed direction unchanged; the invariant (persistent state End or Cancelled) is kept |
| `SwipeControllerModel.SwipeController.OnHorizontalDrag` | kmpswipe/src/commonMain/kotlin/io/github/ismoy/kmpswipe/controllers/SwipeController.kt:45-72 | returns `DragResult`; a rejected move changes no field and fires nothing; an accepted one sets the direction and reports the swipe (offset in Dp), then Swiping only if not yet reported since drag start, then the velocity; after it the state is Swiping (when first) and the guard is set |
| `SwipeControllerModel.SwipeController.ResetDirection` | kmpswipe/src/commonMain/kotlin/io/github/ismoy/kmpswipe/controllers/SwipeController.kt:74-76 | only the current direction changes, to None; resetting an already reset controller changes nothing (idempotent) |
| `SwipeControllerModel.SwipeController.GetEffectiveDirection` | kmpswipe/src/commonMain/kotlin/io/github/ismoy/kmpswipe/controllers/SwipeController.kt:78-80 | the live direction while Swiping, otherwise the last completed one, which is None exactly when no swipe has ever completed; while Swiping a non-None answer is a permitted direction |
| `SwipeLayoutModel.SwipeLayout` | kmpswipe/src/commonMain/kotlin/io/github/ismoy/kmpswipe/ui/SwipeLayout.kt:24-52 | at most one background is drawn, the content is always drawn last (on top), and each drawn background is given the reveal distance abs(offset) in Dp, which is strictly positive |
| `SwipeLayoutModel.RightShownIff` | kmpswipe/src/commonMain/kotlin/io/github/ismoy/kmpswipe/ui/SwipeLayout.kt:25-35 | the right background is drawn if and only if the offset is positive and Right is permitted |
| `SwipeLayoutModel.LeftShownIff` | kmpswipe/src/commonMain/kotlin/io/github/ismoy/kmpswipe/ui/SwipeLayout.kt:37-47 | the left background is drawn if and only if the offset is negative and Left is permitted |
| `SwipeLayoutModel.NeverBothBackgrounds` | kmpswipe/src/commonMain/kotlin/io/github/ismoy/kmpswipe/ui/SwipeLayout.kt:25-47 | the two backgrounds are never both drawn, and at offset 0 only the content is drawn |
| `KmpSwipeModel.SwipeThresholdPx` | kmpswipe/src/commonMain/kotlin/io/github/ismoy/kmpswipe/KmpSwipe.kt:76-82 | the pixel threshold is, converted back to Dp, the dynamic threshold applied to the static one when a function is given, and the static one otherwise |
| `KmpSwipeModel.KmpSwipe.constructor` | kmpswipe/src/commonMain/kotlin/io/github/ismoy/kmpswipe/KmpSwipe.kt:26-82 | with the default arguments of `KmpSwipe`, the widget starts at offset 0 with a fresh controller in its initial state and a threshold chosen by `SwipeThresholdPx` |
| `KmpSwipeModel.KmpSwipe.PerformHapticFeedback` | kmpswipe/src/commonMain/kotlin/io/github/ismoy/kmpswipe/controllers/HapticController.kt:10-14 | one vibration pulse exactly when vibration is enabled; the offset is untouched |
| `KmpSwipeModel.KmpSwipe.OnDragStart` | kmpswipe/src/commonMain/kotlin/io/github/ismoy/kmpswipe/KmpSwipe.kt:94-99 | when enabled, the controller's drag start happens (Start reported once, guard cleared); when disabled, nothing changes |
| `KmpSwipeModel.KmpSwipe.OnHorizontalDrag` | kmpswipe/src/commonMain/kotlin/io/github/ismoy/kmpswipe/KmpSwipe.kt:113-127 | the controller receives delta / resistance, the current offset and threshold × multiplier (`KmpSwipe.ClampBound`, line 119); the offset becomes the controller's answer when it is non-null and is unchanged otherwise; the widget invariant (offset within the bound, displaced only towards a permitted side) is kept; when disabled nothing changes |
| `KmpSwipeModel.KmpSwipe.OnDragEnd` | kmpswipe/src/commonMain/kotlin/io/github/ismoy/kmpswipe/KmpSwipe.kt:100-111 | the controller judges the current offset against the un-multiplied threshold (completion or fallback as in the controller); one haptic pulse exactly when abs(offset) > threshold and vibration is enabled; afterwards the offset is 0 and the current direction None whatever the outcome; when disabled nothing changes |
| `KmpSwipeModel.KmpSwipe.Render` | kmpswipe/src/commonMain/kotlin/io/github/ismoy/kmpswipe/KmpSwipe.kt:84-134 | the layout is `SwipeLayout` of the live offset and the content gets the controller's state and effective direction; with the widget invariant, at rest and while dragging a positive offset always shows the right background, a negative one the left, and 0 only the content (the spring settle is not modelled) |
| `TailorSwipeModel.TailorDragOffset` | library/src/commonMain/kotlin/TailorSwipe.kt:111-114 | the new offset lies within ±threshold×multiplier, equals offset + delta / resistance when that is in range, and the violated bound when it is not |
| `TailorSwipeModel.TailorLayout` | library/src/commonMain/kotlin/TailorSwipe.kt:57-79 | the backgrounds are chosen by sign alone: the same layers as `SwipeLayout` with both directions permitted, right if and only if the offset is positive, left if and only if it is negative |
| `TailorSwipeModel.MoveAgreesWithController` | library/src/commonMain/kotlin/TailorSwipe.kt:111-115 | with both directions permitted, the newer controller never rejects a move and produces the same offset as the older widget |
| `TailorSwipeModel.DirectionAgreesWithController` | library/src/commonMain/kotlin/TailorSwipe.kt:116-117 | for a positive bound, the direction of the clamped offset (older widget) equals that of the raw sum (newer controller) |
| `TailorSwipeModel.DirectionDisagreesAtZeroBound` | library/src/commonMain/kotlin/TailorSwipe.kt:116-117 | at a zero bound every rightward move (positive sum) is reported as Left by the older widget and as Right by the newer controller |
| `TailorSwipeModel.TailorSwipe.constructor` | library/src/commonMain/kotlin/TailorSwipe.kt:31-52 | with the default arguments of `TailorSwipe`, the widget starts at offset 0 with direction None and the threshold in pixels |
| `TailorSwipeModel.TailorSwipe.OnHorizontalDrag` | library/src/commonMain/kotlin/TailorSwipe.kt:109-119 | the offset snaps to `TailorDragOffset` with bound threshold × multiplier (`TailorSwipe.ClampBound`, lines 112-113), the direction becomes Right exactly when the new offset is positive and Left otherwise, and `onSwipe` receives that direction and the new offset in Dp |
| `TailorSwipeModel.TailorSwipe.OnDragEnd` | library/src/commonMain/kotlin/TailorSwipe.kt:86-107 | past the threshold: a vibration if enabled, then exactly one completion in the offset's direction; otherwise no effect; in all cases the offset ends at 0 and the direction at None |
| `TailorSwipeModel.TailorSwipe.Render` | library/src/commonMain/kotlin/TailorSwipe.kt:54-80 | the drawn layers are `TailorLayout` of the live offset; at rest and while dragging a Right direction always has its background drawn, and at rest only the content is drawn (the spring settle is not modelled) |
| `SwipeScenarios.RunDrag` | kmpswipe/src/commonMain/kotlin/io/github/ismoy/kmpswipe/KmpSwipe.kt:113-127 | for every sequence of moves after a drag start, each offset lies within ±threshold×multiplier and on a permitted side, and Swiping is reported at most once |
| `SwipeScenarios.LeftwardDragsIgnored` | kmpswipe/src/commonMain/kotlin/io/github/ismoy/kmpswipe/controllers/SwipeController.kt:46-50 | with only Right permitted, any sequence of leftward moves from rest leaves the offset at 0 and reports nothing after Start |
| `SwipeScenarios.CompletedRightSwipe` | kmpswipe/src/commonMain/kotlin/io/github/ismoy/kmpswipe/KmpSwipe.kt:97-128 | threshold 100 and moves +30, +40, +40 give the exact callback log: Start, Swiping once, a Right completion, End; the offset then settles to 0 |
| `SwipeScenarios.CancelledFirstSwipe` | kmpswipe/src/commonMain/kotlin/io/github/ismoy/kmpswipe/controllers/SwipeController.kt:39-42 | threshold 100 and moves +20, +10: no completion and no vibration, and the first-ever drag reports Cancelled |
| `SwipeScenarios.ResistedMove` | kmpswipe/src/commonMain/kotlin/io/github/ismoy/kmpswipe/KmpSwipe.kt:115 | resistance 2 turns a raw move of +50 into an offset of +25 |
| `SwipeScenarios.RepeatedRightSwipes` | kmpswipe/src/commonMain/kotlin/io/github/ismoy/kmpswipe/controllers/SwipeController.kt:32-43 | after two completed right swipes the idle content gets Right and two pulses have fired; a later cancelled drag reports End, the persistent state |
| `SwipeScenarios.CompleteRight` | kmpswipe/src/commonMain/kotlin/io/github/ismoy/kmpswipe/KmpSwipe.kt:97-128 | one gesture from rest with a single move past the threshold (within the bound): it completes to the right, fires one pulse, and the widget settles back to offset 0 with its invariant kept |
| `SwipeScenarios.DisabledGesture` | kmpswipe/src/commonMain/kotlin/io/github/ismoy/kmpswipe/KmpSwipe.kt:94-96 | with `enabled` false a whole gesture changes neither the offset nor the state and fires no callback |
| `SwipeScenarios.DefaultConfiguration` | kmpswipe/src/commonMain/kotlin/io/github/ismoy/kmpswipe/KmpSwipe.kt:31-43 | with the default arguments the threshold is 100, the clamp bound 150, both directions are permitted and the widget is enabled |
| `SwipeScenarios.DynamicThresholdCancels` | kmpswipe/src/commonMain/kotlin/io/github/ismoy/kmpswipe/KmpSwipe.kt:76-82 | a dynamic threshold that doubles 100 makes a drag to 150 fall short: the log ends with Cancelled and has no completion |

## Left out

- The spring physics of `AnimationController.animateToZero` (`springStiffness`, `dampingRatio`) is left out. Inside the drag-end handler the settle is modelled only by its end result, offset 0. The intermediate frames, and a new gesture interrupting a settle, are not modelled. The default `dampingRatio` (`Spring.DampingRatioMediumBouncy`, 0.5) is underdamped, so the settle overshoots past 0: for a while the card is displaced to the other side, possibly one that is not permitted, where no background is drawn, and in `TailorSwipe` the direction still names the side the drag went to. The statements about displacement and backgrounds hold at rest and while dragging only.
- Coroutine scheduling (`scope.launch`) is left out. Handlers are atomic and run in the order they are called, so snaps and settles cannot interleave.
- IEEE float semantics (NaN, infinities, rounding of `dragAmount / resistance`) are left out, because offsets are `real`. Division by a zero resistance is excluded by a precondition.
- SwipeTypes.Clamp: Kotlin's `coerceIn` throws when the lower bound exceeds the upper one. The model requires ordered bounds instead of modelling the exception.
- SwipeControllerModel.DragResult: requires a non-negative bound, for the same reason. A negative bound makes the Kotlin code throw after the direction check.
- SwipeControllerModel.SwipeController.OnHorizontalDrag: requires a non-negative clamp bound, the condition under which `coerceIn` does not throw. It also requires a positive density.
- KmpSwipeModel.KmpSwipe.OnHorizontalDrag: when enabled, requires a non-zero resistance and a non-negative threshold × multiplier. Otherwise the Kotlin code would produce an infinite or NaN delta (IEEE semantics are left out) or throw in `coerceIn`.
- TailorSwipeModel.TailorSwipe.OnHorizontalDrag: requires a non-zero resistance and a non-negative threshold × multiplier, for the same reasons.
- Compose layout is left out: `Box`, the background paddings, alignment, `matchParentSize`, `fillMaxWidth`, clipping. So is the `toInt()` truncation of the content offset into `IntOffset`. The layout keeps only which children are drawn, their order and the reveal distances.
- Density is modelled as a positive host constant (`px / density`, `dp * density`). Font scale and the rest of the host `Density` are left out.
- Recomposition with changed parameters is left out. `remember` captures the directions, callbacks and `vibrationEnabled` at first composition, and `pointerInput(enabled)` restarts detection when `enabled` changes. The model fixes all configuration at construction.
- The velocity passed to `onSwipeVelocity` is the pointer's `positionChange().x`. It is a parameter of the move handler, chosen by the host.
- In `KmpSwipe`, haptic pulses are a counter separate from the controller's callback log. So the model does not record the pulse's position relative to the completion callback. In `TailorSwipe` it does: the vibration comes before `onSwipeComplete`.
- The haptic feedback type is not modelled. It is always `LongPress`; both branches of TailorSwipe's choice pick it.
- The files that declare `SwipeDirection` and `SwipeState` are not part of this model. Their constants are the ones the controller and both widgets use.
- The build scripts (`kmpswipe/build.gradle.kts`, `library/build.gradle.kts`) are configuration with no logic.
