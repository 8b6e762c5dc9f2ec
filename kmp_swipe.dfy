/**
 * The `KmpSwipe` widget: it owns one `SwipeController`, the live offset and
 * a haptic gate, and wires the drag gestures to them. The settle animation
 * is its end result, `offset := 0`; a snap is an assignment.
 */
module KmpSwipeModel {
  import opened SwipeTypes
  import opened SwipeControllerModel
  import opened SwipeLayoutModel

  /**
   * The completion threshold in pixels: the dynamic threshold applied to the
   * static one when a function is supplied, otherwise the static one.
   */
  function SwipeThresholdPx(swipeThreshold: real, dynamicSwipeThreshold: Option<real -> real>, density: real): (px: real)
    requires density > 0.0
    ensures ToDp(px, density) == (if dynamicSwipeThreshold.Some? then dynamicSwipeThreshold.value(swipeThreshold) else swipeThreshold)
  {
    if dynamicSwipeThreshold.Some? then ToPx(dynamicSwipeThreshold.value(swipeThreshold), density)
    else ToPx(swipeThreshold, density)
  }

  /** What one composition draws: the layout's children and the arguments the content receives. */
  datatype Frame = Frame(layers: seq<Layer>, contentState: SwipeState, contentDirection: SwipeDirection)

  class KmpSwipe {
    const controller: SwipeController
    const swipeDirections: set<SwipeDirection>
    /** The completion threshold in pixels. */
    const thresholdPx: real
    const resistance: real
    const swipeLimitMultiplier: real
    const vibrationEnabled: bool
    const enabled: bool
    const density: real

    /** The live offset, in pixels. */
    var offsetX: real
    /** Platform vibration pulses fired so far. */
    var hapticPulses: nat

    /**
     * The widget's invariant: the controller is valid and filters by the same
     * directions; the offset is at rest or within the clamp bound; it is only
     * ever displaced towards a permitted side; and, for a non-negative
     * threshold, only a permitted direction is ever completed.
     */
    ghost predicate Valid()
      reads this, controller
    {
      && controller.Valid()
      && controller.swipeDirections == swipeDirections
      && density > 0.0
      && (offsetX == 0.0 || Abs(offsetX) <= thresholdPx * swipeLimitMultiplier)
      && (offsetX > 0.0 ==> Right in swipeDirections)
      && (offsetX < 0.0 ==> Left in swipeDirections)
      && (thresholdPx >= 0.0 ==> controller.completedDirection == None || controller.completedDirection in swipeDirections)
    }

    /**
     * Unless given, the Kotlin defaults of `KmpSwipe`: 100 Dp, no dynamic threshold,
     * resistance 1, multiplier 1.5, vibration on, enabled, both directions.
     */
    constructor (density: real, swipeThreshold: real := 100.0, dynamicSwipeThreshold: Option<real -> real> := Null,
                 resistance: real := 1.0, swipeLimitMultiplier: real := 1.5, vibrationEnabled: bool := true,
                 enabled: bool := true, swipeDirections: set<SwipeDirection> := {Left, Right})
      requires density > 0.0
      ensures Valid() && fresh(controller)
      ensures thresholdPx == SwipeThresholdPx(swipeThreshold, dynamicSwipeThreshold, density)
      ensures this.resistance == resistance && this.swipeLimitMultiplier == swipeLimitMultiplier
      ensures this.vibrationEnabled == vibrationEnabled && this.enabled == enabled
      ensures this.swipeDirections == swipeDirections && this.density == density
      ensures offsetX == 0.0 && hapticPulses == 0
      ensures controller.currentSwipeState == Start && controller.persistentSwipeState == Cancelled
      ensures controller.currentDirection == None && controller.completedDirection == None
      ensures !controller.swipingStateEmitted && controller.events == []
    {
      controller := new SwipeController(swipeDirections);
      thresholdPx := SwipeThresholdPx(swipeThreshold, dynamicSwipeThreshold, density);
      this.resistance := resistance;
      this.swipeLimitMultiplier := swipeLimitMultiplier;
      this.vibrationEnabled := vibrationEnabled;
      this.enabled := enabled;
      this.swipeDirections := swipeDirections;
      this.density := density;
      offsetX := 0.0;
      hapticPulses := 0;
    }

    /** The clamp bound handed to the controller while dragging. */
    function ClampBound(): real
      reads this
    {
      thresholdPx * swipeLimitMultiplier
    }

    /** The haptic gate: one pulse when vibration is enabled, nothing otherwise. */
    method PerformHapticFeedback()
      requires Valid()
      modifies this
      ensures Valid()
      ensures hapticPulses == old(hapticPulses) + (if vibrationEnabled then 1 else 0)
      ensures offsetX == old(offsetX)
    {
      if vibrationEnabled {
        hapticPulses := hapticPulses + 1;
      }
    }

    /** Drag start is forwarded to the controller; without `enabled` no handler is installed. */
    method OnDragStart()
      requires Valid()
      modifies controller
      ensures Valid()
      ensures !enabled ==> unchanged(controller)
      ensures enabled ==>
        && controller.currentSwipeState == Start && !controller.swipingStateEmitted
        && controller.events == old(controller.events) + [StateChange(Start)]
        && controller.currentDirection == old(controller.currentDirection)
        && controller.completedDirection == old(controller.completedDirection)
        && controller.persistentSwipeState == old(controller.persistentSwipeState)
    {
      if enabled {
        controller.OnDragStart();
      }
    }

    /**
     * A move: the delta is divided by the resistance, the controller clamps
     * against threshold times multiplier, and the offset snaps to the
     * controller's answer only when it is not null.
     */
    method OnHorizontalDrag(dragAmount: real, positionChangeX: real)
      requires Valid()
      requires enabled ==> resistance != 0.0 && ClampBound() >= 0.0
      modifies this, controller
      ensures Valid()
      ensures !enabled ==> unchanged(this) && unchanged(controller)
      ensures enabled ==>
        var r := DragResult(swipeDirections, dragAmount / resistance, old(offsetX), ClampBound());
        && offsetX == (if r.Some? then r.value else old(offsetX))
        && (r.Null? ==> unchanged(controller))
        && (r.Some? ==>
              && controller.currentDirection == SignDirection(old(offsetX) + dragAmount / resistance)
              && controller.swipingStateEmitted
              && controller.events == old(controller.events)
                   + [Swipe(controller.currentDirection, ToDp(r.value, density))]
                   + (if old(controller.swipingStateEmitted) then [] else [StateChange(Swiping)])
                   + [SwipeVelocity(positionChangeX)]
              && controller.currentSwipeState ==
                   (if old(controller.swipingStateEmitted) then old(controller.currentSwipeState) else Swiping))
      ensures controller.completedDirection == old(controller.completedDirection)
      ensures controller.persistentSwipeState == old(controller.persistentSwipeState)
      ensures hapticPulses == old(hapticPulses)
    {
      if enabled {
        var adjustedDragAmount := dragAmount / resistance;
        var newOffset := controller.OnHorizontalDrag(adjustedDragAmount, offsetX, ClampBound(), density, positionChangeX);
        if newOffset.Some? {
          offsetX := newOffset.value;
        }
      }
    }

    /**
     * Drag end: the controller judges the current offset against the
     * un-multiplied threshold, a haptic pulse is requested past the
     * threshold, the offset settles to 0 and the direction is reset.
     */
    method OnDragEnd()
      requires Valid()
      modifies this, controller
      ensures Valid()
      ensures !enabled ==> unchanged(this) && unchanged(controller)
      ensures enabled ==> offsetX == 0.0 && controller.currentDirection == None
      ensures enabled ==>
        hapticPulses == old(hapticPulses) + (if Abs(old(offsetX)) > thresholdPx && vibrationEnabled then 1 else 0)
      ensures enabled && Abs(old(offsetX)) > thresholdPx ==>
        && controller.completedDirection == SignDirection(old(offsetX))
        && controller.currentSwipeState == End && controller.persistentSwipeState == End
        && controller.events == old(controller.events) + [SwipeComplete(SignDirection(old(offsetX))), StateChange(End)]
      ensures enabled && Abs(old(offsetX)) <= thresholdPx ==>
        && controller.currentSwipeState == old(controller.persistentSwipeState)
        && controller.persistentSwipeState == old(controller.persistentSwipeState)
        && controller.completedDirection == old(controller.completedDirection)
        && controller.events == old(controller.events) + [StateChange(old(controller.persistentSwipeState))]
      ensures controller.swipingStateEmitted == old(controller.swipingStateEmitted)
    {
      if enabled {
        controller.OnDragEnd(offsetX, thresholdPx);
        if Abs(offsetX) > thresholdPx {
          PerformHapticFeedback();
        }
        offsetX := 0.0;
        controller.ResetDirection();
      }
    }

    /**
     * One composition: the layout for the live offset, and the content given
     * the controller's state and effective direction. At rest and while
     * dragging, a displaced card has the background of the side it moved
     * towards drawn; the frames of the spring settle are not modelled.
     */
    method Render() returns (f: Frame)
      requires Valid()
      ensures f.layers == SwipeLayout(offsetX, swipeDirections, density)
      ensures f.contentState == controller.currentSwipeState
      ensures controller.currentSwipeState == Swiping ==> f.contentDirection == controller.currentDirection
      ensures controller.currentSwipeState != Swiping ==> f.contentDirection == controller.completedDirection
      ensures offsetX > 0.0 ==> ShowsRight(f.layers)
      ensures offsetX < 0.0 ==> ShowsLeft(f.layers)
      ensures offsetX == 0.0 ==> f.layers == [Content]
    {
      var direction := controller.GetEffectiveDirection();
      var layers := SwipeLayout(offsetX, swipeDirections, density);
      RightShownIff(offsetX, swipeDirections, density);
      LeftShownIff(offsetX, swipeDirections, density);
      NeverBothBackgrounds(offsetX, swipeDirections, density);
      f := Frame(layers, controller.currentSwipeState, direction);
    }
  }
}
