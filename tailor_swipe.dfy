/**
 * `TailorSwipe`, the older widget: the same gesture pipeline written inline,
 * with no state machine and no direction filter.
 */
module TailorSwipeModel {
  import opened SwipeTypes
  import opened SwipeLayoutModel
  import SwipeControllerModel

  /** One host effect, in the order the widget produces them. */
  datatype TailorEvent =
    | TailorSwipeMoved(direction: SwipeDirection, offsetDp: real)  // onSwipe
    | TailorSwipeComplete(direction: SwipeDirection)               // onSwipeComplete
    | TailorHaptic                                                 // the LongPress vibration

  /**
   * The offset after a move: the resisted delta added to the offset and
   * clamped to `[-bound, bound]`.
   */
  function TailorDragOffset(offsetX: real, dragAmount: real, resistance: real, bound: real): (r: real)
    requires resistance != 0.0 && bound >= 0.0
    ensures -bound <= r <= bound
    ensures -bound <= offsetX + dragAmount / resistance <= bound ==> r == offsetX + dragAmount / resistance
    ensures offsetX + dragAmount / resistance > bound ==> r == bound
    ensures offsetX + dragAmount / resistance < -bound ==> r == -bound
  {
    Clamp(offsetX + dragAmount / resistance, -bound, bound)
  }

  /** The backgrounds are chosen by sign alone: the layout with both directions permitted. */
  function TailorLayout(offsetX: real, density: real): (layers: seq<Layer>)
    requires density > 0.0
    ensures layers == SwipeLayout(offsetX, {Left, Right}, density)
    ensures ShowsRight(layers) <==> offsetX > 0.0
    ensures ShowsLeft(layers) <==> offsetX < 0.0
  {
    RightShownIff(offsetX, {Left, Right}, density);
    LeftShownIff(offsetX, {Left, Right}, density);
    (if offsetX > 0.0 then [RightBackground(ToDp(offsetX, density))] else [])
    + (if offsetX < 0.0 then [LeftBackground(ToDp(-offsetX, density))] else [])
    + [Content]
  }

  /**
   * With both directions permitted, the newer controller moves the offset
   * exactly as the older widget does.
   */
  lemma MoveAgreesWithController(offsetX: real, dragAmount: real, resistance: real, bound: real)
    requires resistance != 0.0 && bound >= 0.0
    ensures SwipeControllerModel.DragResult({Left, Right}, dragAmount / resistance, offsetX, bound)
            == Some(TailorDragOffset(offsetX, dragAmount, resistance, bound))
  {
  }

  /**
   * The older widget reads the direction off the clamped offset, the newer
   * one off the raw sum: for a positive bound they agree.
   */
  lemma DirectionAgreesWithController(sum: real, bound: real)
    requires bound > 0.0
    ensures SignDirection(Clamp(sum, -bound, bound)) == SignDirection(sum)
  {
  }

  /** At a zero bound they disagree: a rightward move is reported as Left here and as Right by the controller. */
  lemma DirectionDisagreesAtZeroBound(sum: real)
    requires sum > 0.0
    ensures SignDirection(Clamp(sum, -0.0, 0.0)) == Left
    ensures SignDirection(sum) == Right
  {
  }

  class TailorSwipe {
    /** The completion threshold in pixels. */
    const thresholdPx: real
    const resistance: real
    const swipeLimitMultiplier: real
    const vibrationEnabled: bool
    const density: real

    /** The live offset, in pixels. */
    var offsetX: real
    var direction: SwipeDirection
    /** Every host effect so far, oldest first. */
    var events: seq<TailorEvent>

    /**
     * The widget's invariant: the offset is at rest or within the clamp
     * bound, and the direction is None only at rest and otherwise the
     * offset's sign.
     */
    ghost predicate Valid()
      reads this
    {
      && density > 0.0
      && (offsetX == 0.0 || Abs(offsetX) <= thresholdPx * swipeLimitMultiplier)
      && (direction == None ==> offsetX == 0.0)
      && (direction != None ==> direction == SignDirection(offsetX))
    }

    /** Unless given, the Kotlin defaults of `TailorSwipe`: 100 Dp, resistance 1, multiplier 1.5, vibration on. */
    constructor (density: real, swipeThreshold: real := 100.0, resistance: real := 1.0,
                 swipeLimitMultiplier: real := 1.5, vibrationEnabled: bool := true)
      requires density > 0.0
      ensures Valid()
      ensures thresholdPx == ToPx(swipeThreshold, density)
      ensures this.resistance == resistance && this.swipeLimitMultiplier == swipeLimitMultiplier
      ensures this.vibrationEnabled == vibrationEnabled && this.density == density
      ensures offsetX == 0.0 && direction == None && events == []
    {
      thresholdPx := ToPx(swipeThreshold, density);
      this.resistance := resistance;
      this.swipeLimitMultiplier := swipeLimitMultiplier;
      this.vibrationEnabled := vibrationEnabled;
      this.density := density;
      offsetX := 0.0;
      direction := None;
      events := [];
    }

    function ClampBound(): real
      reads this
    {
      thresholdPx * swipeLimitMultiplier
    }

    /**
     * A move: the offset snaps to the clamped, resisted sum, the direction
     * becomes that offset's sign, and `onSwipe` receives both.
     */
    method OnHorizontalDrag(dragAmount: real)
      requires Valid()
      requires resistance != 0.0 && ClampBound() >= 0.0
      modifies this
      ensures Valid()
      ensures offsetX == TailorDragOffset(old(offsetX), dragAmount, resistance, ClampBound())
      ensures direction == SignDirection(offsetX)
      ensures events == old(events) + [TailorSwipeMoved(direction, ToDp(offsetX, density))]
    {
      var newOffset := Clamp(offsetX + dragAmount / resistance, -ClampBound(), ClampBound());
      offsetX := newOffset;
      direction := if newOffset > 0.0 then Right else Left;
      events := events + [TailorSwipeMoved(direction, ToDp(newOffset, density))];
    }

    /**
     * Drag end: past the threshold a vibration (when enabled) and then one
     * completion in the offset's direction; in every case the offset settles
     * to 0 and the direction is cleared.
     */
    method OnDragEnd()
      requires Valid()
      modifies this
      ensures Valid()
      ensures offsetX == 0.0 && direction == None
      ensures Abs(old(offsetX)) > thresholdPx ==>
        events == old(events) + (if vibrationEnabled then [TailorHaptic] else []) + [TailorSwipeComplete(SignDirection(old(offsetX)))]
      ensures Abs(old(offsetX)) <= thresholdPx ==> events == old(events)
    {
      if Abs(offsetX) > thresholdPx {
        var swipeDir := if offsetX > 0.0 then Right else Left;
        if vibrationEnabled {
          events := events + [TailorHaptic];
        }
        events := events + [TailorSwipeComplete(swipeDir)];
      }
      offsetX := 0.0;
      direction := None;
    }

    /** One composition: the backgrounds by the sign of the live offset, then the content. */
    method Render() returns (layers: seq<Layer>)
      requires Valid()
      ensures layers == TailorLayout(offsetX, density)
      ensures direction == Right ==> ShowsRight(layers)
      ensures direction == Left && offsetX < 0.0 ==> ShowsLeft(layers)
      ensures direction == None ==> layers == [Content]
    {
      layers := TailorLayout(offsetX, density);
      NeverBothBackgrounds(offsetX, {Left, Right}, density);
    }
  }
}
