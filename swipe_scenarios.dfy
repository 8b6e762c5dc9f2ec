/**
 * Whole gestures run against a freshly composed `KmpSwipe`: what the host
 * observes for a sequence of drag events.
 */
module SwipeScenarios {
  import opened SwipeTypes
  import opened SwipeControllerModel
  import opened KmpSwipeModel

  /**
   * Any sequence of moves after a drag start keeps the offset within the
   * clamp bound, reports Swiping at most once, and moves only towards a
   * permitted side.
   */
  method RunDrag(swipeThreshold: real, swipeLimitMultiplier: real, resistance: real,
                 swipeDirections: set<SwipeDirection>, deltas: seq<real>)
    returns (offsets: seq<real>, swipingReports: nat)
    requires resistance != 0.0 && swipeThreshold >= 0.0 && swipeLimitMultiplier >= 0.0
    ensures |offsets| == |deltas|
    ensures forall i :: 0 <= i < |offsets| ==> Abs(offsets[i]) <= swipeThreshold * swipeLimitMultiplier
    ensures forall i :: 0 <= i < |offsets| ==> (offsets[i] > 0.0 ==> Right in swipeDirections) && (offsets[i] < 0.0 ==> Left in swipeDirections)
    ensures swipingReports <= 1
  {
    var w := new KmpSwipe(1.0, swipeThreshold, Null, resistance, swipeLimitMultiplier, true, true, swipeDirections);
    assert w.ClampBound() == swipeThreshold * swipeLimitMultiplier;
    w.OnDragStart();
    offsets := [];
    var i := 0;
    while i < |deltas|
      invariant 0 <= i <= |deltas| && |offsets| == i
      invariant w.Valid() && w.enabled && w.resistance == resistance && w.swipeDirections == swipeDirections
      invariant w.ClampBound() == swipeThreshold * swipeLimitMultiplier
      invariant forall k :: 0 <= k < i ==> Abs(offsets[k]) <= swipeThreshold * swipeLimitMultiplier
      invariant forall k :: 0 <= k < i ==> (offsets[k] > 0.0 ==> Right in swipeDirections) && (offsets[k] < 0.0 ==> Left in swipeDirections)
    {
      w.OnHorizontalDrag(deltas[i], deltas[i]);
      offsets := offsets + [w.offsetX];
      i := i + 1;
    }
    swipingReports := SwipingSinceStart(w.controller.events);
  }

  /** With Right alone permitted, leftward drags from rest are all ignored: no offset change and no Swiping. */
  method LeftwardDragsIgnored(deltas: seq<real>) returns (offset: real, events: seq<Event>)
    requires forall i :: 0 <= i < |deltas| ==> deltas[i] < 0.0
    ensures offset == 0.0
    ensures events == [StateChange(Start)]
  {
    var w := new KmpSwipe(1.0, 100.0, Null, 1.0, 1.5, true, true, {Right});
    w.OnDragStart();
    var i := 0;
    while i < |deltas|
      invariant 0 <= i <= |deltas|
      invariant w.Valid() && w.enabled && w.resistance == 1.0 && w.swipeDirections == {Right}
      invariant w.ClampBound() >= 0.0
      invariant w.offsetX == 0.0 && w.controller.events == [StateChange(Start)]
    {
      w.OnHorizontalDrag(deltas[i], deltas[i]);
      i := i + 1;
    }
    offset, events := w.offsetX, w.controller.events;
  }

  /** Threshold 100, moves +30, +40, +40, then drag end: a Right completion and the states Start, Swiping, End. */
  method CompletedRightSwipe() returns (events: seq<Event>, state: SwipeState, offset: real)
    ensures events == [StateChange(Start),
                       Swipe(Right, 30.0), StateChange(Swiping), SwipeVelocity(30.0),
                       Swipe(Right, 70.0), SwipeVelocity(40.0),
                       Swipe(Right, 110.0), SwipeVelocity(40.0),
                       SwipeComplete(Right), StateChange(End)]
    ensures state == End && offset == 0.0
  {
    var w := new KmpSwipe(1.0, 100.0, Null, 1.0, 1.5, true, true, {Left, Right});
    assert w.thresholdPx == 100.0 && w.ClampBound() == 150.0;
    w.OnDragStart();
    w.OnHorizontalDrag(30.0, 30.0);
    w.OnHorizontalDrag(40.0, 40.0);
    w.OnHorizontalDrag(40.0, 40.0);
    assert w.offsetX == 110.0;
    w.OnDragEnd();
    events, state, offset := w.controller.events, w.controller.currentSwipeState, w.offsetX;
  }

  /** Threshold 100, moves +20, +10, then drag end: no completion, and the first-ever drag reverts to Cancelled. */
  method CancelledFirstSwipe() returns (events: seq<Event>, state: SwipeState, pulses: nat)
    ensures events == [StateChange(Start),
                       Swipe(Right, 20.0), StateChange(Swiping), SwipeVelocity(20.0),
                       Swipe(Right, 30.0), SwipeVelocity(10.0),
                       StateChange(Cancelled)]
    ensures state == Cancelled && pulses == 0
  {
    var w := new KmpSwipe(1.0, 100.0, Null, 1.0, 1.5, true, true, {Left, Right});
    assert w.thresholdPx == 100.0 && w.ClampBound() == 150.0;
    w.OnDragStart();
    w.OnHorizontalDrag(20.0, 20.0);
    w.OnHorizontalDrag(10.0, 10.0);
    assert w.offsetX == 30.0;
    w.OnDragEnd();
    events, state, pulses := w.controller.events, w.controller.currentSwipeState, w.hapticPulses;
  }

  /** Resistance 2 halves a raw move of +50 to +25. */
  method ResistedMove() returns (offset: real)
    ensures offset == 25.0
  {
    var w := new KmpSwipe(1.0, 100.0, Null, 2.0, 1.5, true, true, {Left, Right});
    assert w.ClampBound() == 150.0;
    w.OnDragStart();
    w.OnHorizontalDrag(50.0, 50.0);
    offset := w.offsetX;
  }

  /**
   * Two completed right swipes: when idle the content is given Right; a
   * later cancelled drag reports End again, not Cancelled, because the
   * state falls back to the persistent one.
   */
  method RepeatedRightSwipes() returns (idleDirection: SwipeDirection, stateAfterCancel: SwipeState, pulses: nat)
    ensures idleDirection == Right
    ensures stateAfterCancel == End
    ensures pulses == 2
  {
    var w := new KmpSwipe(1.0, 100.0, Null, 1.0, 1.5, true, true, {Left, Right});
    assert w.thresholdPx == 100.0 && w.ClampBound() == 150.0;
    CompleteRight(w, 120.0);
    assert w.hapticPulses == 1;
    CompleteRight(w, 130.0);
    assert w.hapticPulses == 2;
    var frame := w.Render();
    idleDirection := frame.contentDirection;
    w.OnDragStart();
    w.OnHorizontalDrag(10.0, 10.0);
    assert w.offsetX == 10.0;
    w.OnDragEnd();
    stateAfterCancel, pulses := w.controller.currentSwipeState, w.hapticPulses;
  }

  /** One gesture that moves right past the threshold and ends there. */
  method CompleteRight(w: KmpSwipe, delta: real)
    requires w.Valid() && w.enabled && w.vibrationEnabled && Right in w.swipeDirections
    requires w.thresholdPx == 100.0 && w.ClampBound() == 150.0 && w.resistance == 1.0
    requires w.offsetX == 0.0 && 100.0 < delta <= 150.0
    modifies w, w.controller
    ensures w.Valid() && w.offsetX == 0.0 && w.hapticPulses == old(w.hapticPulses) + 1
    ensures w.controller.currentSwipeState == End && w.controller.completedDirection == Right
  {
    w.OnDragStart();
    w.OnHorizontalDrag(delta, delta);
    assert w.offsetX == delta;
    w.OnDragEnd();
  }

  /** A disabled widget installs no drag handlers: a whole gesture changes nothing. */
  method DisabledGesture() returns (offset: real, events: seq<Event>, state: SwipeState)
    ensures offset == 0.0 && events == [] && state == Start
  {
    var w := new KmpSwipe(1.0, 100.0, Null, 1.0, 1.5, true, false, {Left, Right});
    w.OnDragStart();
    w.OnHorizontalDrag(120.0, 120.0);
    w.OnDragEnd();
    offset, events, state := w.offsetX, w.controller.events, w.controller.currentSwipeState;
  }

  /** A dynamic threshold replaces the static one: doubling 100 makes a 150 offset fall short. */
  method DynamicThresholdCancels() returns (state: SwipeState, events: seq<Event>)
    ensures state == Cancelled
    ensures events == [StateChange(Start), Swipe(Right, 150.0), StateChange(Swiping), SwipeVelocity(150.0), StateChange(Cancelled)]
  {
    var w := new KmpSwipe(1.0, 100.0, Some(t => 2.0 * t), 1.0, 1.5, true, true, {Left, Right});
    assert w.thresholdPx == 200.0 && w.ClampBound() == 300.0;
    w.OnDragStart();
    w.OnHorizontalDrag(150.0, 150.0);
    w.OnDragEnd();
    state, events := w.controller.currentSwipeState, w.controller.events;
  }

  /** A widget built with the default arguments: threshold 100 Dp, clamp bound 150, both directions, enabled. */
  method DefaultConfiguration() returns (thresholdPx: real, bound: real, directions: set<SwipeDirection>, enabled: bool)
    ensures thresholdPx == 100.0 && bound == 150.0
    ensures directions == {Left, Right} && enabled
  {
    var w := new KmpSwipe(1.0);
    thresholdPx, bound, directions, enabled := w.thresholdPx, w.ClampBound(), w.swipeDirections, w.enabled;
  }
}
