/**
 * The gesture state machine of the kmpswipe widget: `SwipeController` turns
 * drag start, horizontal move and drag end into state changes and host
 * callbacks. The host callbacks are modelled as an event log.
 */
module SwipeControllerModel {
  import opened SwipeTypes

  /** One host callback, named after the constructor parameter that receives it. */
  datatype Event =
    | StateChange(state: SwipeState)                        // onSwipeStateChange
    | SwipeComplete(direction: SwipeDirection)              // onSwipeComplete
    | Swipe(direction: SwipeDirection, offsetDp: real)      // onSwipe
    | SwipeVelocity(velocity: real)                         // onSwipeVelocity

  /** How many times `Swiping` was reported since the most recent `Start` (or since the beginning). */
  function SwipingSinceStart(log: seq<Event>): nat
  {
    if log == [] then 0
    else
      var prior := SwipingSinceStart(log[..|log| - 1]);
      match log[|log| - 1]
      case StateChange(Start) => 0
      case StateChange(Swiping) => prior + 1
      case _ => prior
  }

  /** Appending one callback to the log: `Start` resets the count, `Swiping` adds one, anything else keeps it. */
  lemma SwipingSinceStartAppend(log: seq<Event>, e: Event)
    ensures SwipingSinceStart(log + [e]) ==
      if e == StateChange(Start) then 0
      else if e == StateChange(Swiping) then SwipingSinceStart(log) + 1
      else SwipingSinceStart(log)
  {
  }

  /** Appending callbacks none of which is a `Start` or `Swiping` state change leaves the count as it was. */
  lemma {:induction false} SwipingSinceStartQuiet(log: seq<Event>, more: seq<Event>)
    requires forall i :: 0 <= i < |more| ==> more[i] != StateChange(Start) && more[i] != StateChange(Swiping)
    ensures SwipingSinceStart(log + more) == SwipingSinceStart(log)
  {
    if more != [] {
      var init := more[..|more| - 1];
      SwipingSinceStartQuiet(log, init);
      assert log + more == (log + init) + [more[|more| - 1]];
      SwipingSinceStartAppend(log + init, more[|more| - 1]);
    } else {
      assert log + more == log;
    }
  }

  /**
   * What `onHorizontalDrag` returns: null when the direction of
   * `currentOffset + dragAmount` is not permitted, otherwise that sum
   * clamped to `[-threshold, threshold]`.
   */
  function DragResult(swipeDirections: set<SwipeDirection>, dragAmount: real, currentOffset: real, threshold: real): (r: Option<real>)
    requires threshold >= 0.0
    ensures r.Null? <==> SignDirection(currentOffset + dragAmount) !in swipeDirections
    ensures r.Some? ==> -threshold <= r.value <= threshold
    ensures r.Some? && -threshold <= currentOffset + dragAmount <= threshold ==> r.value == currentOffset + dragAmount
    ensures r.Some? && currentOffset + dragAmount > threshold ==> r.value == threshold
    ensures r.Some? && currentOffset + dragAmount < -threshold ==> r.value == -threshold
    ensures r.Some? && r.value > 0.0 ==> Right in swipeDirections
    ensures r.Some? && r.value < 0.0 ==> Left in swipeDirections
  {
    var direction := SignDirection(currentOffset + dragAmount);
    if direction !in swipeDirections then Null
    else Some(Clamp(currentOffset + dragAmount, -threshold, threshold))
  }

  class SwipeController {
    /** The permitted directions, fixed when the controller is created. */
    const swipeDirections: set<SwipeDirection>

    var currentDirection: SwipeDirection
    var completedDirection: SwipeDirection
    var currentSwipeState: SwipeState
    var persistentSwipeState: SwipeState
    var swipingStateEmitted: bool

    /** Every host callback fired so far, oldest first. */
    var events: seq<Event>

    /**
     * The controller's invariant: the persistent state is End or Cancelled,
     * and End exactly when a swipe has completed; the current direction is
     * None or permitted; and the one-shot guard is set exactly when Swiping
     * has been reported since the last Start, so it is reported at most once.
     */
    ghost predicate Valid()
      reads this
    {
      && (persistentSwipeState == End || persistentSwipeState == Cancelled)
      && (persistentSwipeState == End <==> completedDirection != None)
      && (currentDirection == None || currentDirection in swipeDirections)
      && (currentSwipeState == Swiping ==> swipingStateEmitted)
      && SwipingSinceStart(events) == (if swipingStateEmitted then 1 else 0)
    }

    constructor (swipeDirections: set<SwipeDirection>)
      ensures Valid()
      ensures this.swipeDirections == swipeDirections
      ensures currentDirection == None && completedDirection == None
      ensures currentSwipeState == Start && persistentSwipeState == Cancelled
      ensures !swipingStateEmitted && events == []
    {
      this.swipeDirections := swipeDirections;
      currentDirection := None;
      completedDirection := None;
      currentSwipeState := Start;
      persistentSwipeState := Cancelled;
      swipingStateEmitted := false;
      events := [];
    }

    /** Drag start: the state becomes Start, Start is reported once, and the guard is cleared. */
    method OnDragStart()
      requires Valid()
      modifies this
      ensures Valid()
      ensures currentSwipeState == Start && !swipingStateEmitted
      ensures events == old(events) + [StateChange(Start)]
      ensures currentDirection == old(currentDirection) && completedDirection == old(completedDirection)
      ensures persistentSwipeState == old(persistentSwipeState)
    {
      SwipingSinceStartAppend(events, StateChange(Start));
      currentSwipeState := Start;
      events := events + [StateChange(Start)];
      swipingStateEmitted := false;
    }

    /**
     * Drag end: past the threshold the swipe completes in the direction of
     * the offset's sign; otherwise the state falls back to the persistent one.
     */
    method OnDragEnd(offsetX: real, threshold: real)
      requires Valid()
      modifies this
      ensures Valid()
      ensures Abs(offsetX) > threshold ==>
        && completedDirection == SignDirection(offsetX)
        && currentSwipeState == End && persistentSwipeState == End
        && events == old(events) + [SwipeComplete(SignDirection(offsetX)), StateChange(End)]
      ensures Abs(offsetX) <= threshold ==>
        && currentSwipeState == old(persistentSwipeState)
        && persistentSwipeState == old(persistentSwipeState)
        && completedDirection == old(completedDirection)
        && events == old(events) + [StateChange(old(persistentSwipeState))]
      ensures currentDirection == old(currentDirection) && swipingStateEmitted == old(swipingStateEmitted)
    {
      if Abs(offsetX) > threshold {
        completedDirection := if offsetX > 0.0 then Right else Left;
        SwipingSinceStartQuiet(events, [SwipeComplete(completedDirection), StateChange(End)]);
        events := events + [SwipeComplete(completedDirection)];
        currentSwipeState := End;
        persistentSwipeState := End;
        events := events + [StateChange(End)];
      } else {
        SwipingSinceStartAppend(events, StateChange(persistentSwipeState));
        currentSwipeState := persistentSwipeState;
        events := events + [StateChange(persistentSwipeState)];
      }
    }

    /**
     * Horizontal move. A move towards a direction that is not permitted
     * changes nothing and fires nothing; an accepted one records the
     * direction, reports the clamped offset, reports Swiping the first time
     * since drag start, reports the velocity, and returns the offset.
     */
    method OnHorizontalDrag(dragAmount: real, currentOffset: real, threshold: real, density: real, velocityX: real)
      returns (newOffset: Option<real>)
      requires Valid()
      requires threshold >= 0.0 && density > 0.0
      modifies this
      ensures Valid()
      ensures newOffset == DragResult(swipeDirections, dragAmount, currentOffset, threshold)
      ensures newOffset.Null? ==> unchanged(this)
      ensures newOffset.Some? ==>
        && currentDirection == SignDirection(currentOffset + dragAmount)
        && currentSwipeState == (if old(swipingStateEmitted) then old(currentSwipeState) else Swiping)
        && swipingStateEmitted
        && events == old(events)
                     + [Swipe(currentDirection, ToDp(newOffset.value, density))]
                     + (if old(swipingStateEmitted) then [] else [StateChange(Swiping)])
                     + [SwipeVelocity(velocityX)]
      ensures completedDirection == old(completedDirection) && persistentSwipeState == old(persistentSwipeState)
    {
      var direction := if currentOffset + dragAmount > 0.0 then Right else Left;
      if direction !in swipeDirections {
        return Null;
      }
      currentDirection := direction;
      var clamped := Clamp(currentOffset + dragAmount, -threshold, threshold);
      SwipingSinceStartAppend(events, Swipe(direction, ToDp(clamped, density)));
      events := events + [Swipe(direction, ToDp(clamped, density))];
      if !swipingStateEmitted {
        SwipingSinceStartAppend(events, StateChange(Swiping));
        currentSwipeState := Swiping;
        events := events + [StateChange(Swiping)];
        swipingStateEmitted := true;
      }
      SwipingSinceStartAppend(events, SwipeVelocity(velocityX));
      events := events + [SwipeVelocity(velocityX)];
      newOffset := Some(clamped);
    }

    /** Forgets the in-progress direction; a second reset changes nothing. */
    method ResetDirection()
      requires Valid()
      modifies this
      ensures Valid()
      ensures currentDirection == None
      ensures completedDirection == old(completedDirection) && currentSwipeState == old(currentSwipeState)
      ensures persistentSwipeState == old(persistentSwipeState) && swipingStateEmitted == old(swipingStateEmitted)
      ensures events == old(events)
      ensures old(currentDirection) == None ==> unchanged(this)
    {
      currentDirection := None;
    }

    /**
     * The direction handed to the content: the live one while Swiping,
     * otherwise that of the last completed swipe, which is None exactly when
     * no swipe has completed yet.
     */
    method GetEffectiveDirection() returns (d: SwipeDirection)
      requires Valid()
      ensures currentSwipeState == Swiping ==> d == currentDirection
      ensures currentSwipeState != Swiping ==> d == completedDirection
      ensures currentSwipeState != Swiping ==> (d == None <==> persistentSwipeState == Cancelled)
      ensures currentSwipeState == Swiping && d != None ==> d in swipeDirections
    {
      d := if currentSwipeState == Swiping then currentDirection else completedDirection;
    }
  }
}
