/**
 * `SwipeLayout`: which backgrounds are drawn under the content, and how far
 * each is revealed. It holds no state; it is a function of the live offset.
 */
module SwipeLayoutModel {
  import opened SwipeTypes

  /** One child of the layout's box, in drawing order (later children are drawn above). */
  datatype Layer =
    | RightBackground(revealDp: real)
    | LeftBackground(revealDp: real)
    | Content

  /**
   * The children drawn for offset `offsetX`: the right background when the
   * offset is positive and Right is permitted, the left background when it
   * is negative and Left is permitted, and always the content, last.
   */
  function SwipeLayout(offsetX: real, swipeDirections: set<SwipeDirection>, density: real): (layers: seq<Layer>)
    requires density > 0.0
    ensures 1 <= |layers| <= 2 && layers[|layers| - 1] == Content
    ensures forall i :: 0 <= i < |layers| - 1 ==>
      !layers[i].Content? && layers[i].revealDp == ToDp(Abs(offsetX), density) && layers[i].revealDp > 0.0
  {
    (if offsetX > 0.0 && Right in swipeDirections then [RightBackground(ToDp(offsetX, density))] else [])
    + (if offsetX < 0.0 && Left in swipeDirections then [LeftBackground(ToDp(-offsetX, density))] else [])
    + [Content]
  }

  ghost predicate ShowsRight(layers: seq<Layer>)
  {
    exists i :: 0 <= i < |layers| && layers[i].RightBackground?
  }

  ghost predicate ShowsLeft(layers: seq<Layer>)
  {
    exists i :: 0 <= i < |layers| && layers[i].LeftBackground?
  }

  /** The right background is drawn exactly when the offset is positive and Right is permitted. */
  lemma RightShownIff(offsetX: real, swipeDirections: set<SwipeDirection>, density: real)
    requires density > 0.0
    ensures ShowsRight(SwipeLayout(offsetX, swipeDirections, density)) <==> offsetX > 0.0 && Right in swipeDirections
  {
    var layers := SwipeLayout(offsetX, swipeDirections, density);
    if offsetX > 0.0 && Right in swipeDirections {
      assert layers[0].RightBackground?;
    } else {
      assert layers == (if offsetX < 0.0 && Left in swipeDirections then [LeftBackground(ToDp(-offsetX, density))] else []) + [Content];
    }
  }

  /** The left background is drawn exactly when the offset is negative and Left is permitted. */
  lemma LeftShownIff(offsetX: real, swipeDirections: set<SwipeDirection>, density: real)
    requires density > 0.0
    ensures ShowsLeft(SwipeLayout(offsetX, swipeDirections, density)) <==> offsetX < 0.0 && Left in swipeDirections
  {
    var layers := SwipeLayout(offsetX, swipeDirections, density);
    if offsetX < 0.0 && Left in swipeDirections {
      assert layers[0].LeftBackground?;
    } else {
      assert layers == (if offsetX > 0.0 && Right in swipeDirections then [RightBackground(ToDp(offsetX, density))] else []) + [Content];
    }
  }

  /** The two backgrounds are never drawn together, and neither is drawn at rest. */
  lemma NeverBothBackgrounds(offsetX: real, swipeDirections: set<SwipeDirection>, density: real)
    requires density > 0.0
    ensures !(ShowsRight(SwipeLayout(offsetX, swipeDirections, density)) && ShowsLeft(SwipeLayout(offsetX, swipeDirections, density)))
    ensures offsetX == 0.0 ==> SwipeLayout(offsetX, swipeDirections, density) == [Content]
  {
  }
}
