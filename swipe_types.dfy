/** Values and small arithmetic shared by both generations of the swipe widget. */
module SwipeTypes {

  /** Direction of an in-progress or just-completed swipe. */
  datatype SwipeDirection = None | Left | Right

  /** Lifecycle phase of one drag interaction. */
  datatype SwipeState = Start | Swiping | End | Cancelled

  /** Kotlin's nullable `T?`: `Null` is the absent value. */
  datatype Option<+T> = Null | Some(value: T)

  /** `kotlin.math.abs` on offsets. */
  function Abs(x: real): (r: real)
    ensures r >= 0.0
    ensures r == x || r == -x
  {
    if x < 0.0 then -x else x
  }

  /** The direction both widgets read off a signed offset: `Right` when positive, `Left` otherwise (zero included). */
  function SignDirection(x: real): (d: SwipeDirection)
    ensures d != None
    ensures d == Right <==> x > 0.0
  {
    if x > 0.0 then Right else Left
  }

  /** Kotlin's `coerceIn(lo, hi)`; Kotlin throws when `lo > hi`, so the bounds must be ordered. */
  function Clamp(x: real, lo: real, hi: real): (r: real)
    requires lo <= hi
    ensures lo <= r <= hi
    ensures lo <= x <= hi ==> r == x
    ensures x < lo ==> r == lo
    ensures x > hi ==> r == hi
  {
    if x < lo then lo else if x > hi then hi else x
  }

  /** Pixels to density-independent length, as the host's `Density.toDp` does. */
  function ToDp(px: real, density: real): (dp: real)
    requires density > 0.0
    ensures dp > 0.0 <==> px > 0.0
    ensures dp < 0.0 <==> px < 0.0
  {
    px / density
  }

  /** Density-independent length to pixels, as the host's `Dp.toPx` does. */
  function ToPx(dp: real, density: real): (px: real)
    requires density > 0.0
    ensures ToDp(px, density) == dp
  {
    dp * density
  }
}
