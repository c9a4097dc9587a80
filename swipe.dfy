/** The integer part of the slide transition: the horizontal offset a
    section enters from and exits to, chosen by the sign of the direction.
    The spring physics and opacity values are not part of this model. */
module Swipe {

  /** Magnitude, in pixels, of the horizontal slide. */
  const Offset: int := 12

  /** `swipe.enter(d).x`: a section entering while moving forward comes in
      from the right, otherwise from the left. */
  function EnterX(d: int): (x: int)
    ensures x == Offset || x == -Offset
    ensures x > 0 <==> d > 0
  {
    if d > 0 then Offset else -Offset
  }

  /** `swipe.exit(d).x`: a section leaving while moving backward goes out
      to the right, otherwise to the left. */
  function ExitX(d: int): (x: int)
    ensures x == Offset || x == -Offset
    ensures x > 0 <==> d < 0
  {
    if d < 0 then Offset else -Offset
  }

  /** For every direction the navigator can hold, the leaving section moves
      opposite to where the entering one came from, so both slide the same way. */
  lemma ExitMirrorsEnter(d: int)
    requires d == 1 || d == -1
    ensures ExitX(d) == -EnterX(d)
    ensures d == 1 ==> EnterX(d) == Offset && ExitX(d) == -Offset
    ensures d == -1 ==> EnterX(d) == -Offset && ExitX(d) == Offset
  {
  }

  /** The mirror property needs a nonzero sign: at 0 both offsets are -12. */
  lemma ZeroIsNotMirrored()
    ensures EnterX(0) == -Offset && ExitX(0) == -Offset
    ensures ExitX(0) != -EnterX(0)
  {
  }
}
