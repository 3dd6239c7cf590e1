/** Tick counts in 32-bit signed integers, as the kernel keeps them. */
module Ticks {
  const HALF: int := 0x8000_0000
  const FULL: int := 0x1_0000_0000

  /** The value of x in a 32-bit signed integer. */
  function Wrap(x: int): (r: int)
    ensures -HALF <= r < HALF
    ensures -HALF <= x < HALF ==> r == x
  {
    (x + HALF) % FULL - HALF
  }

  lemma {:induction false} WrapShift(x: int, k: int)
    ensures Wrap(x + k * FULL) == Wrap(x)
  {
    assert (x + HALF + k * FULL) % FULL == (x + HALF) % FULL;
  }

  /** Wrapping operands first does not change a wrapped difference. */
  lemma {:induction false} WrapDifference(a: int, b: int)
    ensures Wrap(Wrap(a) - Wrap(b)) == Wrap(a - b)
    ensures Wrap(Wrap(a) - b) == Wrap(a - b)
  {
    var ka, kb := (a + HALF) / FULL, (b + HALF) / FULL;
    assert Wrap(a) == a - ka * FULL && Wrap(b) == b - kb * FULL;
    assert Wrap(a) - Wrap(b) == (a - b) + (kb - ka) * FULL;
    WrapShift(a - b, kb - ka);
    WrapShift(a - b, -ka);
  }

  /** The signed test `timeout - ticks < 0` on wrapped values is the true comparison exactly
    when the distance is within 2^31; for the next 2^31 on either side it is the opposite. */
  lemma {:induction false} SignedTestIsTrueComparison(deadline: int, now: int)
    requires -FULL < deadline - now < FULL
    ensures (Wrap(Wrap(deadline) - Wrap(now)) < 0 <==> deadline < now) <==> -HALF <= deadline - now < HALF
    ensures -HALF <= deadline - now < HALF ==> Wrap(Wrap(deadline) - Wrap(now)) == deadline - now
  {
    WrapDifference(deadline, now);
    var d := deadline - now;
    if d < -HALF { WrapShift(d, 1); }
    if d >= HALF { WrapShift(d, -1); }
  }

  /** A distance below 2^32 that tests negative is a deadline that has passed, or one that is at least
    2^31 ahead. */
  lemma {:induction false} NegativeTest(d: int)
    requires d < FULL && Wrap(d) < 0
    ensures d < 0 <==> d < HALF
  {
  }

  /** The distances ahead that test negative. */
  lemma {:induction false} FarTestsNegative(d: int)
    requires HALF <= d < FULL
    ensures Wrap(d) < 0
  {
    WrapShift(d, -1);
  }
}
