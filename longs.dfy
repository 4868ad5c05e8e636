/**
 * Java's `long`: 64-bit two's complement integers whose arithmetic wraps
 * around.  Time readings and the elapsed time of a timer are `long`s.
 */
module Longs {

  const TWO_63: int := 0x8000_0000_0000_0000
  const TWO_64: int := 0x1_0000_0000_0000_0000

  type Long = x: int | -0x8000_0000_0000_0000 <= x < 0x8000_0000_0000_0000

  /** The `long` a Java `+` or `-` yields when its exact result is `x`. */
  function Wrap(x: int): (r: Long)
    ensures -TWO_63 <= x < TWO_63 ==> r == x
  {
    (x + TWO_63) % TWO_64 - TWO_63
  }

  /** Wrapping changes the exact result by a multiple of 2^64 only. */
  lemma WrapDiffersByMultiple(x: int)
    ensures (x - Wrap(x)) % TWO_64 == 0
  {
  }

  /**
   * A clock that advanced by `step` between two readings yields `step` as the
   * difference of the readings, even when the second reading wrapped around.
   */
  lemma ElapsedIsStep(start: Long, step: Long)
    ensures Wrap(Wrap(start + step) - start) == step
  {
  }
}
