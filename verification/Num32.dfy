/** The 32-bit circular numbers of fillp and their comparison (src/proto/fillp_frame.c). */
module Num32 {
  import opened Bytes

  const HALF: int := 0x8000_0000
  const MOD: int := 0x1_0000_0000

  /** The 32-bit image of an unbounded counter. */
  function Wrap(n: int): u32 {
    n % 0x1_0000_0000
  }

  function Add32(a: u32, b: u32): u32 {
    if a + b < 0x1_0000_0000 then a + b else a + b - 0x1_0000_0000
  }

  function Sub32(a: u32, b: u32): u32 {
    if a < b then a - b + 0x1_0000_0000 else a - b
  }

  /** The cast of an unsigned 32-bit value to a signed one. */
  function AsSigned(a: u32): int {
    if a < 0x8000_0000 then a else a - 0x1_0000_0000
  }

  predicate IsBigger(a: u32, b: u32) {
    AsSigned(Sub32(a, b)) > 0
  }

  /** Distances survive wrapping. */
  lemma SubWrap(a: int, b: int)
    ensures Sub32(Wrap(a), Wrap(b)) == Wrap(a - b)
  {
  }

  lemma AddWrap(a: int, b: nat)
    requires b < MOD
    ensures Add32(Wrap(a), b) == Wrap(a + b)
  {
  }

  /**
   * Within one turn of the counter the circular test agrees with the true order
   * exactly when the true distance fits a signed 32-bit value.
   */
  lemma {:induction false} IsBiggerExact(a: int, b: int)
    requires -MOD < a - b < MOD
    ensures (IsBigger(Wrap(a), Wrap(b)) <==> a > b) <==> -HALF <= a - b < HALF
  {
    SubWrap(a, b);
  }

  /** Without any bound: the circular test sees the difference modulo one turn. */
  lemma IsBiggerWrapped(a: int, b: int)
    ensures IsBigger(Wrap(a), Wrap(b)) <==> 0 < (a - b) % MOD < HALF
  {
    SubWrap(a, b);
  }

  /** Equal images of numbers less than one turn apart are the same number. */
  lemma WrapInjective(a: int, b: int)
    requires -MOD < a - b < MOD && Wrap(a) == Wrap(b)
    ensures a == b
  {
  }

  /** The other way round the circle. */
  lemma AroundCircle(a: u32, b: u32)
    ensures Sub32(a, b) == if Sub32(b, a) == 0 then 0 else MOD - Sub32(b, a)
    ensures IsBigger(a, b) <==> Sub32(b, a) > HALF
    ensures a == Add32(b, 1) <==> Sub32(b, a) == MOD - 1
  {
  }

  /** The number at or below `at` whose image is `num`: what `num` stood for when `at` was current. */
  function Unwrap(at: int, num: u32): int {
    at - Sub32(Wrap(at), num)
  }

  lemma UnwrapBelow(at: int, t: int)
    requires 0 <= at - t < MOD
    ensures Unwrap(at, Wrap(t)) == t
  {
    SubWrap(at, t);
  }

  lemma WrapUnwrap(at: int, num: u32)
    ensures Wrap(Unwrap(at, num)) == num
  {
  }

  /** The number at or above `base` whose image is `num`. */
  function Ahead(base: int, num: u32): int {
    base + Sub32(num, Wrap(base))
  }

  lemma AheadOf(base: int, t: int)
    requires 0 <= t - base < MOD
    ensures Ahead(base, Wrap(t)) == t
  {
    SubWrap(t, base);
  }

  /** Moving the base past nothing but itself keeps what every other number stands for. */
  lemma AheadStep(base: int, num: u32)
    requires num != Wrap(base)
    ensures Ahead(base + 1, num) == Ahead(base, num)
  {
  }
}
