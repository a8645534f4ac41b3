/** Kotlin numeric primitives the animation engine relies on, over unbounded
    `int` and exact `real`: integer division by two (which truncates toward
    zero), `Float.toInt()` (which truncates toward zero) and the
    `coerceAtLeast` / `coerceAtMost` clamps. */
module KotlinNumbers {

  /** Kotlin's nullable result, used where the source either produces a value or does not. */
  datatype Option<T> = None | Some(value: T)

  function Abs(x: int): nat {
    if x < 0 then -x else x
  }

  /** Kotlin `a / 2` on `Int`: the quotient is truncated toward zero,
      unlike Dafny's Euclidean `/` on negative operands. */
  function Half(a: int): (h: int)
    ensures a >= 0 ==> 0 <= h && (a == 2 * h || a == 2 * h + 1)
    ensures a < 0 ==> h <= 0 && (a == 2 * h || a == 2 * h - 1)
  {
    if a >= 0 then a / 2 else -((-a) / 2)
  }

  /** Kotlin `Float.toInt()`: rounds toward zero. */
  function Trunc(x: real): (t: int)
    ensures x >= 0.0 ==> 0 <= t && t as real <= x < t as real + 1.0
    ensures x < 0.0 ==> t <= 0 && t as real - 1.0 < x <= t as real
  {
    if x >= 0.0 then x.Floor else -((-x).Floor)
  }

  /** `Int.MAX_VALUE` and `Int.MIN_VALUE`: where `Float.toInt()` sends
      positive and negative infinity. */
  const IntMaxValue := 0x7fff_ffff
  const IntMinValue := -0x8000_0000

  lemma TruncMonotone(x: real, y: real)
    requires 0.0 <= x <= y
    ensures Trunc(x) <= Trunc(y)
  {
  }

  /** `Int.coerceAtLeast(lo)` */
  function CoerceAtLeast(x: int, lo: int): int {
    if x < lo then lo else x
  }

  /** `Int.coerceAtMost(hi)` */
  function CoerceAtMost(x: int, hi: int): int {
    if x > hi then hi else x
  }

  /** `Float.coerceAtLeast(lo)` */
  function CoerceAtLeastReal(x: real, lo: real): real {
    if x < lo then lo else x
  }

  /** `Float.coerceAtMost(hi)` */
  function CoerceAtMostReal(x: real, hi: real): real {
    if x > hi then hi else x
  }
}
