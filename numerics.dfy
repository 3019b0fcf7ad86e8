/**
 * The JVM numeric conversions and operators the view-models and screens
 * rely on, written out over Dafny's unbounded `int` and exact `real`.
 * Floating-point rounding of `Float`/`Double` themselves is not modelled;
 * NaN and infinities have no counterpart in `real`.
 */
module Numerics {

  const INT_MIN: int := -0x8000_0000
  const INT_MAX: int := 0x7fff_ffff

  /** Rounding toward zero. */
  function Trunc(x: real): (n: int)
    ensures 0.0 <= x ==> 0 <= n && n as real <= x < n as real + 1.0
    ensures x < 0.0 ==> n <= 0 && n as real - 1.0 < x <= n as real
  {
    if x >= 0.0 then x.Floor else -((-x).Floor)
  }

  /**
   * `x % 360.0` on JVM doubles, the only floating-point remainder the
   * view-model takes: the remainder of the division truncated toward zero, so
   * it carries the sign of the dividend.
   */
  function FloatRem360(x: real): (r: real)
    ensures ((x - r) / 360.0).Floor as real * 360.0 == x - r
    ensures 0.0 <= x ==> 0.0 <= r < 360.0
    ensures x <= 0.0 ==> -360.0 < r <= 0.0
    ensures 0.0 <= x < 360.0 ==> r == x
    ensures 360.0 <= x < 720.0 ==> r == x - 360.0
  {
    x - Trunc(x / 360.0) as real * 360.0
  }

  /**
   * `a % 8` on JVM `Int`, the only integer remainder the screen takes:
   * truncated, so it carries the sign of `a`, and congruent to `a`.
   */
  function IntRem8(a: int): (r: int)
    ensures r % 8 == a % 8
    ensures 0 <= a ==> 0 <= r < 8
    ensures a < 0 ==> -8 < r <= 0
  {
    if a >= 0 then a % 8 else -((-a) % 8)
  }

  /** Kotlin's `Float.toInt()`: truncation toward zero, saturating at the `Int` range. */
  function FloatToInt(x: real): (n: int)
    ensures INT_MIN <= n <= INT_MAX
    ensures INT_MAX as real <= x ==> n == INT_MAX
    ensures x <= INT_MIN as real ==> n == INT_MIN
    ensures INT_MIN as real < x < INT_MAX as real && 0.0 <= x ==> n as real <= x < n as real + 1.0
    ensures INT_MIN as real < x < INT_MAX as real && x < 0.0 ==> n as real - 1.0 < x <= n as real
  {
    if x >= INT_MAX as real then INT_MAX
    else if x <= INT_MIN as real then INT_MIN
    else Trunc(x)
  }

  /**
   * Kotlin's `Float.roundToInt()`: the nearest integer, ties rounded up
   * (toward positive infinity), saturating at the `Int` range.
   */
  function RoundToInt(x: real): (n: int)
    ensures INT_MIN <= n <= INT_MAX
    ensures INT_MAX as real <= x ==> n == INT_MAX
    ensures x < INT_MIN as real ==> n == INT_MIN
    ensures INT_MIN as real <= x < INT_MAX as real ==> n as real - 0.5 <= x < n as real + 0.5
  {
    var f := (x + 0.5).Floor;
    if f > INT_MAX then INT_MAX else if f < INT_MIN then INT_MIN else f
  }
}
