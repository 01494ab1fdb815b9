/** Numeric helpers: the 32-bit share counts of the library and the
    integer conversions its formulas apply to real values. */
module Numeric {

  const I32_MIN: int := -0x8000_0000
  const I32_MAX: int := 0x7fff_ffff

  /** A signed 32-bit integer, the type of every share count. */
  newtype i32 = x: int | -0x8000_0000 <= x <= 0x7fff_ffff

  /** The least integer that is not below `x` (`f64::ceil`). */
  function Ceil(x: real): (c: int)
    ensures x <= c as real < x + 1.0
  {
    -((-x).Floor)
  }

  /** Rounds `x` toward zero: down for non-negative values, up for negative ones. */
  function TruncateTowardZero(x: real): (t: int)
    ensures 0.0 <= x ==> 0 <= t && t as real <= x < t as real + 1.0
    ensures x < 0.0 ==> t <= 0 && t as real - 1.0 < x <= t as real
  {
    if x < 0.0 then -((-x).Floor) else x.Floor
  }

  /** The `f64 as i32` cast on a finite value: truncation toward zero,
      then saturation at the bounds of i32. */
  function SaturatingToI32(x: real): (r: i32)
    ensures 0.0 <= x ==> 0 <= r && r as real <= x
    ensures x < 0.0 ==> r <= 0 && x <= r as real
    ensures I32_MIN as real - 1.0 < x < I32_MAX as real + 1.0 ==> r as int == TruncateTowardZero(x)
    ensures I32_MAX as real + 1.0 <= x ==> r as int == I32_MAX
    ensures x <= I32_MIN as real - 1.0 ==> r as int == I32_MIN
  {
    var t := TruncateTowardZero(x);
    if t > I32_MAX then I32_MAX as i32
    else if t < I32_MIN then I32_MIN as i32
    else t as i32
  }
}
