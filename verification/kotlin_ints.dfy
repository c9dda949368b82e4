/** Kotlin's fixed-width integers: `Int` is 32-bit and `Long` 64-bit, both two's complement. */
module KotlinInts {

  const INT_MIN: int := -0x8000_0000
  const INT_MAX: int := 0x7fff_ffff
  const LONG_MIN: int := -0x8000_0000_0000_0000
  const LONG_MAX: int := 0x7fff_ffff_ffff_ffff

  type Int32 = x: int | INT_MIN <= x <= INT_MAX
  type Int64 = x: int | LONG_MIN <= x <= LONG_MAX

  /** The `Int` that an arithmetic result wraps to (low 32 bits, as a signed value). */
  function Wrap32(x: int): (r: Int32)
    ensures (r - x) % 0x1_0000_0000 == 0
    ensures INT_MIN <= x <= INT_MAX ==> r == x
  {
    var m := (x - INT_MIN) % 0x1_0000_0000;
    m + INT_MIN
  }

  /** `Long.toInt()`: keeps the low 32 bits. */
  function LongToInt(x: Int64): (r: Int32)
    ensures INT_MIN <= x <= INT_MAX ==> r == x
    ensures (r - x) % 0x1_0000_0000 == 0
  {
    Wrap32(x)
  }

  /** A `Double`-to-`Long` conversion of an exact integer: out-of-range values saturate. */
  function SaturateToLong(x: int): (r: Int64)
    ensures LONG_MIN <= x <= LONG_MAX ==> r == x
    ensures x > LONG_MAX ==> r == LONG_MAX
    ensures x < LONG_MIN ==> r == LONG_MIN
  {
    if x > LONG_MAX then LONG_MAX else if x < LONG_MIN then LONG_MIN else x
  }

  /** `Double.toInt()` of a finite value: truncates toward zero and saturates at the `Int` bounds. */
  function DoubleToInt(x: real): (r: Int32)
    ensures 0.0 <= x < (INT_MAX + 1) as real ==> r as real <= x < r as real + 1.0
    ensures (INT_MIN - 1) as real < x < 0.0 ==> r as real - 1.0 < x <= r as real
    ensures x >= (INT_MAX + 1) as real ==> r == INT_MAX
    ensures x <= INT_MIN as real ==> r == INT_MIN
  {
    var t := if x >= 0.0 then x.Floor else -((-x).Floor);
    if t > INT_MAX then INT_MAX else if t < INT_MIN then INT_MIN else t
  }
}
