/** Java's 32-bit `int` arithmetic, written out over unbounded integers. */
module JavaInts {

  const INT32_MIN: int := -0x8000_0000
  const INT32_MAX: int := 0x7FFF_FFFF

  /** The values of a Java `int` (and of a non-null `Integer`). */
  type Int32 = x: int | INT32_MIN <= x <= INT32_MAX

  /** The two's-complement wrap-around a Java `int` expression applies to its exact value. */
  function Wrap32(x: int): (r: Int32)
    ensures (r - x) % 0x1_0000_0000 == 0
    ensures INT32_MIN <= x <= INT32_MAX ==> r == x
  {
    var m := (x - INT32_MIN) % 0x1_0000_0000;
    m + INT32_MIN
  }
}
