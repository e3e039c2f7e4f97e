/** Java's 32-bit `int`, with the two's-complement wrap-around of `x++`. */
module JavaInt {

  const MIN: int := -0x8000_0000
  const MAX: int := 0x7fff_ffff
  const MODULUS: int := 0x1_0000_0000

  newtype int32 = x: int | -0x8000_0000 <= x < 0x8000_0000

  /** `x++` on a Java `int`: the mathematical successor reduced into the
      32-bit range, which is the successor itself except at `MAX`. */
  function Increment(x: int32): (r: int32)
    ensures r as int == (x as int + 1 - MIN) % MODULUS + MIN
    ensures x as int < MAX ==> r > x
    ensures x as int == MAX ==> r as int == MIN
  {
    if x == 0x7fff_ffff then -0x8000_0000 else x + 1
  }
}
