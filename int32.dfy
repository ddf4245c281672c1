/** Java `int`: 32-bit two's complement arithmetic with wrap-around. */
module Int32 {

  const MIN: int := -0x8000_0000
  const MAX: int := 0x7FFF_FFFF

  newtype int32 = x: int | -0x8000_0000 <= x < 0x8000_0000

  /** `x + 1` on a Java `int`: one more below the maximum, the minimum after it. */
  function Inc(x: int32): (r: int32)
    ensures x as int < MAX ==> r as int == x as int + 1
    ensures x as int == MAX ==> r as int == MIN
  {
    ((x as int - MIN + 1) % 0x1_0000_0000 + MIN) as int32
  }
}
