/** The fixed-width integers of the C++ code and the conversions it relies on. */
module MachineInts {

  const TWO_TO_63: int := 0x8000_0000_0000_0000
  const TWO_TO_64: int := 0x1_0000_0000_0000_0000

  type Uint64 = x: int | 0 <= x < TWO_TO_64
  type Int64 = x: int | -TWO_TO_63 <= x < TWO_TO_63

  const MAX_UINT64: Uint64 := TWO_TO_64 - 1

  /** Conversion to uint64_t: reduction modulo 2^64. */
  function ToU64(x: int): (r: Uint64)
    ensures 0 <= x < TWO_TO_64 ==> r == x
    ensures -TWO_TO_64 <= x < 0 ==> r == x + TWO_TO_64
    ensures TWO_TO_64 <= x < 2 * TWO_TO_64 ==> r == x - TWO_TO_64
    ensures 0 <= x ==> r <= x
  {
    if 0 <= x < TWO_TO_64 then x
    else if -TWO_TO_64 <= x < 0 then x + TWO_TO_64
    else x % TWO_TO_64
  }

  /** Conversion to int64_t: the two's complement reading of the low 64 bits. */
  function ToI64(x: int): (r: Int64)
    ensures -TWO_TO_63 <= x < TWO_TO_63 ==> r == x
  {
    if -TWO_TO_63 <= x < TWO_TO_63 then x
    else var low := x % TWO_TO_64; if low < TWO_TO_63 then low else low - TWO_TO_64
  }
}
