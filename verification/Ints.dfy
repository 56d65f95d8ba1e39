/** The integer widths of the Go sources and of the Postgres columns. */
module Ints {
  const INT32_MIN: int := -0x8000_0000
  const INT32_MAX: int := 0x7FFF_FFFF
  const TWO_32: int := 0x1_0000_0000
  const TWO_63: int := 0x8000_0000_0000_0000
  const TWO_64: int := 0x1_0000_0000_0000_0000

  type int32 = x: int | -0x8000_0000 <= x <= 0x7FFF_FFFF
  type int64 = x: int | -0x8000_0000_0000_0000 <= x <= 0x7FFF_FFFF_FFFF_FFFF
  type uint64 = x: int | 0 <= x <= 0xFFFF_FFFF_FFFF_FFFF

  predicate FitsInt32(x: int) {
    INT32_MIN <= x <= INT32_MAX
  }

  /** Go's `int32(x)`: keep the low 32 bits and read them as two's complement. */
  function Narrow(x: int64): (r: int32)
    ensures (x - r) % TWO_32 == 0
  {
    var low := x % TWO_32;
    if low <= INT32_MAX then low else low - TWO_32
  }

  /** The conversion loses nothing exactly on the int32 range. */
  lemma NarrowKeepsIff(x: int64)
    ensures Narrow(x) == x <==> FitsInt32(x)
  {
  }

  /** Go's `uint64(x)` on a negative or non-negative int64. */
  function ToUnsigned(x: int64): uint64 {
    if x >= 0 then x else x + TWO_64
  }

  /** Go's `int64(u)`. */
  function ToSigned(u: uint64): int64 {
    if u < TWO_63 then u else u - TWO_64
  }
}
