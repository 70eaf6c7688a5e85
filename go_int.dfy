/** Go's fixed-width integer types, as ranges of mathematical integers. */
module GoInt {

  const MinInt64: int := -0x8000_0000_0000_0000
  const MaxInt64: int := 0x7fff_ffff_ffff_ffff
  const TwoTo64: int := 0x1_0000_0000_0000_0000

  type int8 = x: int | -0x80 <= x < 0x80
  type int16 = x: int | -0x8000 <= x < 0x8000
  type int32 = x: int | -0x8000_0000 <= x < 0x8000_0000
  type int64 = x: int | MinInt64 <= x <= MaxInt64
  type uint8 = x: int | 0 <= x < 0x100
  type uint16 = x: int | 0 <= x < 0x1_0000
  type uint32 = x: int | 0 <= x < 0x1_0000_0000
  type uint64 = x: int | 0 <= x < TwoTo64

  /**
   * Go's conversion `int64(u)` of a uint64: the same 64 bits read as a
   * two's-complement number, so values above MaxInt64 wrap to negatives.
   */
  function Int64OfUint64(u: uint64): (r: int64)
    ensures u <= MaxInt64 ==> r == u
    ensures u > MaxInt64 ==> r < 0
    ensures (r - u) % TwoTo64 == 0
  {
    if u <= MaxInt64 then u else u - TwoTo64
  }
}
