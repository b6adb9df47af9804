/**
 * Go's fixed-width integers, stated over Dafny's unbounded `int`.
 * Only the operations the harness uses are given: reading a uint64 as an
 * int64, int64 addition (which wraps) and int64 halving (which truncates
 * toward zero, unlike Dafny's Euclidean `/`).
 */
module GoInt {

  const MinInt64: int := -0x8000_0000_0000_0000
  const MaxInt64: int := 0x7FFF_FFFF_FFFF_FFFF
  const MaxUint64: int := 0xFFFF_FFFF_FFFF_FFFF
  const MinInt32: int := -0x8000_0000
  const MaxInt32: int := 0x7FFF_FFFF

  /** 2^64, the modulus of every 64-bit wrap-around. */
  const Modulus64: int := 0x1_0000_0000_0000_0000

  type Int64 = x: int | MinInt64 <= x <= MaxInt64
  type Uint64 = x: int | 0 <= x <= MaxUint64

  /** Go's conversion `int64(u)`: the same 64 bits read as two's complement. */
  function Uint64ToInt64(u: Uint64): (r: Int64)
    ensures r % Modulus64 == u
    ensures u <= MaxInt64 ==> r == u
    ensures u > MaxInt64 ==> r < 0
  {
    if u <= MaxInt64 then u else u - Modulus64
  }

  /** Go's `a + b` on int64: the exact sum taken modulo 2^64 into the int64 range. */
  function AddInt64(a: Int64, b: Int64): (r: Int64)
    ensures r % Modulus64 == (a + b) % Modulus64
    ensures MinInt64 <= a + b <= MaxInt64 ==> r == a + b
  {
    var s := a + b;
    if s > MaxInt64 then s - Modulus64 else if s < MinInt64 then s + Modulus64 else s
  }

  /** Go's `a / 2` on int64: half of `a`, truncated toward zero. */
  function HalfInt64(a: Int64): (r: Int64)
    ensures a >= 0 ==> 0 <= r && 2 * r <= a <= 2 * r + 1
    ensures a < 0 ==> r <= 0 && 2 * r - 1 <= a <= 2 * r
  {
    if a >= 0 then a / 2 else -((0 - a as int) / 2)
  }
}
