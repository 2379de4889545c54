/** Go's 64-bit integer types and the wrapping operations the store renderer
    applies to them: the uint64-to-int64 conversion of byte counts, the
    conversion back, `Items++` on an int64 and the sum of three uint64
    counters. Dafny's integers are unbounded, so each wrap-around is written
    out here. */
module GoInts {

  const TWO_63: int := 0x8000_0000_0000_0000
  const TWO_64: int := 0x1_0000_0000_0000_0000

  type uint64 = x: int | 0 <= x < 0x1_0000_0000_0000_0000
  type int64 = x: int | -0x8000_0000_0000_0000 <= x < 0x8000_0000_0000_0000

  const MaxInt64: int64 := 0x7FFF_FFFF_FFFF_FFFF
  const MinInt64: int64 := -0x8000_0000_0000_0000

  /** `uint64(i)`: the same 64 bits read as unsigned. */
  function ToUint64(i: int64): (r: uint64)
    ensures 0 <= i ==> r == i
    ensures i < 0 ==> r >= TWO_63
    ensures (r - i) % TWO_64 == 0
  {
    if 0 <= i then i else i + TWO_64
  }

  /** `int64(u)`: the same 64 bits read as signed, so every value of 2^63
      and above comes out negative. Converting back gives the value that
      went in. */
  function ToInt64(u: uint64): (r: int64)
    ensures r < 0 <==> u >= TWO_63
    ensures u < TWO_63 ==> r == u
    ensures ToUint64(r) == u
  {
    if u < TWO_63 then u else u - TWO_64
  }

  /** `x++` on an int64: one more, except that the largest value wraps
      around to the smallest. */
  function Inc64(x: int64): (r: int64)
    ensures r != x
    ensures x < MaxInt64 ==> r == x + 1 && r > x
    ensures (r - x - 1) % TWO_64 == 0
  {
    if x < MaxInt64 then x + 1 else MinInt64
  }

  /** `a + b` on uint64: the sum modulo 2^64. */
  function AddU64(a: uint64, b: uint64): (r: uint64)
    ensures a + b < TWO_64 ==> r == a + b
    ensures a + b >= TWO_64 ==> r < a && r < b
    ensures (r - a - b) % TWO_64 == 0
  {
    (a + b) % TWO_64
  }
}
