/**
 * Go's 64-bit `int` (and `int64`, `time.Duration`): its range and the
 * two's-complement wrap-around its arithmetic leaves behind.
 */
module GoInt {
  const MinInt64: int := -0x8000_0000_0000_0000
  const MaxInt64: int := 0x7fff_ffff_ffff_ffff
  const TwoTo64: int := 0x1_0000_0000_0000_0000

  predicate InInt64(x: int)
  {
    MinInt64 <= x <= MaxInt64
  }

  /** The int64 a Go addition or multiplication leaves: x reduced into [-2^63, 2^63). */
  function WrapInt64(x: int): (r: int)
    ensures InInt64(r)
    ensures InInt64(x) ==> r == x
    ensures (r - x) % TwoTo64 == 0
  {
    (x - MinInt64) % TwoTo64 + MinInt64
  }
}
