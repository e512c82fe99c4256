/** Go's fixed-width integers as Dafny's unbounded ones: the ranges of
    `int64` and `uint64`, the two's-complement wrap-around of `int64`
    addition, and the `int64(...)` conversion of a `uint64`. */
module GoInts {

  const TwoTo64: int := 0x1_0000_0000_0000_0000
  const MinInt64: int := -0x8000_0000_0000_0000
  const MaxInt64: int := 0x7fff_ffff_ffff_ffff
  const MaxUint64: int := 0xffff_ffff_ffff_ffff

  predicate IsInt64(x: int) {
    MinInt64 <= x <= MaxInt64
  }

  type Int64 = x: int | IsInt64(x)
  type Uint64 = x: int | 0 <= x <= MaxUint64

  /** The `int64` that Go stores for the mathematical value `x`: the value in
      range that agrees with `x` modulo 2^64 (two's-complement wrap-around). */
  function Wrap(x: int): (r: Int64)
    ensures IsInt64(x) ==> r == x
  {
    (x - MinInt64) % TwoTo64 + MinInt64
  }

  /** The stored value differs from `x` by a multiple of 2^64. */
  lemma WrapAgrees(x: int)
    ensures (Wrap(x) - x) % TwoTo64 == 0
  {
  }

  /** Go's `int64(u)` for a `uint64` `u`: the bits are kept, so values above
      `MaxInt64` become negative. */
  function ToInt64(u: Uint64): (r: Int64)
    ensures u <= MaxInt64 ==> r == u
    ensures u > MaxInt64 ==> r < 0 && r == u - TwoTo64
  {
    Wrap(u)
  }

  /** Wrapping an intermediate sum does not change the final wrapped value:
      `(x + a) + b` computed in `int64` is `x + a + b` wrapped once. */
  lemma WrapAddWrap(x: int, a: int)
    ensures Wrap(Wrap(x) + a) == Wrap(x + a)
  {
  }
}
