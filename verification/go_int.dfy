/** Go's `int64` and its two's-complement arithmetic: `+` and `-` wrap modulo 2^64. */
module GoInt {

  const TwoTo63: int := 0x8000_0000_0000_0000
  const TwoTo64: int := 0x1_0000_0000_0000_0000
  const MinInt64: int := -TwoTo63
  const MaxInt64: int := TwoTo63 - 1
  const MaxUint64: int := TwoTo64 - 1

  type int64 = x: int | MinInt64 <= x <= MaxInt64

  /** The int64 that a 64-bit two's-complement machine holds for the exact value `x`. */
  function Wrap(x: int): (r: int64)
    ensures (r - x) % TwoTo64 == 0
    ensures MinInt64 <= x <= MaxInt64 ==> r == x
  {
    var y := x + TwoTo63;
    y % TwoTo64 - TwoTo63
  }

  /** Go's `a + b` on int64 operands. */
  function Add(a: int64, b: int64): (r: int64)
    ensures MinInt64 <= a + b <= MaxInt64 ==> r == a + b
    ensures a + b > MaxInt64 ==> r == a + b - TwoTo64
    ensures a + b < MinInt64 ==> r == a + b + TwoTo64
  {
    WrapShift(a + b);
    Wrap(a + b)
  }

  /** Go's `a - b` on int64 operands. */
  function Sub(a: int64, b: int64): (r: int64)
    ensures MinInt64 <= a - b <= MaxInt64 ==> r == a - b
    ensures a - b > MaxInt64 ==> r == a - b - TwoTo64
    ensures a - b < MinInt64 ==> r == a - b + TwoTo64
  {
    WrapShift(a - b);
    Wrap(a - b)
  }

  /** On the range that the sum or difference of two int64 values can take, wrapping
      shifts by at most one multiple of 2^64. */
  lemma WrapShift(x: int)
    requires 2 * MinInt64 <= x <= 2 * MaxInt64 + 1
    ensures x > MaxInt64 ==> Wrap(x) == x - TwoTo64
    ensures x < MinInt64 ==> Wrap(x) == x + TwoTo64
  {
  }

  /** Wrapping subtraction undoes wrapping addition, whatever overflowed. */
  lemma SubUndoesAdd(a: int64, b: int64)
    ensures Sub(Add(a, b), b) == a
  {
  }

  /** Wrapping addition undoes wrapping subtraction. */
  lemma AddUndoesSub(a: int64, b: int64)
    ensures Add(Sub(a, b), b) == a
  {
  }
}
