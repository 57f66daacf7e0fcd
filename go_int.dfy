/**
 * Go's fixed-width integers as the handlers see them: the ranges that
 * strconv parsing produces, and the two's-complement conversions and
 * multiplication that silently wrap.
 */
module GoInt {

  const TwoTo31: int := 0x8000_0000
  const TwoTo32: int := 0x1_0000_0000
  const TwoTo63: int := 0x8000_0000_0000_0000
  const TwoTo64: int := 0x1_0000_0000_0000_0000

  /** Values of Go's `int32` (and of `strconv.ParseInt(s, _, 32)`). */
  type Int32 = x: int | -0x8000_0000 <= x < 0x8000_0000

  /** Values of Go's `int64` and, on 64-bit targets, of `int`. */
  type Int64 = x: int | -0x8000_0000_0000_0000 <= x < 0x8000_0000_0000_0000

  predicate InInt32(x: int) { -TwoTo31 <= x < TwoTo31 }

  predicate InInt64(x: int) { -TwoTo63 <= x < TwoTo63 }

  /** The conversion `int32(x)`: keeps the low 32 bits, read as signed. */
  function ToInt32(x: int): (r: Int32)
    ensures (x - r) % TwoTo32 == 0
    ensures InInt32(x) ==> r == x
  {
    var m := x % TwoTo32;
    if m < TwoTo31 then m else m - TwoTo32
  }

  /** Go's `a * b` on 64-bit integers: the exact product, wrapped. */
  function MulInt64(a: Int64, b: Int64): (r: Int64)
    ensures (a * b - r) % TwoTo64 == 0
    ensures InInt64(a * b) ==> r == a * b
  {
    var m := (a * b) % TwoTo64;
    if m < TwoTo63 then m else m - TwoTo64
  }

  lemma MulBound(x: int, y: int, bound: int)
    requires 0 <= x <= bound && 0 <= y <= bound
    ensures 0 <= x * y <= bound * bound
  {
    assert x * y <= x * bound;
    assert x * bound <= bound * bound;
  }

  /** A product of two 32-bit values never wraps in 64 bits. */
  lemma ProductOfInt32Fits(a: Int32, b: Int32)
    ensures InInt64(a * b)
  {
    var x: int := if a < 0 then 0 - a as int else a;
    var y: int := if b < 0 then 0 - b as int else b;
    MulBound(x, y, TwoTo31);
    assert a * b == x * y || a * b == -(x * y);
  }
}
