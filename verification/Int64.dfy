/** Go's int64: what a value wraps to, and when it does not. */
module Int64 {

  const WORD := 0x1_0000_0000_0000_0000

  const HALF := 0x8000_0000_0000_0000

  const MAX_INT64: int := HALF - 1

  predicate IsInt64(x: int) { -HALF <= x <= MAX_INT64 }

  /** The value an int64 holds after an addition, subtraction or multiplication. */
  function Wrap64(x: int): int {
    (x + HALF) % WORD - HALF
  }

  /** Wrapping changes nothing exactly when there is nothing to wrap. */
  lemma WrapFits(x: int)
    ensures IsInt64(Wrap64(x)) && (Wrap64(x) == x <==> IsInt64(x))
  {
  }

  lemma WrapOver(x: int)
    requires MAX_INT64 < x <= MAX_INT64 + WORD
    ensures Wrap64(x) == x - WORD
  {
  }

  lemma ModIs(z: int, q: int, r: int)
    requires z == q * 0x1_0000_0000_0000_0000 + r && 0 <= r < WORD
    ensures z % WORD == r
  {
  }

  lemma WrapShift(x: int, k: int)
    ensures Wrap64(x + k * WORD) == Wrap64(x)
  {
    var y := x + HALF;
    var q, r := y / WORD, y % WORD;
    assert y == q * WORD + r;
    ModIs(y + k * WORD, q + k, r);
    assert x + k * WORD + HALF == y + k * WORD;
  }

  lemma WrapDecomposes(x: int) returns (k: int)
    ensures Wrap64(x) == x + k * WORD
  {
    k := -((x + HALF) / WORD);
  }

  /** Wrapping a factor first does not change the wrapped product. */
  lemma WrapProduct(x: int, y: int)
    ensures Wrap64(Wrap64(x) * y) == Wrap64(x * y)
  {
    hide Wrap64;
    var k := WrapDecomposes(x);
    assert Wrap64(x) * y == x * y + (k * y) * WORD;
    WrapShift(x * y, k * y);
  }

  /** Nor does wrapping a summand. */
  lemma WrapSum(x: int, y: int)
    ensures Wrap64(x + Wrap64(y)) == Wrap64(x + y)
  {
    hide Wrap64;
    var k := WrapDecomposes(y);
    WrapShift(x + y, k);
  }
}
