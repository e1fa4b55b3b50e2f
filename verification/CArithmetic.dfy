/**
 Fixed-width C arithmetic as the helmet firmware performs it: the value ranges of
 the integer types and division that truncates toward zero.
 */
module CArithmetic {

  predicate IsI16(x: int) { -0x8000 <= x <= 0x7fff }
  predicate IsU16(x: int) { 0 <= x <= 0xffff }
  predicate IsI32(x: int) { -0x8000_0000 <= x <= 0x7fff_ffff }
  predicate IsU32(x: int) { 0 <= x <= 0xffff_ffff }

  function Abs(x: int): nat { if x < 0 then -x else x }

  function Min(x: int, y: int): int { if x < y then x else y }

  function Max(x: int, y: int): int { if x < y then y else x }

  /** C's `/` for a positive divisor: the quotient is rounded toward zero. */
  function TruncDiv(a: int, b: int): (q: int)
    requires b > 0
  {
    if a >= 0 then a / b else -((-a) / b)
  }

  /** Truncation never moves the quotient away from zero. */
  lemma TruncDivBound(a: int, b: int)
    requires b > 0
    ensures Abs(TruncDiv(a, b)) * b <= Abs(a) < (Abs(TruncDiv(a, b)) + 1) * b
    ensures a >= 0 ==> TruncDiv(a, b) >= 0
    ensures a <= 0 ==> TruncDiv(a, b) <= 0
  {
  }

  lemma SquareGrows(x: int, y: int)
    requires 0 <= y < x
    ensures y * y < x * x
  {
    assert y * y <= y * x < x * x;
  }

  lemma SquareOrder(x: int, y: int)
    requires y >= 0 && x * x <= y * y
    ensures -y <= x <= y
  {
    if Abs(x) > y {
      SquareGrows(Abs(x), y);
      assert false;
    }
  }

  lemma SquareMonotone(x: int, y: int)
    requires y >= 0 && -y <= x <= y
    ensures x * x <= y * y
  {
    if Abs(x) < y {
      SquareGrows(y, Abs(x));
    }
  }

  lemma SquareNonneg(x: int)
    ensures x * x >= 0
  {
  }

  lemma SquareOfSum(a: int, b: int)
    ensures (a + b) * (a + b) == a * a + 2 * (a * b) + b * b
  {
  }

  lemma SquareOfScaled(k: int, x: int)
    ensures (k * x) * (k * x) == (k * k) * (x * x)
  {
    assert (k * x) * (k * x) == k * (x * (k * x));
    assert x * (k * x) == k * (x * x);
  }

  /** Truncating division in squares: d^2 q^2 <= a^2. */
  lemma TruncDivSquare(a: int, d: int)
    requires d > 0
    ensures (d * d) * (TruncDiv(a, d) * TruncDiv(a, d)) <= a * a
  {
    var q := TruncDiv(a, d);
    TruncDivBound(a, d);
    assert Abs(d * q) == d * Abs(q);
    SquareMonotone(d * q, Abs(a));
    SquareOfScaled(d, q);
    assert Abs(a) * Abs(a) == a * a;
  }

  lemma MulOrder(a: int, a': int, b: int, b': int)
    requires 0 <= a <= a' && 0 <= b <= b'
    ensures a * b <= a' * b'
  {
    assert a * b <= a' * b;
    assert a' * b <= a' * b';
  }

  function Pow2(b: nat): (p: nat)
    ensures p > 0
  {
    if b == 0 then 1 else 2 * Pow2(b - 1)
  }

  lemma DivAtLeast(a: int, n: int, k: int)
    requires 0 < n && k >= 0 && a >= k * n
    ensures a / n >= k
  {
    if a / n < k {
      MulOrder(a / n + 1, k, n, n);
      assert false;
    }
  }
}
