/** Integer division as the source's Python arithmetic performs it. */
module Arith {

  /** `int(a / b)` in Python for b > 0: exact quotient truncated toward zero. */
  function TruncDiv(a: int, b: int): (q: int)
    requires b > 0
    ensures a >= 0 ==> b * q <= a < b * q + b
    ensures a < 0 ==> b * q - b < a <= b * q
    ensures a >= 0 ==> q >= 0
    ensures a <= 0 ==> q <= 0
  {
    if a >= 0 then a / b else -((-a) / b)
  }

  /** Python's `a // b` (floor division); the divisor must be nonzero. */
  function FloorDiv(a: int, b: int): (q: int)
    requires b != 0
    ensures b > 0 ==> b * q <= a < b * q + b
    ensures b < 0 ==> b * q + b < a <= b * q
  {
    if b > 0 then a / b else (-a) / (-b)
  }

  /** Python's `a % b`: the remainder takes the sign of the divisor. */
  function FloorMod(a: int, b: int): (m: int)
    requires b != 0
    ensures a == b * FloorDiv(a, b) + m
    ensures b > 0 ==> 0 <= m < b
    ensures b < 0 ==> b < m <= 0
  {
    a - b * FloorDiv(a, b)
  }

  function Min(a: int, b: int): int { if a <= b then a else b }
  function Max(a: int, b: int): int { if a >= b then a else b }

  /** Truncation is exact when the divisor divides the numerator. */
  lemma TruncDivExact(k: int, b: int)
    requires b > 0
    ensures TruncDiv(b * k, b) == k
  {
    var q := TruncDiv(b * k, b);
    if b * k >= 0 {
      assert b * q <= b * k < b * q + b;
      if q < k { MulStrict(b, q, k); }
      if q > k { MulStrict(b, k, q); }
    } else {
      assert b * q - b < b * k <= b * q;
      if q < k { MulStrict(b, q, k); }
      if q > k { MulStrict(b, k, q); }
    }
  }

  lemma MulStrict(b: int, x: int, y: int)
    requires b > 0 && x < y
    ensures b * x + b <= b * y
  {
    MulAtLeast(b, y - x);
    assert b * y == b * x + b * (y - x);
  }

  lemma {:induction false} MulAtLeast(b: int, d: int)
    requires b > 0 && d >= 1
    ensures b * d >= b
    decreases d
  {
    if d > 1 {
      MulAtLeast(b, d - 1);
      assert b * d == b * (d - 1) + b;
    }
  }
}
