/** Truncating division, integer square roots, and what is needed of products. */
module Arithmetic {

  /** Integer division of C++, which truncates toward zero. */
  function Quot(a: int, b: int): int
    requires b > 0
  {
    if a >= 0 then a / b else -((-a) / b)
  }

  lemma MulMonotone(k: nat, a: int, b: int)
    requires a <= b
    ensures k * a <= k * b
  {
  }

  lemma Division(a: nat, b: nat)
    requires b > 0
    ensures 0 <= a / b <= a && 0 <= a - b * (a / b) < b
  {
    var q := a / b;
    assert a == b * q + a % b;
    MulMonotone(q, 1, b);
    assert q * b == b * q;
  }

  lemma QuotBounds(a: int, b: int)
    requires b > 0
    ensures -b < a - b * Quot(a, b) < b
    ensures 0 <= a ==> 0 <= Quot(a, b) <= a && b * Quot(a, b) <= a
    ensures a <= 0 ==> a <= Quot(a, b) <= 0 && a <= b * Quot(a, b)
  {
    if a >= 0 {
      Division(a, b);
    } else {
      var q := (-a) / b;
      Division(-a, b);
      assert b * (-q) == -(b * q);
    }
  }

  lemma QuotByOne(a: int)
    ensures Quot(a, 1) == a
  {
  }

  lemma QuotMonotone(a: int, a': int, b: int)
    requires b > 0 && a <= a'
    ensures Quot(a, b) <= Quot(a', b)
  {
    var q, q' := Quot(a, b), Quot(a', b);
    QuotBounds(a, b);
    QuotBounds(a', b);
    assert b * (q' + 1) == b * q' + b;
    if q > q' { MulMonotone(b, q' + 1, q); }
  }

  /** std::sqrt of an integer, truncated back to an integer, without rounding. */
  function ISqrt(n: nat): (r: nat)
    ensures r * r <= n < (r + 1) * (r + 1)
  {
    if n == 0 then 0
    else
      var r := ISqrt(n - 1);
      if (r + 1) * (r + 1) <= n then r + 1 else r
  }

  lemma ISqrtBelow(n: nat, d: nat)
    requires n <= d * d
    ensures ISqrt(n) <= d
  {
    if ISqrt(n) > d {
      SquareGrows(d + 1, ISqrt(n));
    }
  }

  lemma SquareGrows(a: nat, b: nat)
    requires a <= b
    ensures a * a <= b * b
  {
    MulMonotone(a, a, b);
    MulMonotone(b, a, b);
  }

  function Product(a: int, b: int): int { a * b }

  function Min(a: int, b: int): int { if b < a then b else a }
  function Max(a: int, b: int): int { if a < b then b else a }
}
