/** Division of ints in C, which goes towards zero and leaves a remainder of the sign of the
    dividend. */
module CInt {

  function CDiv(a: int, b: int): int
    requires b > 0
  {
    if a >= 0 then a / b else -(-a / b)
  }

  function CMod(a: int, b: int): int
    requires b > 0
  {
    if a >= 0 then a % b else -(-a % b)
  }

  function Abs(x: int): nat {
    if x < 0 then -x else x
  }

  /** Quotient and remainder make up the dividend, and the remainder is smaller than the
      divisor and never of the other sign. */
  lemma DivMeans(a: int, b: int)
    requires b > 0
    ensures a == b * CDiv(a, b) + CMod(a, b)
    ensures if a >= 0 then 0 <= CMod(a, b) < b else -b < CMod(a, b) <= 0
  {
    if a < 0 {
      assert -a == b * (-a / b) + -a % b;
    }
  }

  /** There is only one quotient with a small remainder. */
  lemma QuotientIs(x: int, d: int, q: int, r: int)
    requires d > 0 && x == d * q + r && 0 <= r < d
    ensures x / d == q
  {
    var e := x / d - q;
    assert d * e == r - x % d && d * (-e) == x % d - r;
    if e > 0 {
      AtLeast(d, e);
    } else if e < 0 {
      AtLeast(d, -e);
    }
  }

  lemma DivUnique(a: int, b: int, q: int)
    requires b > 0 && a >= 0 && b * q <= a < b * q + b
    ensures CDiv(a, b) == q
  {
    QuotientIs(a, b, q, a - b * q);
  }

  lemma AtLeast(d: int, e: int)
    requires d > 0 && e > 0
    ensures d * e >= d
  {
  }
}
