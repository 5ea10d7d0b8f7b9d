/** Fractions held as a numerator and a denominator, as abc2midi and abc2abc hold
    every musical length, and Euclid's algorithm that keeps them in lowest terms. */
module Fractions {
  import opened CInt

  /** The number that the pair n/d stands for. */
  ghost function Value(n: int, d: int): real
    requires d != 0
  {
    n as real / d as real
  }

  /** Highest common factor, by the recursion behind the loop in `Reduce`. */
  function Gcd(a: nat, b: nat): (g: nat)
    ensures a != 0 || b != 0 ==> g > 0
    decreases b
  {
    if b == 0 then a else Gcd(b, a % b)
  }

  predicate LowestTerms(a: int, b: int) {
    b > 0 && Gcd(Abs(a), b) == 1
  }

  lemma {:induction false} GcdDivides(a: nat, b: nat)
    requires a != 0 || b != 0
    ensures Gcd(a, b) > 0
    ensures a == a / Gcd(a, b) * Gcd(a, b)
    ensures b == b / Gcd(a, b) * Gcd(a, b)
    decreases b
  {
    if b != 0 {
      GcdDivides(b, a % b);
      var g := Gcd(b, a % b);
      var p, q := b / g, a % b / g;
      assert a == (a / b * p + q) * g by {
        assert a == a / b * (p * g) + q * g;
      }
      MultipleQuotient(a / b * p + q, g);
    }
  }

  lemma MultipleQuotient(k: int, g: int)
    requires g > 0
    ensures k * g / g == k && k * g % g == 0
  {
    EuclidUnique(k * g, g, k, 0);
  }

  lemma AtLeastOneMultiple(k: int, d: int)
    requires d > 0 && k > 0
    ensures k * d >= d
  {
  }

  /** A quotient and remainder are determined by their defining equation. */
  lemma EuclidUnique(x: int, d: int, q: int, r: int)
    requires d > 0 && x == q * d + r && 0 <= r < d
    ensures x / d == q && x % d == r
  {
    var q', r' := x / d, x % d;
    assert x == q' * d + r';
    assert (q - q') * d == r' - r && (q' - q) * d == r - r';
    if q > q' {
      AtLeastOneMultiple(q - q', d);
    } else if q < q' {
      AtLeastOneMultiple(q' - q, d);
    }
  }

  lemma {:induction false} GcdScale(k: nat, a: nat, b: nat)
    requires k > 0
    ensures Gcd(k * a, k * b) == k * Gcd(a, b)
    decreases b
  {
    if b != 0 {
      assert k * a == a / b * (k * b) + k * (a % b) by {
        assert a == a / b * b + a % b;
      }
      assert 0 <= k * (a % b) < k * b;
      EuclidUnique(k * a, k * b, a / b, k * (a % b));
      GcdScale(k, b, a % b);
    } else {
      assert k * b == 0;
    }
  }

  lemma GcdSymmetric(a: nat, b: nat)
    ensures Gcd(a, b) == Gcd(b, a)
  {
    if a < b {
      EuclidUnique(a, b, 0, a);
    } else if a > b {
      EuclidUnique(b, a, 0, b);
    }
  }

  lemma CoprimeOnceScaled(g: nat, p: nat, q: nat)
    requires g > 0 && Gcd(g * p, g * q) == g
    ensures Gcd(p, q) == 1
  {
    GcdScale(g, p, q);
    SameFactor(g, Gcd(p, q), 1);
  }

  /** Dividing out the highest common factor leaves nothing in common. */
  lemma QuotientsCoprime(a: nat, b: nat, g: nat, p: nat, q: nat)
    requires b > 0 && g == Gcd(a, b) && a == g * p && b == g * q
    ensures Gcd(p, q) == 1 && q > 0
  {
    CoprimeOnceScaled(g, p, q);
  }

  lemma SameFactor(g: int, x: int, y: int)
    requires g > 0 && g * x == g * y
    ensures x == y
  {
    assert g * (x - y) == 0;
  }

  /** The pair that `reduce` leaves behind. */
  function Reduced(a: int, b: int): (r: (int, int))
    requires b > 0
    ensures LowestTerms(r.0, r.1)
    ensures r.0 * b == a * r.1
    ensures (r.0 > 0 <==> a > 0) && (r.0 < 0 <==> a < 0)
  {
    var g := Gcd(Abs(a), b);
    ReducedFacts(a, b, g);
    (if a < 0 then -(Abs(a) / g) else Abs(a) / g, b / g)
  }

  lemma ReducedFacts(a: int, b: int, g: int)
    requires b > 0 && g == Gcd(Abs(a), b)
    ensures g > 0
    ensures var num, denom := if a < 0 then -(Abs(a) / g) else Abs(a) / g, b / g;
            LowestTerms(num, denom) && num * b == a * denom &&
            (num > 0 <==> a > 0) && (num < 0 <==> a < 0)
  {
    GcdDivides(Abs(a), b);
    var p, q := Abs(a) / g, b / g;
    NonNegativeQuotient(p, g);
    QuotientsCoprime(Abs(a), b, g, p, q);
    CrossProduct(Abs(a), b, p, q, g);
  }

  lemma CrossProduct(a: int, b: int, p: int, q: int, g: int)
    requires a == p * g && b == q * g
    ensures p * b == a * q && -p * b == -a * q
  {
  }

  lemma NonNegativeQuotient(p: int, g: int)
    requires g > 0 && p * g >= 0
    ensures p >= 0
    ensures p == 0 <==> p * g == 0
  {
  }

  /** `reduce` (genmidi.c, and with non-negative numerators its copies in toabc.c and
      midi2abc.c): the pair is written back through pointers, here as out-parameters. */
  method Reduce(a: int, b: int) returns (num: int, denom: int)
    requires b > 0
    ensures (num, denom) == Reduced(a, b)
    ensures LowestTerms(num, denom) && Value(num, denom) == Value(a, b)
  {
    var sign := 1;
    num := a;
    if num < 0 {
      sign := -1;
      num := -num;
    }
    var n, m: nat;
    if num > b {
      n, m := num, b;
    } else {
      n, m := b, num;
    }
    GcdSymmetric(Abs(a), b);
    while m != 0
      invariant n > 0 && Gcd(n, m) == Gcd(Abs(a), b)
      decreases m
    {
      var t := n % m;
      n := m;
      m := t;
    }
    ReducedValue(a, b, n);
    num := num / n * sign;
    denom := b / n;
  }

  /** Reducing keeps the number that the pair stands for. */
  lemma ReducedValue(a: int, b: int, g: int)
    requires b > 0 && g == Gcd(Abs(a), b)
    ensures Value(Reduced(a, b).0, Reduced(a, b).1) == Value(a, b)
    ensures Reduced(a, b) == (Abs(a) / g * (if a < 0 then -1 else 1), b / g)
  {
    SameValue(Reduced(a, b).0, Reduced(a, b).1, a, b);
  }

  lemma SameValue(a: int, b: int, c: int, d: int)
    requires b > 0 && d > 0
    ensures Value(a, b) == Value(c, d) <==> a * d == c * b
  {
    var x, y := b as real, d as real;
    var p, q := a as real, c as real;
    assert p / x * x == p && q / y * y == q;
    if a * d == c * b {
      assert p * y == q * x;
      assert p / x == q / y by {
        assert (p / x - q / y) * (x * y) == p * y - q * x;
        assert x * y > 0.0;
      }
    }
    if Value(a, b) == Value(c, d) {
      assert p * y == p / x * x * y;
      assert q * x == q / y * y * x;
      assert p * y == q * x;
      assert (a * d) as real == (c * b) as real;
    }
  }

  /** Adding fractions over a common denominator. */
  lemma SumValue(a: int, b: int, c: int, d: int)
    requires b > 0 && d > 0
    ensures b * d > 0
    ensures Value(a * d + c * b, b * d) == Value(a, b) + Value(c, d)
  {
    var x, y := b as real, d as real;
    assert b * d > 0;
    assert (b * d) as real == x * y > 0.0;
    assert (a * d + c * b) as real == a as real * y + c as real * x;
    var p, q := Value(a, b), Value(c, d);
    assert a as real == p * x && c as real == q * y;
    assert a as real * y + c as real * x == (p + q) * (x * y);
    RealQuotient(p + q, x * y);
  }

  lemma ProductValue(a: int, b: int, c: int, d: int)
    requires b > 0 && d > 0
    ensures b * d > 0
    ensures Value(a * c, b * d) == Value(a, b) * Value(c, d)
  {
    var x, y := b as real, d as real;
    assert (b * d) as real == x * y > 0.0;
    var p, q := Value(a, b), Value(c, d);
    assert a as real == p * x && c as real == q * y;
    assert (a * c) as real == p * x * (q * y) == p * q * (x * y);
    RealQuotient(p * q, x * y);
  }

  lemma RealQuotient(v: real, x: real)
    requires x > 0.0
    ensures v * x / x == v
  {
  }

  /** A fraction with positive denominator has the sign of its numerator. */
  lemma ValueSign(a: int, b: int)
    requires b > 0
    ensures Value(a, b) >= 0.0 <==> a >= 0
    ensures Value(a, b) == 0.0 <==> a == 0
    ensures Value(-a, b) == -Value(a, b)
  {
    var p := Value(a, b);
    assert a as real == p * b as real;
    assert -a as real == -p * b as real;
    RealQuotient(-p, b as real);
  }

  /** `addfract` (store.c): x := x + a/b in place, in lowest terms. */
  method AddFract(xnum: int, xdenom: int, a: int, b: int) returns (num: int, denom: int)
    requires xdenom > 0 && b > 0
    ensures LowestTerms(num, denom)
    ensures Value(num, denom) == Value(xnum, xdenom) + Value(a, b)
  {
    num := xnum * b + a * xdenom;
    denom := xdenom * b;
    SumValue(xnum, xdenom, a, b);
    if num < 0 && denom < 0 {
      num, denom := -num, -denom;
    }
    num, denom := Reduce(num, denom);
  }
}
