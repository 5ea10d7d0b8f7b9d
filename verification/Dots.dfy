/** Which fractions of a unit are note values: a power of two followed by dots
    (`count_dots` in yapstree.c). */
module Dots {
  import opened Fractions

  function Pow2(k: nat): (p: nat)
    ensures p > 0
  {
    if k == 0 then 1 else 2 * Pow2(k - 1)
  }

  ghost predicate IsPow2(m: int) {
    exists k: nat :: m == Pow2(k)
  }

  /** Two to the power -d. */
  ghost function HalfPow(d: nat): real {
    1.0 / Pow2(d) as real
  }

  /** Two to any integer power. */
  ghost function Exp2(e: int): real {
    if e >= 0 then Pow2(e) as real else HalfPow(-e)
  }

  /** n/m is a note of 2^e units carrying d dots, each dot adding half of what the one
      before it added: n/m = 2^e * (2 - 2^-d). */
  ghost predicate HasDots(n: int, m: int, e: int, d: nat)
    requires m != 0
  {
    Value(n, m) == Exp2(e) * (2.0 - HalfPow(d))
  }

  lemma HalfPowHalves(d: nat)
    ensures HalfPow(d) == 2.0 * HalfPow(d + 1)
    ensures 0.0 < HalfPow(d) <= 1.0
  {
    var p := Pow2(d) as real;
    assert 1.0 / p == 2.0 * (1.0 / (2.0 * p));
  }

  lemma Exp2Doubles(e: int)
    ensures Exp2(e + 1) == 2.0 * Exp2(e)
    ensures Exp2(e) > 0.0
  {
    if e < 0 {
      HalfPowHalves(-e - 1);
    }
  }

  lemma {:induction false} Exp2Increasing(e: int, f: int)
    requires e <= f
    ensures Exp2(e) <= Exp2(f)
    decreases f - e
  {
    Exp2Doubles(e);
    if e < f {
      Exp2Increasing(e + 1, f);
    }
  }

  lemma {:induction false} HalfPowDecreasing(d: nat, d': nat)
    requires d < d'
    ensures HalfPow(d') < HalfPow(d)
    decreases d' - d
  {
    HalfPowHalves(d);
    HalfPowHalves(d + 1);
    if d + 1 < d' {
      HalfPowDecreasing(d + 1, d');
    }
  }

  lemma Pow2Halves(p: int)
    requires IsPow2(p) && p > 1
    ensures p % 2 == 0 && IsPow2(p / 2)
  {
    var k: nat :| p == Pow2(k);
    assert k > 0 && p / 2 == Pow2(k - 1);
  }

  lemma Pow2Doubles(p: int)
    requires IsPow2(p)
    ensures IsPow2(2 * p)
  {
    var k: nat :| p == Pow2(k);
    assert 2 * p == Pow2(k + 1);
  }

  /** The exponent and the number of dots are determined by the fraction. */
  lemma DotsUnique(n: int, m: int, e: int, d: nat, e': int, d': nat)
    requires m > 0 && HasDots(n, m, e, d) && HasDots(n, m, e', d')
    ensures e == e' && d == d'
  {
    hide HasDots;
    DotsRange(n, m, e, d);
    DotsRange(n, m, e', d');
    SameExponent(Value(n, m), e, e');
    SameDots(n, m, e, d, d');
    if d < d' {
      HalfPowDecreasing(d, d');
    } else if d' < d {
      HalfPowDecreasing(d', d);
    }
  }

  lemma SameExponent(v: real, e: int, e': int)
    requires Exp2(e) <= v < Exp2(e + 1) && Exp2(e') <= v < Exp2(e' + 1)
    ensures e == e'
  {
    if e < e' {
      Exp2Increasing(e + 1, e');
    } else if e' < e {
      Exp2Increasing(e' + 1, e);
    }
  }

  lemma SameDots(n: int, m: int, e: int, d: nat, d': nat)
    requires m > 0 && HasDots(n, m, e, d) && HasDots(n, m, e, d')
    ensures HalfPow(d) == HalfPow(d')
  {
    Exp2Doubles(e);
    hide Exp2, HalfPow;
    CancelFactor(Exp2(e), 2.0 - HalfPow(d), 2.0 - HalfPow(d'));
  }

  lemma CancelFactor(x: real, a: real, b: real)
    requires x > 0.0 && x * a == x * b
    ensures a == b
  {
    assert x * (a - b) == 0.0;
  }

  lemma BetweenPowers(x: real, y: real)
    requires x > 0.0 && 0.0 < y <= 1.0
    ensures x <= x * (2.0 - y) < 2.0 * x
  {
    assert x * (1.0 - y) >= 0.0;
  }

  /** A dotted note lies between its power of two and the next one. */
  lemma DotsRange(n: int, m: int, e: int, d: nat)
    requires m > 0 && HasDots(n, m, e, d)
    ensures Exp2(e) <= Value(n, m) < Exp2(e + 1)
  {
    Exp2Doubles(e);
    HalfPowHalves(d);
    BetweenPowers(Exp2(e), HalfPow(d));
  }

  /** n/m = x*(2-y) says that w = 2s - n is s*y, for s = m*x and y = 1/q. */
  lemma MissingPiece(n: real, m: real, s: real, w: real, q: real, x: real, y: real)
    requires m > 0.0 && s == m * x && w == 2.0 * s - n && y * q == 1.0
    ensures n / m == x * (2.0 - y) <==> w * q == s
  {
    if n / m == x * (2.0 - y) {
      assert n == n / m * m == x * (2.0 - y) * m == s * (2.0 - y);
      assert w * q == s * (y * q);
    }
    if w * q == s {
      assert w == w * (q * y) == s * y;
      assert n == x * (2.0 - y) * m;
      RealQuotient(x * (2.0 - y), m);
    }
  }

  lemma RealProduct(a: int, b: int)
    ensures (a * b) as real == a as real * b as real
  {
  }

  lemma Reciprocal(q: real)
    requires q > 0.0
    ensures 1.0 / q * q == 1.0
  {
  }

  lemma IntegerPiece(n: int, m: int, start: int, q: int, x: real)
    requires m > 0 && q > 0 && start as real == m as real * x
    ensures n as real / m as real == x * (2.0 - 1.0 / q as real) <==> (2 * start - n) * q == start
  {
    var w := 2 * start - n;
    RealProduct(w, q);
    Reciprocal(q as real);
    MissingPiece(n as real, m as real, start as real, w as real, q as real, x, 1.0 / q as real);
  }

  /** In whole numbers: when start = m * 2^e, n/m has d dots on 2^e exactly when the
      piece 2*start - n that is missing from the next power is start / 2^d. */
  lemma DotsAsIntegers(n: int, m: int, start: int, e: int, d: nat)
    requires m > 0 && start as real == m as real * Exp2(e)
    ensures HasDots(n, m, e, d) <==> (2 * start - n) * Pow2(d) == start
  {
    hide Exp2, Pow2;
    IntegerPiece(n, m, start, Pow2(d), Exp2(e));
  }

  /** No power of two lies strictly between a power of two and its half. */
  lemma {:induction false} NoPowerBetween(b: int, x: int)
    requires IsPow2(b) && IsPow2(x) && b > 1
    ensures !(b / 2 < x < b)
    decreases b
  {
    if b / 2 < x < b {
      Pow2Halves(b);
      Pow2Halves(x);
      if b / 2 > 1 {
        Pow2Halves(b / 2);
        NoPowerBetween(b / 2, x / 2);
      }
    }
  }

  /** Halving an even number does not change whether it is a power of two. */
  lemma HalvesKeepPowers(a: int)
    requires a > 1
    ensures IsPow2(a) <==> a % 2 == 0 && IsPow2(a / 2)
  {
    if IsPow2(a) {
      Pow2Halves(a);
    } else if a % 2 == 0 && IsPow2(a / 2) {
      Pow2Doubles(a / 2);
    }
  }

  /** `count_dots`: returns the number of dots, or -1 when n/m is no note value, and
      writes the undotted value as 2^baseExp and, when that is at most 1, as 1/base. */
  method CountDots(n: int, m: int) returns (dots: int, base: int, baseExp: int)
    ensures dots >= -1
    ensures dots >= 0 <==> n >= 1 && IsPow2(m) && exists e: int, d: nat :: HasDots(n, m, e, d)
    ensures dots >= 0 ==> HasDots(n, m, baseExp, dots)
    ensures dots >= 0 ==> base == if baseExp <= 0 then Pow2(-baseExp) else 0
  {
    hide HasDots, Scaled, Pow2;
    base := 1;
    baseExp := 0;
    if n < 1 || m < 1 {
      return -1, base, baseExp;
    }
    var a := m;
    while a > 1
      invariant a >= 1
      invariant IsPow2(m) <==> IsPow2(a)
    {
      HalvesKeepPowers(a);
      if a % 2 == 1 {
        return -1, base, baseExp;
      }
      a := a / 2;
    }
    OneIsPower();
    UnitScale(m);
    dots := 0;
    var start := m;
    while start < n
      invariant IsPow2(start) && Scaled(start, m, baseExp)
      invariant start > 0
      decreases n - start
    {
      ScaleStep(start, m, baseExp);
      start := start * 2;
      baseExp := baseExp + 1;
    }
    while start > n
      invariant IsPow2(start) && Scaled(start, m, baseExp)
      invariant 2 * start > n
      decreases start
    {
      HalvesKeepPowers(start);
      ScaleBack(start, m, baseExp);
      start := start / 2;
      baseExp := baseExp - 1;
    }
    BaseQuotient(m, start, baseExp);
    base := m / start;
    a := n - start;
    var b := start;
    while a > 0
      invariant dots >= 0 && IsPow2(b) && Units(b, dots) == start
      invariant 0 <= a < b && n == 2 * start - b + a
    {
      HalvesKeepPowers(b);
      HalfTheUnit(b, dots);
      dots := dots + 1;
      b := b / 2;
      a := a - b;
      if a < 0 {
        NotDotted(n, m, start, baseExp, 2 * b);
        return -1, base, baseExp;
      }
    }
    CompleteDots(n, m, start, baseExp, dots);
  }

  /** d halvings of a note of b units give back the note they were taken from. */
  function Units(b: int, d: nat): int {
    b * Pow2(d)
  }

  lemma HalfTheUnit(b: int, d: nat)
    requires b % 2 == 0
    ensures Units(b / 2, d + 1) == Units(b, d)
  {
    assert b == 2 * (b / 2);
  }

  lemma OneIsPower()
    ensures IsPow2(1) && forall b :: Units(b, 0) == b
  {
    assert Pow2(0) == 1;
  }

  lemma CompleteDots(n: int, m: int, start: int, e: int, d: nat)
    requires m > 0 && Scaled(start, m, e) && Units(2 * start - n, d) == start
    ensures HasDots(n, m, e, d)
  {
    DotsAsIntegers(n, m, start, e, d);
  }

  lemma UnitScale(m: int)
    ensures Scaled(m, m, 0)
  {
  }

  /** start = m * 2^e */
  ghost predicate Scaled(start: int, m: int, e: int) {
    start as real == m as real * Exp2(e)
  }

  lemma ScaleStep(start: int, m: int, e: int)
    requires IsPow2(start) && Scaled(start, m, e)
    ensures IsPow2(start * 2) && Scaled(start * 2, m, e + 1)
  {
    Pow2Doubles(start);
    Exp2Doubles(e);
  }

  lemma ScaleBack(start: int, m: int, e: int)
    requires start % 2 == 0 && Scaled(start, m, e)
    ensures Scaled(start / 2, m, e - 1)
  {
    Exp2Doubles(e - 1);
  }

  lemma BaseQuotient(m: int, start: int, e: int)
    requires m > 0 && start > 0 && Scaled(start, m, e)
    ensures m / start == if e <= 0 then Pow2(-e) else 0
  {
    if e <= 0 {
      var p := Pow2(-e);
      assert Exp2(e) * p as real == 1.0;
      assert start as real * p as real == m as real * (Exp2(e) * p as real);
      assert (p * start) as real == m as real;
      MultipleQuotient(p, start);
    } else {
      Exp2Increasing(1, e);
      assert Exp2(1) == 2.0;
      assert m as real * Exp2(e) >= m as real * 2.0;
      EuclidUnique(m, start, 0, m);
    }
  }

  /** When the missing piece falls strictly between two neighbouring powers of two the
      fraction is dotted in no way at all. */
  lemma NotDotted(n: int, m: int, start: int, e: int, b: int)
    requires m > 0 && IsPow2(start) && IsPow2(b) && b > 1
    requires Scaled(start, m, e) && start <= n < 2 * start
    requires b / 2 < 2 * start - n < b
    ensures forall e': int, d: nat :: !HasDots(n, m, e', d)
  {
    forall e': int, d: nat
      ensures !HasDots(n, m, e', d)
    {
      if HasDots(n, m, e', d) {
        DotsRange(n, m, e', d);
        WholeRange(n, m, start, e);
        SameExponent(Value(n, m), e, e');
        DotsAsIntegers(n, m, start, e, d);
        FactorOfPower(2 * start - n, d, start);
        NoPowerBetween(b, 2 * start - n);
      }
    }
  }

  lemma WholeRange(n: int, m: int, start: int, e: int)
    requires m > 0 && Scaled(start, m, e) && start <= n < 2 * start
    ensures Exp2(e) <= Value(n, m) < Exp2(e + 1)
  {
    Exp2Doubles(e);
    QuotientBetween(n as real, m as real, Exp2(e));
  }

  lemma QuotientBetween(n: real, m: real, x: real)
    requires m > 0.0 && m * x <= n < 2.0 * (m * x)
    ensures x <= n / m < 2.0 * x
  {
    var v := n / m;
    assert n == v * m;
    assert (v - x) * m >= 0.0 && (2.0 * x - v) * m > 0.0;
  }

  lemma {:induction false} FactorOfPower(x: int, d: nat, p: int)
    requires IsPow2(p) && x * Pow2(d) == p
    ensures IsPow2(x)
    decreases d
  {
    if d > 0 {
      assert p == 2 * (x * Pow2(d - 1));
      Pow2Halves(p);
      FactorOfPower(x, d - 1, p / 2);
    }
  }
}
