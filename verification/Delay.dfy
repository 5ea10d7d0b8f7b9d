/** Waiting for lengths that are no whole number of ticks: `delay` (genmidi.c) carries the
    error of each rounding, as a fraction of a tick, into the next. */
module Delay {
  import opened CInt
  import opened Fractions
  import opened Playback

  /** The globals err_num and err_denom. */
  datatype Carry = Carry(num: int, denom: int)

  ghost predicate ProperFraction(e: Carry) {
    LowestTerms(e.num, e.denom) && 0 <= e.num < e.denom
  }

  /** A length a/b in units. */
  datatype Length = Length(num: nat, denom: Positive)

  /** The ticks that `delay(a, b, c)` hands to `timestep`, and the error it keeps. */
  function Delayed(divFactor: nat, e: Carry, a: nat, b: Positive, c: int): (int, Carry)
    requires e.denom > 0
  {
    var dt := divFactor * a / b + c;
    SumPositive(e.denom, b);
    var r := Reduced(e.num * b + divFactor * a % b * e.denom, e.denom * b);
    (dt + r.0 / r.1, Carry(r.0 % r.1, r.1))
  }

  lemma SumPositive(x: int, y: int)
    requires x > 0 && y > 0
    ensures x * y > 0
  {
  }

  /** The whole ticks of a fraction, and the rest. */
  lemma WholePart(x: int, b: int)
    requires b > 0
    ensures Value(x, b) == (x / b) as real + Value(x % b, b)
    ensures 0.0 <= Value(x % b, b) < 1.0
  {
    var q, r := x / b, x % b;
    assert x as real == q as real * b as real + r as real by {
      assert x == q * b + r;
    }
    SplitQuotient(q as real, r as real, b as real);
  }

  lemma SplitQuotient(q: real, r: real, b: real)
    requires b > 0.0 && 0.0 <= r < b
    ensures (q * b + r) / b == q + r / b && 0.0 <= r / b < 1.0
  {
    var v := r / b;
    assert r == v * b;
    assert q * b + r == (q + v) * b;
    RealQuotient(q + v, b);
    if v >= 1.0 {
      AtLeast(v, b);
    }
  }

  lemma AtLeast(v: real, b: real)
    requires v >= 1.0 && b > 0.0
    ensures v * b >= b
  {
  }

  lemma RemainderLowest(n: int, d: int)
    requires n >= 0 && LowestTerms(n, d)
    ensures LowestTerms(n % d, d)
  {
    var r := n % d;
    assert Gcd(n, d) == Gcd(d, r) && Abs(r) == r && Abs(n) == n;
    GcdSymmetric(r, d);
  }

  /** One wait is exact: the ticks taken and the error left over are what the error before
      and the length asked for come to. */
  lemma DelayedExact(divFactor: nat, e: Carry, a: nat, b: Positive, c: int)
    requires ProperFraction(e)
    ensures var (dt, e') := Delayed(divFactor, e, a, b, c);
            ProperFraction(e') &&
            dt as real + Value(e'.num, e'.denom) ==
            Value(e.num, e.denom) + Value(divFactor * a, b) + c as real
  {
    hide Value, LowestTerms, Reduced;
    var x := divFactor * a;
    var n, d := e.num * b + x % b * e.denom, e.denom * b;
    SumValue(e.num, e.denom, x % b, b);
    WholePart(x, b);
    NonNegativeSum(e.num, b, x % b, e.denom);
    ReducedPair(n, d);
    var r := Reduced(n, d);
    WholePart(r.0, r.1);
    RemainderLowest(r.0, r.1);
  }

  lemma NonNegativeSum(a: nat, b: nat, c: nat, d: nat)
    ensures a * b + c * d >= 0
  {
  }

  lemma ReducedPair(n: int, d: int)
    requires d > 0 && n >= 0
    ensures var r := Reduced(n, d);
            r.0 >= 0 && r.1 > 0 && LowestTerms(r.0, r.1) && Value(r.0, r.1) == Value(n, d)
  {
    ReducedValue(n, d, Gcd(Abs(n), d));
  }

  ghost function Total(xs: seq<Length>): real {
    if xs == [] then 0.0 else Value(xs[0].num, xs[0].denom) + Total(xs[1..])
  }

  /** The ticks issued by a run of waits, and the error at its end. */
  function RunDelays(divFactor: nat, e: Carry, xs: seq<Length>): (r: (int, Carry))
    requires e.denom > 0
    decreases xs
  {
    if xs == [] then (0, e)
    else
      var (dt, e') := Delayed(divFactor, e, xs[0].num, xs[0].denom, 0);
      var rest := RunDelays(divFactor, e', xs[1..]);
      (dt + rest.0, rest.1)
  }

  lemma ScaledValue(k: nat, a: nat, b: Positive)
    ensures Value(k * a, b) == k as real * Value(a, b)
  {
    ProductValue(k, 1, a, b);
    RealQuotient(k as real, 1.0);
  }

  lemma Distribute(k: real, x: real, y: real)
    ensures k * (x + y) == k * x + k * y
  {
  }

  lemma {:induction false} RunDelaysExact(divFactor: nat, e: Carry, xs: seq<Length>)
    requires ProperFraction(e)
    ensures var (total, e') := RunDelays(divFactor, e, xs);
            ProperFraction(e') &&
            total as real + Value(e'.num, e'.denom) == Value(e.num, e.denom) + divFactor as real * Total(xs)
    decreases xs
  {
    hide Value, LowestTerms, Delayed;
    if xs != [] {
      var (dt, e') := Delayed(divFactor, e, xs[0].num, xs[0].denom, 0);
      DelayedExact(divFactor, e, xs[0].num, xs[0].denom, 0);
      RunDelaysExact(divFactor, e', xs[1..]);
      ScaledValue(divFactor, xs[0].num, xs[0].denom);
      Distribute(divFactor as real, Value(xs[0].num, xs[0].denom), Total(xs[1..]));
    }
  }

  /** No drift: however many lengths are waited for, the ticks issued are all the whole
      ticks in their exact sum, and the error is its fractional part in lowest terms. */
  lemma NoDrift(divFactor: nat, xs: seq<Length>)
    ensures var (total, e) := RunDelays(divFactor, Carry(0, 1), xs);
            total == (divFactor as real * Total(xs)).Floor && ProperFraction(e) &&
            Value(e.num, e.denom) == divFactor as real * Total(xs) - total as real
  {
    RunDelaysExact(divFactor, Carry(0, 1), xs);
    var (total, e) := RunDelays(divFactor, Carry(0, 1), xs);
    WholePart(e.num, e.denom);
    EuclidUnique(e.num, e.denom, 0, e.num);
  }
}
