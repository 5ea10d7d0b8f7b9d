/** Variable-length quantities of the Standard MIDI Files 1.0 specification: seven bits to
    a byte, most significant first, with the top bit set on all bytes but the last
    (`WriteVarLen` and `readvarinum` in midifile.c). */
module VarLen {
  import opened CInt

  type Byte = x: int | 0 <= x < 256

  /** What stops the reader; NoTrack is not reported, it is the answer 0 of `readtrack`. */
  datatype Error =
    | NoTrack | PrematureEof | ExpectingHeader | ContinuationExpected | UnexpectedRunningStatus | UnexpectedByte(b: Byte)

  datatype Result<+T> = Ok(value: T) | Err(error: Error) {
    predicate IsFailure() { Err? }
    function PropagateFailure<U>(): Result<U>
      requires Err?
    {
      Err(error)
    }
    function Extract(): T
      requires Ok?
    {
      value
    }
  }

  /** The bytes `p` stand at position `i` of `s`. */
  ghost predicate HasBytes(s: seq<Byte>, i: nat, p: seq<Byte>) {
    i + |p| <= |s| && s[i..i + |p|] == p
  }

  lemma SplitBytes(s: seq<Byte>, i: nat, p: seq<Byte>, q: seq<Byte>)
    requires HasBytes(s, i, p + q)
    ensures HasBytes(s, i, p) && HasBytes(s, i + |p|, q)
  {
    var t := s[i..i + |p + q|];
    assert s[i..i + |p|] == t[..|p|] == p;
    assert s[i + |p|..i + |p| + |q|] == t[|p|..] == q;
  }

  lemma ByteAt(s: seq<Byte>, i: nat, b: Byte)
    requires HasBytes(s, i, [b])
    ensures i < |s| && s[i] == b
  {
    assert s[i..i + 1][0] == b;
  }

  /** The groups of seven bits of a value, all marked as not being the last. */
  function Leading(v: nat): seq<Byte> {
    if v == 0 then [] else Leading(v / 128) + [128 + v % 128]
  }

  /** The variable-length form of a value. */
  function Quantity(v: nat): (q: seq<Byte>)
    ensures |q| >= 1
  {
    Leading(v / 128) + [v % 128]
  }

  /** `readvarinum` at position `i`, when the bytes before it came to `v`. */
  function ReadOn(s: seq<Byte>, i: nat, v: nat): (r: Result<(nat, nat)>)
    ensures r.Ok? ==> i < r.value.1 <= |s|
    decreases |s| - i
  {
    if i >= |s| then Err(PrematureEof)
    else
      var v' := v * 128 + s[i] % 128;
      if s[i] < 128 then Ok((v', i + 1)) else ReadOn(s, i + 1, v')
  }

  /** `readvarinum`: the value and the position after it. */
  function ReadQuantity(s: seq<Byte>, i: nat): (r: Result<(nat, nat)>)
    ensures r.Ok? ==> i < r.value.1 <= |s|
  {
    ReadOn(s, i, 0)
  }

  lemma {:induction false} LeadingFlags(v: nat)
    ensures forall k :: 0 <= k < |Leading(v)| ==> Leading(v)[k] >= 128
  {
    if v != 0 {
      LeadingFlags(v / 128);
    }
  }

  lemma {:induction false} ReadLeading(s: seq<Byte>, i: nat, v: nat)
    requires HasBytes(s, i, Leading(v))
    ensures ReadOn(s, i, 0) == ReadOn(s, i + |Leading(v)|, v)
    decreases v
  {
    if v != 0 {
      var front, b := Leading(v / 128), 128 + v % 128;
      SplitBytes(s, i, front, [b]);
      ReadLeading(s, i, v / 128);
      ByteAt(s, i + |front|, b);
      assert b % 128 == v % 128 && v / 128 * 128 + v % 128 == v;
    }
  }

  /** Reading undoes writing, and stops exactly at the end of what was written. */
  lemma ReadInvertsWrite(s: seq<Byte>, i: nat, v: nat)
    requires HasBytes(s, i, Quantity(v))
    ensures ReadQuantity(s, i) == Ok((v, i + |Quantity(v)|))
  {
    hide Leading, HasBytes;
    var front, b := Leading(v / 128), v % 128;
    SplitBytes(s, i, front, [b]);
    ReadLeading(s, i, v / 128);
    ByteAt(s, i + |front|, b);
    ReadLast(s, i + |front|, v / 128, b);
  }

  lemma ReadLast(s: seq<Byte>, i: nat, h: nat, b: nat)
    requires i < |s| && s[i] == b < 128
    ensures ReadOn(s, i, h) == Ok((h * 128 + b, i + 1))
  {
  }

  /** Only the last byte is below 0x80. */
  lemma QuantityFlags(v: nat, k: nat)
    requires k < |Quantity(v)|
    ensures Quantity(v)[k] < 128 <==> k == |Quantity(v)| - 1
  {
    LeadingFlags(v / 128);
  }

  function Pow128(n: nat): (p: nat)
    ensures p > 0
  {
    if n == 0 then 1 else 128 * Pow128(n - 1)
  }

  lemma {:induction false} LeadingLength(v: nat, n: nat)
    ensures |Leading(v)| <= n <==> v < Pow128(n)
    decreases n
  {
    if v != 0 && n != 0 {
      LeadingLength(v / 128, n - 1);
      assert v / 128 < Pow128(n - 1) <==> v < 128 * Pow128(n - 1);
    }
  }

  /** n bytes are enough exactly for the values of 7n bits: up to 2^28 - 1 in four. */
  lemma QuantityLength(v: nat, n: nat)
    requires n >= 1
    ensures |Quantity(v)| <= n <==> v < Pow128(n)
    ensures Pow128(4) == 0x1000_0000
  {
    LeadingLength(v / 128, n - 1);
    assert v / 128 < Pow128(n - 1) <==> v < 128 * Pow128(n - 1);
  }

  lemma {:induction false} ReadOnBound(s: seq<Byte>, i: nat, v: nat, n: nat)
    requires ReadOn(s, i, v).Ok? && v < Pow128(n)
    ensures var (w, j) := ReadOn(s, i, v).value; w < Pow128(n + (j - i))
    decreases |s| - i
  {
    if s[i] >= 128 {
      ReadOnBound(s, i + 1, v * 128 + s[i] % 128, n + 1);
    }
  }

  /** What is written is the shortest form: nothing shorter reads back as that value. */
  lemma QuantityShortest(s: seq<Byte>, i: nat, v: nat, j: nat)
    requires ReadQuantity(s, i) == Ok((v, j))
    ensures |Quantity(v)| <= j - i
  {
    ReadOnBound(s, i, 0, 0);
    QuantityLength(v, j - i);
  }

  lemma {:induction false} HigherDigit(v: nat, n: nat)
    ensures v / 128 / Pow128(n) == v / Pow128(n + 1)
  {
    var p := Pow128(n);
    var a, b := v / 128, v / 128 / p;
    var r := v % 128 + 128 * (a % p);
    assert a == p * b + a % p && v == 128 * a + v % 128;
    assert v == 128 * (p * b) + r == (128 * p) * b + r;
    QuotientIs(v, 128 * p, b, r);
  }

  lemma {:induction false} LeadingGroups(v: nat, k: nat)
    requires k < |Leading(v)|
    ensures Leading(v)[k] % 128 == v / Pow128(|Leading(v)| - 1 - k) % 128
    decreases v
  {
    if v != 0 && k < |Leading(v)| - 1 {
      LeadingGroups(v / 128, k);
      HigherDigit(v, |Leading(v / 128)| - 1 - k);
    }
  }

  /** Each byte holds seven bits of the value, the first the highest. */
  lemma QuantityGroups(v: nat, k: nat)
    requires k < |Quantity(v)|
    ensures Quantity(v)[k] % 128 == v / Pow128(|Quantity(v)| - 1 - k) % 128
  {
    var front := Leading(v / 128);
    if k < |front| {
      LeadingGroups(v / 128, k);
      HigherDigit(v, |front| - 1 - k);
      hide *;
      assert Quantity(v)[k] == front[k];
    } else {
      assert Pow128(0) == 1;
    }
  }

  /** Bytes gathered in one integer, the first in the lowest position. */
  function Pack(q: seq<Byte>): nat {
    if q == [] then 0 else q[0] + 256 * Pack(q[1..])
  }
}
