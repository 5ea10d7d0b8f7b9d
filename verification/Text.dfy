/** Reading and printing text: where a piece of text stands in a longer one, and decimal
    numbers (`readnump` in parseabc.c and genmidi.c, printf's %d). */
module Text {

  /** The text `p` stands at position `i` of `s`. */
  ghost predicate HasAt(s: string, i: nat, p: string) {
    i + |p| <= |s| && s[i..i + |p|] == p
  }

  lemma SplitAt(s: string, i: nat, p: string, q: string)
    requires HasAt(s, i, p + q)
    ensures HasAt(s, i, p) && HasAt(s, i + |p|, q)
  {
    var t := s[i..i + |p + q|];
    assert s[i..i + |p|] == t[..|p|] == p;
    assert s[i + |p|..i + |p| + |q|] == t[|p|..] == q;
  }

  lemma CharAt(s: string, i: nat, c: char)
    requires HasAt(s, i, [c])
    ensures s[i] == c
  {
    assert s[i..i + 1][0] == c;
  }

  predicate IsDigit(c: char) {
    '0' <= c <= '9'
  }

  function DigitValue(c: char): (d: nat)
    requires IsDigit(c)
    ensures d < 10
  {
    c as int - '0' as int
  }

  function DigitChar(d: nat): (c: char)
    requires d < 10
    ensures IsDigit(c) && DigitValue(c) == d
  {
    ('0' as int + d) as char
  }

  predicate DigitAt(s: string, i: nat) {
    i < |s| && IsDigit(s[i])
  }

  /** `readnump` from position `i`, having read `t` so far: the number and where it ends. */
  function ReadNumber(s: string, i: nat, t: nat): (r: (nat, nat))
    requires i <= |s|
    ensures i <= r.1 <= |s| && !DigitAt(s, r.1)
    ensures DigitAt(s, i) ==> i < r.1
    decreases |s| - i
  {
    if DigitAt(s, i) then ReadNumber(s, i + 1, t * 10 + DigitValue(s[i])) else (t, i)
  }

  method Readnump(s: string, p: nat) returns (t: nat, next: nat)
    requires p <= |s|
    ensures (t, next) == ReadNumber(s, p, 0)
  {
    t := 0;
    next := p;
    while next < |s| && '0' <= s[next] <= '9'
      invariant p <= next <= |s|
      invariant ReadNumber(s, next, t) == ReadNumber(s, p, 0)
    {
      t := t * 10 + DigitValue(s[next]);
      next := next + 1;
    }
  }

  function PrintNumber(n: nat): (s: string)
    ensures |s| > 0 && forall k :: 0 <= k < |s| ==> IsDigit(s[k])
  {
    if n < 10 then [DigitChar(n)] else PrintNumber(n / 10) + [DigitChar(n % 10)]
  }

  lemma {:induction false} ReadPrinted(s: string, i: nat, n: nat)
    requires HasAt(s, i, PrintNumber(n))
    ensures ReadNumber(s, i, 0) == ReadNumber(s, i + |PrintNumber(n)|, n)
  {
    if n < 10 {
      CharAt(s, i, DigitChar(n));
    } else {
      var j := i + |PrintNumber(n / 10)|;
      SplitAt(s, i, PrintNumber(n / 10), [DigitChar(n % 10)]);
      ReadPrinted(s, i, n / 10);
      CharAt(s, j, DigitChar(n % 10));
      assert n / 10 * 10 + n % 10 == n;
    }
  }

  /** Reading undoes printing, when no further digit follows. */
  lemma ReadNumberInverts(s: string, i: nat, n: nat)
    requires HasAt(s, i, PrintNumber(n)) && !DigitAt(s, i + |PrintNumber(n)|)
    ensures ReadNumber(s, i, 0) == (n, i + |PrintNumber(n)|)
    ensures DigitAt(s, i)
  {
    ReadPrinted(s, i, n);
    assert s[i..i + |PrintNumber(n)|][0] == PrintNumber(n)[0];
  }

  lemma DecimalNumber()
    ensures ReadNumber("1907a", 0, 0) == (1907, 4) && PrintNumber(1907) == "1907"
  {
    assert ReadNumber("1907a", 1, 1) == ReadNumber("1907a", 2, 19) == ReadNumber("1907a", 3, 190) == (1907, 4);
    assert PrintNumber(1) == "1" && PrintNumber(19) == "19" && PrintNumber(190) == "190";
  }
}
