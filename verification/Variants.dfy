/** The lists of variant endings as they come out of the text: `getrep` (parseabc.c) copies
    one, `event_playonrep` (store.c) keeps it, and `inlist` (genmidi.c) reads it on each pass. */
module Variants {
  import opened Text
  import opened Repeats
  import opened RepeatsEnd

  predicate IsSeparator(c: char) {
    c == '-' || c == ','
  }

  /** Numbers with one separator in between each. */
  predicate NumberList(t: string) {
    forall i {:trigger t[i]} :: 0 <= i < |t| ==>
      IsDigit(t[i]) || (IsSeparator(t[i]) && 0 < i < |t| - 1 && IsDigit(t[i - 1]) && IsDigit(t[i + 1]))
  }

  /** `getrep`: the longest piece of the text from place p on that is such a list. */
  method Getrep(s: string, p: nat) returns (out: string, q: nat)
    requires p <= |s|
    ensures p <= q <= |s| && out == s[p..q] && NumberList(out)
    ensures forall r :: q < r <= |s| ==> !NumberList(s[p..r])
  {
    out, q := "", p;
    var digits := 0;
    while q < |s| && (IsDigit(s[q]) || (IsSeparator(s[q]) && digits > 0 && DigitAt(s, q + 1)))
      invariant p <= q <= |s| && out == s[p..q]
      invariant digits > 0 <==> q > p && IsDigit(s[q - 1])
      invariant digits == 0 && q > p ==> DigitAt(s, q)
      invariant digits >= 0 && forall i {:trigger s[i]} :: p <= i < q ==>
                  IsDigit(s[i]) || (IsSeparator(s[i]) && p < i && IsDigit(s[i - 1]) && DigitAt(s, i + 1))
    {
      assert s[p..q + 1] == s[p..q] + [s[q]];
      out := out + [s[q]];
      digits := if IsDigit(s[q]) then digits + 1 else 0;
      q := q + 1;
    }
    forall r | q < r <= |s|
      ensures !NumberList(s[p..r])
    {
      var t := s[p..r];
      assert t[q - p] == s[q];
      assert q > p ==> t[q - p - 1] == s[q - 1];
      assert q + 1 < r ==> t[q - p + 1] == s[q + 1];
    }
  }

  /** `event_playonrep`: a single number other than 0 is kept as such, everything else as text. */
  function Listing(t: string): Sign {
    var (a, j) := ReadNumber(t, 0, 0);
    if j == |t| && a != 0 then PlayOnRep(a, "") else PlayOnRep(0, t)
  }

  /** Which of the two ways a list is kept in makes no difference to what it holds. */
  lemma ListingMeans(t: string, pass: nat)
    requires t != "" && NumberList(t)
    ensures InList(Listing(t), pass) == InText(t, 0, pass)
  {
    assert IsDigit(t[0]);
    var (a, j) := ReadNumber(t, 0, 0);
    if j == |t| {
      hide ReadNumber;
      assert InText(t, |t|, pass) == Listed(false, false);
    }
  }

  /** A number stands between two dashes, from place i on. */
  ghost predicate BetweenDashes(t: string, i: nat) {
    exists a, b :: i <= a < b < |t| && t[a] == '-' && t[b] == '-' && forall k :: a < k < b ==> IsDigit(t[k])
  }

  lemma {:induction false} NumberDigits(t: string, i: nat, n: nat)
    requires i <= |t|
    ensures forall k :: i <= k < ReadNumber(t, i, n).1 ==> IsDigit(t[k])
    decreases |t| - i
  {
    if DigitAt(t, i) {
      NumberDigits(t, i + 1, n * 10 + DigitValue(t[i]));
    }
  }

  /** Where the number or range that begins at place i ends. */
  function ItemEnd(t: string, i: nat): (k: nat)
    requires i < |t| && IsDigit(t[i])
    ensures i < k <= |t|
  {
    var j := ReadNumber(t, i, 0).1;
    if j < |t| && t[j] == '-' then ReadNumber(t, j + 1, 0).1 else j
  }

  lemma PassDigits(t: string, i: nat, j: nat)
    requires i <= j <= |t| && forall k :: i <= k < j ==> IsDigit(t[k])
    ensures BetweenDashes(t, i) <==> BetweenDashes(t, j)
  {
  }

  lemma PassComma(t: string, k: nat)
    requires k < |t| && t[k] == ','
    ensures BetweenDashes(t, k) <==> BetweenDashes(t, k + 1)
  {
  }

  /** After a range, only a second dash makes it two. */
  lemma PassDash(t: string, j: nat, k: nat)
    requires j < k <= |t| && t[j] == '-' && (forall n :: j < n < k ==> IsDigit(t[n])) && (k < |t| ==> !IsDigit(t[k]))
    ensures k < |t| && t[k] == '-' ==> BetweenDashes(t, j)
    ensures k == |t| || t[k] != '-' ==> (BetweenDashes(t, j) <==> BetweenDashes(t, k))
  {
    forall a, b | j <= a < b < |t| && t[a] == '-' && t[b] == '-' && forall n :: a < n < b ==> IsDigit(t[n])
      ensures a >= k || (k < |t| && t[k] == '-')
    {
    }
  }

  /** There the list goes on after a comma, or comes to a second dash, or ends. */
  lemma OneItem(t: string, i: nat)
    requires NumberList(t) && i < |t| && IsDigit(t[i])
    ensures var k := ItemEnd(t, i);
            if k == |t| then !BetweenDashes(t, i)
            else if t[k] == ',' then k + 1 < |t| && IsDigit(t[k + 1]) && (BetweenDashes(t, i) <==> BetweenDashes(t, k + 1))
            else t[k] == '-' && BetweenDashes(t, i)
  {
    hide ReadNumber, BetweenDashes;
    var j, k := ReadNumber(t, i, 0).1, ItemEnd(t, i);
    NumberDigits(t, i, 0);
    PassDigits(t, i, j);
    NothingBetween(t);
    if j < |t| && t[j] == '-' {
      NumberDigits(t, j + 1, 0);
      PassDash(t, j, k);
    }
    if k < |t| && t[k] == ',' {
      PassComma(t, k);
    }
  }

  /** What `inlist` does with it. */
  lemma ItemRead(t: string, i: nat, pass: nat)
    requires i < |t| && IsDigit(t[i])
    ensures var k := ItemEnd(t, i);
            var next := if k < |t| && t[k] == ',' then k + 1 else k;
            && (InText(t, i, pass) == Listed(true, false) || InText(t, i, pass) == InText(t, next, pass))
            && (pass >= TextLimit(t, i) ==> InText(t, i, pass) == InText(t, next, pass) && pass >= TextLimit(t, next))
  {
    hide ReadNumber;
  }

  lemma NoItem(t: string, i: nat, pass: nat)
    requires i <= |t| && !DigitAt(t, i)
    ensures InText(t, i, pass) == Listed(i < |t|, i < |t|)
  {
  }

  /** A number between two dashes makes a list bad, on every pass beyond its numbers; without
      one it is bad on no pass. */
  lemma {:induction false} BadFrom(t: string, i: nat, pass: nat)
    requires NumberList(t) && i <= |t| && (i < |t| ==> IsDigit(t[i]))
    ensures InText(t, i, pass).bad ==> BetweenDashes(t, i)
    ensures pass >= TextLimit(t, i) && BetweenDashes(t, i) ==> InText(t, i, pass).bad
    decreases |t| - i
  {
    hide InText, TextLimit, BetweenDashes, ItemEnd, NumberList;
    if i < |t| {
      OneItem(t, i);
      ItemRead(t, i, pass);
      var k := ItemEnd(t, i);
      if k < |t| && t[k] == ',' {
        BadFrom(t, k + 1, pass);
      } else {
        NoItem(t, k, pass);
      }
    } else {
      NoItem(t, i, pass);
      NothingBetween(t);
    }
  }

  lemma NothingBetween(t: string)
    ensures !BetweenDashes(t, |t|)
  {
  }

  /** Of the lists that `getrep` copies, exactly those are ever bad that have a number between
      two dashes. */
  lemma ListGoodExactly(t: string)
    requires NumberList(t) && t != ""
    ensures NeverBad(Listing(t)) <==> !BetweenDashes(t, 0)
  {
    hide InText, BetweenDashes, TextLimit;
    var (a, j) := ReadNumber(t, 0, 0);
    assert IsDigit(t[0]);
    if j == |t| && a != 0 {
      OneItem(t, 0);
    } else {
      var bad := TextLimit(t, 0);
      forall p: nat
        ensures InText(t, 0, p).bad ==> BetweenDashes(t, 0)
        ensures p == bad && BetweenDashes(t, 0) ==> InText(t, 0, p).bad
      {
        BadFrom(t, 0, p);
      }
      assert InList(Listing(t), bad) == InText(t, 0, bad);
    }
  }

  /** So a section comes to an end if in none of its lists a number stands between dashes. */
  lemma PlainListsEnd(x: Section, lists: seq<string>)
    requires x.Shaped() && |lists| == |x.endings|
    requires forall k :: 0 <= k < |lists| ==>
               lists[k] != "" && NumberList(lists[k]) && !BetweenDashes(lists[k], 0) && x.endings[k].sign == Listing(lists[k])
    ensures exists p: nat :: 1 <= p <= Beyond(x.endings) && LastPass(x, p)
  {
    hide Beyond, LastPass, NeverBad, Listing, NumberList, BetweenDashes;
    forall k | 0 <= k < |x.endings|
      ensures NeverBad(x.endings[k].sign)
    {
      ListGoodExactly(lists[k]);
    }
    GoodSectionEnds(x);
  }

  /** [1-2-3 */
  const DASHES: string := "1-2-3"

  lemma DashesList()
    ensures NumberList(DASHES) && BetweenDashes(DASHES, 0) && Listing(DASHES) == PlayOnRep(0, DASHES)
  {
    assert DASHES[1] == '-' && DASHES[3] == '-';
    assert ReadNumber(DASHES, 0, 0) == ReadNumber(DASHES, 1, 1) == (1, 1);
  }

  /** It holds every pass: the first two, and, as a bad list, all the others. */
  lemma DashesFound(pass: nat)
    requires pass >= 1
    ensures InList(PlayOnRep(0, DASHES), pass).found
  {
    assert ReadNumber(DASHES, 0, 0) == ReadNumber(DASHES, 1, 1) == (1, 1);
    assert ReadNumber(DASHES, 2, 0) == ReadNumber(DASHES, 3, 2) == (2, 3);
    assert InText(DASHES, 3, pass) == Listed(true, true);
  }

  function Endless(): Section {
    Section([Music(0)], [Ending(Listing(DASHES), [Music(1)])], true)
  }

  /** |: A [1-2-3 B :| is played for ever. */
  lemma NeverEnds(n: nat)
    ensures Endless().Shaped() && OneSection(Endless()) == [BarRep, Music(0), PlayOnRep(0, DASHES), Music(1), RepBar]
    ensures Rounds(OneSection(Endless()), START, n).j < |OneSection(Endless())|
  {
    EndlessShape();
    hide Rounds, InList, DASHES, Beyond;
    forall p: nat | p >= 1
      ensures !LastPass(Endless(), p)
    {
      DashesFound(p);
      assert Endless().Chosen(p, 0) == 0;
    }
    TuneEndsExactly(Endless());
  }

  lemma EndlessShape()
    ensures Endless().Shaped() && OneSection(Endless()) == [BarRep, Music(0), PlayOnRep(0, DASHES), Music(1), RepBar]
    ensures |Endless().endings| == 1 && Endless().endings[0].sign == PlayOnRep(0, DASHES)
  {
    DashesList();
    hide DASHES;
    var x := Endless();
    assert x.EndingsText(1) == [];
    assert x.EndingsText(0) == [PlayOnRep(0, DASHES), Music(1), RepBar];
  }
}
