/** Whether `writetrack` (genmidi.c) comes to an end: what the lists of variant endings have to
    do with it. */
module RepeatsEnd {
  import opened Text
  import opened Repeats

  /** Beyond all numbers of a list, from place i of its text on, as far as `inlist` can read it. */
  function TextLimit(t: string, i: nat): nat
    requires i <= |t|
    decreases |t| - i
  {
    if i == |t| || !IsDigit(t[i]) then 0
    else
      var (a, j) := ReadNumber(t, i, 0);
      var (b, k) := if j < |t| && t[j] == '-' then ReadNumber(t, j + 1, 0) else (0, j);
      var rest := TextLimit(t, if k < |t| && t[k] == ',' then k + 1 else k);
      if a >= b && a >= rest then a + 1 else if b >= rest then b + 1 else rest
  }

  /** Beyond its numbers a list gives one answer for all passes: found, if it is bad, and else
      not. */
  lemma {:induction false} BeyondLimit(t: string, i: nat, pass: nat)
    requires i <= |t| && pass >= TextLimit(t, i)
    ensures InText(t, i, pass).found == InText(t, i, pass).bad
    decreases |t| - i
  {
    hide ReadNumber, IsDigit;
    if i < |t| && IsDigit(t[i]) {
      var (a, j) := ReadNumber(t, i, 0);
      var (b, k) := if j < |t| && t[j] == '-' then ReadNumber(t, j + 1, 0) else (0, j);
      BeyondLimit(t, if k < |t| && t[k] == ',' then k + 1 else k, pass);
    }
  }

  /** A list that is bad for one pass is taken to hold every pass. */
  lemma {:induction false} BadHoldsAll(t: string, i: nat, pass: nat, other: nat)
    requires i <= |t| && InText(t, i, pass).bad
    ensures InText(t, i, other).found
    decreases |t| - i
  {
    hide ReadNumber, IsDigit;
    if IsDigit(t[i]) {
      var (a, j) := ReadNumber(t, i, 0);
      var (b, k) := if j < |t| && t[j] == '-' then ReadNumber(t, j + 1, 0) else (0, j);
      BadHoldsAll(t, if k < |t| && t[k] == ',' then k + 1 else k, pass, other);
    }
  }

  /** `inlist` never comes to a character that is no digit where a number should begin. */
  ghost predicate NeverBad(s: Sign) {
    s.PlayOnRep? ==> forall p: nat {:trigger InList(s, p)} :: !InList(s, p).bad
  }

  /** The passes of a sign stay below m. */
  ghost predicate Below(s: Sign, m: nat) {
    s.PlayOnRep? ==> forall p: nat {:trigger InList(s, p)} :: InList(s, p).found ==> p < m
  }

  function SignLimit(s: Sign): nat {
    if !s.PlayOnRep? then 0 else if s.only != 0 then s.only + 1 else TextLimit(s.list, 0)
  }

  lemma GoodSign(s: Sign)
    requires NeverBad(s)
    ensures Below(s, SignLimit(s))
  {
    hide TextLimit, InText;
    if s.PlayOnRep? && s.only == 0 {
      forall p: nat | InList(s, p).found
        ensures p < SignLimit(s)
      {
        assert !InList(s, p).bad;
        if p >= SignLimit(s) {
          BeyondLimit(s.list, 0, p);
        }
      }
    }
  }

  lemma BadSign(s: Sign, m: nat)
    requires !NeverBad(s)
    ensures InList(s, m).found
  {
    hide InText;
    var p: nat :| InList(s, p).bad;
    BadHoldsAll(s.list, 0, p, m);
  }

  lemma {:induction false} GoodSigns(s: seq<Sign>) returns (m: nat)
    requires forall k :: 0 <= k < |s| ==> NeverBad(s[k])
    ensures Bounded(s, m)
    decreases |s|
  {
    hide InList, NeverBad, Below, SignLimit;
    if s == [] {
      m := 2;
    } else {
      var rest := GoodSigns(s[..|s| - 1]);
      GoodSign(s[|s| - 1]);
      var last := SignLimit(s[|s| - 1]);
      m := if last < rest then rest else last;
      MoreBounded(s, rest, last, m);
    }
  }

  lemma MoreBounded(s: seq<Sign>, rest: nat, last: nat, m: nat)
    requires s != [] && Bounded(s[..|s| - 1], rest) && m >= rest && m >= last && Below(s[|s| - 1], last)
    ensures Bounded(s, m)
  {
    hide InList;
    forall j, p: nat {:trigger InList(s[j], p)} | 0 <= j < |s| && s[j].PlayOnRep? && InList(s[j], p).found
      ensures p < m
    {
      if j < |s| - 1 {
        assert s[j] == s[..|s| - 1][j];
      }
    }
  }

  /** The number of passes has a bound, which is what makes `writetrack` end whatever the
      repeat signs are, if and only if no list is bad on any pass. */
  lemma PassesEndExactly(s: seq<Sign>)
    ensures (exists m: nat :: Bounded(s, m)) <==> forall k :: 0 <= k < |s| ==> NeverBad(s[k])
  {
    hide InList, NeverBad;
    if forall k :: 0 <= k < |s| ==> NeverBad(s[k]) {
      var m := GoodSigns(s);
    } else {
      var k :| 0 <= k < |s| && !NeverBad(s[k]);
      forall m: nat
        ensures !Bounded(s, m)
      {
        BadSign(s[k], m);
        BadIsSign(s[k]);
      }
    }
  }

  lemma BadIsSign(s: Sign)
    requires !NeverBad(s)
    ensures s.PlayOnRep?
  {
  }

  /** Lists of numbers and ranges are never bad. */
  lemma ListNeverBad(xs: seq<Passes>)
    ensures NeverBad(PlayOnRep(0, ListText(xs)))
  {
    hide ListText, InText;
    var t := ListText(xs);
    WholeText(t);
    forall p: nat
      ensures !InText(t, 0, p).bad
    {
      ListMeans(t, 0, xs, p);
    }
  }

  lemma WholeText(t: string)
    ensures HasAt(t, 0, t)
  {
  }

  /** So many rounds of the loop in `writetrack`. */
  function Rounds(s: seq<Sign>, st: State, n: nat): State
    decreases n
  {
    if n == 0 || st.j >= |s| then st else Rounds(s, Step(s, st).st, n - 1)
  }

  lemma {:induction false} RoundsAdd(s: seq<Sign>, st: State, a: nat, b: nat)
    ensures Rounds(s, Rounds(s, st, a), b) == Rounds(s, st, a + b)
    decreases a
  {
    hide Step;
    if a > 0 && st.j < |s| {
      RoundsAdd(s, Step(s, st).st, a - 1, b);
    }
  }

  /** In n rounds to another state, all of them begun before place `end`. */
  ghost predicate Leads(s: seq<Sign>, st: State, n: nat, st': State, end: nat) {
    Rounds(s, st, n) == st' && forall k: nat {:trigger Rounds(s, st, k)} :: k < n ==> Rounds(s, st, k).j < end
  }

  lemma LeadsOn(s: seq<Sign>, st: State, a: nat, st1: State, b: nat, st2: State, end: nat)
    requires Leads(s, st, a, st1, end) && Leads(s, st1, b, st2, end)
    ensures Leads(s, st, a + b, st2, end)
  {
    hide Rounds;
    RoundsAdd(s, st, a, b);
    forall k: nat {:trigger Rounds(s, st, k)} | k < a + b
      ensures Rounds(s, st, k).j < end
    {
      if k >= a {
        RoundsAdd(s, st, a, k - a);
      }
    }
  }

  lemma LeadsNowhere(s: seq<Sign>, st: State, end: nat)
    ensures Leads(s, st, 0, st, end)
  {
  }

  lemma OneRound(s: seq<Sign>, st: State, end: nat)
    requires st.j < end <= |s|
    ensures Leads(s, st, 1, Step(s, st).st, end)
  {
    hide Step;
    assert Rounds(s, st, 1) == Rounds(s, Step(s, st).st, 0);
  }

  lemma {:induction false} PlainLeads(s: seq<Sign>, st: State, b: seq<Sign>, end: nat)
    requires SignsAt(s, st.j, b) && Plain(b) && st.j + |b| <= end <= |s|
    ensures Leads(s, st, |b|, st.(j := st.j + |b|, inVar := st.inVar && !HasDouble(b)), end)
    decreases |b|
  {
    hide Rounds, Leads;
    if b == [] {
      LeadsNowhere(s, st, end);
    } else {
      OneRound(s, st, end);
      assert s[st.j] == s[st.j..st.j + |b|][0] == b[0];
      var st1 := Step(s, st).st;
      assert s[st1.j..st1.j + |b[1..]|] == b[1..];
      PlainLeads(s, st1, b[1..], end);
      DoubleFirst(b);
      LeadsOn(s, st, 1, st1, |b[1..]|, st.(j := st.j + |b|, inVar := st.inVar && !HasDouble(b)), end);
    }
  }

  lemma OutLeads(s: seq<Sign>, st: State, e: Ending, end: nat)
    requires st.j < |s| && s[st.j] == e.sign && ShapedEnding(e) && SignsAt(s, st.j + 1, e.body)
    requires (st.awaited || st.pass > 1) && !InList(e.sign, st.pass).found
    requires var k := st.j + 1 + |e.body|; k < end <= |s| && (s[k].RepBar? || s[k].DoubleBar?)
    ensures Leads(s, st, 1, st.(j := st.j + 2 + |e.body|), end)
  {
    hide Rounds, Leads, InList;
    OneRound(s, st, end);
    StopsAfter(s, st.j + 1, e.body);
  }

  lemma InLeads(s: seq<Sign>, p: nat, maxpass: nat, h: nat, pos: nat, e: Ending, end: nat) returns (n: nat)
    requires h > 0 && p >= 1 && pos < |s| && s[pos] == e.sign && ShapedEnding(e) && SignsAt(s, pos + 1, e.body)
    requires InList(e.sign, p).found
    requires var k := pos + 1 + |e.body|; k < end <= |s| && (s[k].RepBar? || s[k].DoubleBar?)
    ensures n > 0
    ensures var k := pos + 1 + |e.body|;
            Leads(s, OnPass(pos, p, maxpass, h), n,
                  if s[k].RepBar? then OnPass(h, p + 1, p + 1, h) else OnPass(k + 1, p, p + 1, h), end)
  {
    hide Rounds, Leads, InList, Plain, SignsAt, HasDouble;
    var st, k := OnPass(pos, p, maxpass, h), pos + 1 + |e.body|;
    OneRound(s, st, end);
    var playing := Step(s, st).st;
    assert playing == st.(j := pos + 1, inVar := true, maxpass := p + 1);
    PlainLeads(s, playing, e.body, end);
    LeadsOn(s, st, 1, playing, |e.body|, playing.(j := k), end);
    OneRound(s, playing.(j := k), end);
    n := 1 + |e.body| + 1;
    LeadsOn(s, st, 1 + |e.body|, playing.(j := k), 1, Step(s, playing.(j := k)).st, end);
  }

  lemma {:induction false} EndingsLead(s: seq<Sign>, x: Section, p: nat, maxpass: nat, h: nat, pos: nat, i: nat)
    returns (n: nat, st: State)
    requires x.Shaped() && i <= |x.endings| && h > 0 && p >= 1 && SignsAt(s, pos, x.EndingsText(i))
    ensures Leads(s, OnPass(pos, p, maxpass, h), n, st, pos + |x.EndingsText(i)|)
    ensures var k, end := x.Chosen(p, i), pos + |x.EndingsText(i)|;
            if k < |x.endings| && x.Close(k).RepBar? then n > 0 && st == OnPass(h, p + 1, p + 1, h) else st.j == end
    decreases |x.endings| - i
  {
    hide *;
    var end := pos + |x.EndingsText(i)|;
    SectionShape(x);
    AtWithin(s, pos, x.EndingsText(i));
    OnPassMeans(pos, p, maxpass, h);
    ChosenFrom(x, p, i);
    if i == |x.endings| {
      n, st := 0, OnPass(pos, p, maxpass, h);
      LeadsNowhere(s, st, end);
      NoEndings(x, i);
    } else {
      var e := x.endings[i];
      EndingShape(e);
      EndingParts(s, pos, x, i);
      LastEnding(x, i);
      if InList(e.sign, p).found {
        n := InLeads(s, p, maxpass, h, pos, e, end);
        st := if x.Close(i).RepBar? then OnPass(h, p + 1, p + 1, h) else OnPass(pos + 2 + |e.body|, p, p + 1, h);
        OnPassMeans(pos + 2 + |e.body|, p, p + 1, h);
      } else {
        var next := pos + 2 + |e.body|;
        OutLeads(s, OnPass(pos, p, maxpass, h), e, end);
        OnPassMeans(next, p, maxpass, h);
        var n1;
        n1, st := EndingsLead(s, x, p, maxpass, h, next, i + 1);
        n := 1 + n1;
        LeadsOn(s, OnPass(pos, p, maxpass, h), 1, OnPass(next, p, maxpass, h), n1, st, end);
      }
    }
  }

  lemma SectionShape(x: Section)
    requires x.Shaped()
    ensures Plain(x.head) && forall k :: 0 <= k < |x.endings| ==> ShapedEnding(x.endings[k])
  {
  }

  lemma EndingShape(e: Ending)
    requires ShapedEnding(e)
    ensures e.sign.PlayOnRep? && Plain(e.body) && !HasDouble(e.body)
  {
  }

  lemma AtWithin(s: seq<Sign>, i: nat, b: seq<Sign>)
    requires SignsAt(s, i, b)
    ensures i + |b| <= |s|
  {
  }

  lemma NoEndings(x: Section, i: nat)
    requires i == |x.endings|
    ensures x.EndingsText(i) == []
  {
  }

  lemma ChosenFrom(x: Section, p: nat, i: nat)
    requires i <= |x.endings| && forall k :: 0 <= k < |x.endings| ==> ShapedEnding(x.endings[k])
    ensures i < |x.endings| ==> x.endings[i].sign.PlayOnRep?
    ensures x.Chosen(p, i) ==
            if i == |x.endings| || InList(x.endings[i].sign, p).found then i else x.Chosen(p, i + 1)
  {
    hide InList, Plain, HasDouble;
    assert i < |x.endings| ==> ShapedEnding(x.endings[i]);
  }

  /** Pass p is the last one: it finds no ending that is closed by :|. */
  ghost predicate LastPass(x: Section, p: nat)
    requires x.Shaped()
  {
    var k := x.Chosen(p, 0);
    k == |x.endings| || !x.Close(k).RepBar?
  }

  function EndOf(x: Section, h: nat): nat {
    h + |x.head| + |x.EndingsText(0)|
  }

  /** One pass: to the next one, or, on the last, to the end of the section. */
  lemma PassLeads(s: seq<Sign>, x: Section, p: nat, maxpass: nat, h: nat) returns (n: nat, st: State)
    requires x.Shaped() && h > 0 && p >= 1 && SignsAt(s, h, x.head + x.EndingsText(0))
    ensures Leads(s, OnPass(h, p, maxpass, h), n, st, EndOf(x, h))
    ensures if LastPass(x, p) then st.j == EndOf(x, h) else n > 0 && st == OnPass(h, p + 1, p + 1, h)
  {
    hide Rounds, Leads, InList, Plain, SignsAt, HasDouble, ShapedEnding;
    var st0, pos := OnPass(h, p, maxpass, h), h + |x.head|;
    SectionShape(x);
    SignAt(s, h, x.head, x.EndingsText(0));
    AtWithin(s, pos, x.EndingsText(0));
    PlainLeads(s, st0, x.head, EndOf(x, h));
    var n1;
    n1, st := EndingsLead(s, x, p, maxpass, h, pos, 0);
    n := |x.head| + n1;
    LeadsOn(s, st0, |x.head|, OnPass(pos, p, maxpass, h), n1, st, EndOf(x, h));
  }

  lemma {:induction false} StaysInside(s: seq<Sign>, x: Section, p: nat, maxpass: nat, h: nat, n: nat)
    requires x.Shaped() && h > 0 && p >= 1 && SignsAt(s, h, x.head + x.EndingsText(0))
    requires forall q: nat :: q >= p ==> !LastPass(x, q)
    ensures Rounds(s, OnPass(h, p, maxpass, h), n).j < EndOf(x, h)
    decreases n
  {
    hide Rounds, LastPass, SignsAt, OnPass, EndOf;
    var n1, st := PassLeads(s, x, p, maxpass, h);
    if n >= n1 {
      RoundsAdd(s, OnPass(h, p, maxpass, h), n1, n - n1);
      StaysInside(s, x, p + 1, p + 1, h, n - n1);
    }
  }

  lemma {:induction false} Leaves(s: seq<Sign>, x: Section, p: nat, maxpass: nat, h: nat, q: nat) returns (n: nat)
    requires x.Shaped() && h > 0 && 1 <= p <= q && SignsAt(s, h, x.head + x.EndingsText(0)) && LastPass(x, q)
    ensures Rounds(s, OnPass(h, p, maxpass, h), n).j >= EndOf(x, h)
    decreases q - p
  {
    hide Rounds, LastPass, SignsAt, OnPass, EndOf;
    var n1, st := PassLeads(s, x, p, maxpass, h);
    n := n1;
    if !LastPass(x, p) {
      var n2 := Leaves(s, x, p + 1, p + 1, h, q);
      RoundsAdd(s, OnPass(h, p, maxpass, h), n1, n2);
      n := n1 + n2;
    }
  }

  /** One beyond all the numbers of the lists, and at least 1. */
  function Beyond(es: seq<Ending>): (b: nat)
    ensures b >= 1
  {
    if es == [] then 1
    else
      var rest, last := Beyond(es[..|es| - 1]), SignLimit(es[|es| - 1].sign);
      if last < rest then rest else last
  }

  lemma {:induction false} BeyondAll(es: seq<Ending>, i: nat)
    requires i < |es|
    ensures SignLimit(es[i].sign) <= Beyond(es)
  {
    if i < |es| - 1 {
      assert es[..|es| - 1][i] == es[i];
      BeyondAll(es[..|es| - 1], i);
    }
  }

  /** Passes beyond the numbers of a list are all alike to it. */
  lemma SameBeyond(s: Sign, p: nat, q: nat)
    requires s.PlayOnRep? && p >= SignLimit(s) && q >= SignLimit(s)
    ensures InList(s, p).found <==> InList(s, q).found
  {
    hide InText, TextLimit;
    if s.only == 0 {
      BeyondLimit(s.list, 0, p);
      BeyondLimit(s.list, 0, q);
      if InList(s, p).found {
        BadHoldsAll(s.list, 0, p, q);
      } else if InList(s, q).found {
        BadHoldsAll(s.list, 0, q, p);
      }
    }
  }

  lemma {:induction false} ChosenBeyond(x: Section, p: nat, q: nat, i: nat)
    requires x.Shaped() && i <= |x.endings| && p >= Beyond(x.endings) && q >= Beyond(x.endings)
    ensures x.Chosen(p, i) == x.Chosen(q, i)
    decreases |x.endings| - i
  {
    hide InList, SignLimit, Beyond;
    SectionShape(x);
    ChosenFrom(x, p, i);
    ChosenFrom(x, q, i);
    if i < |x.endings| {
      BeyondAll(x.endings, i);
      SameBeyond(x.endings[i].sign, p, q);
      ChosenBeyond(x, p, q, i + 1);
    }
  }

  /** If there is a last pass at all, there is one not beyond the first that no number of a
      list reaches. */
  lemma LastPassBound(x: Section, p: nat)
    requires x.Shaped() && p >= 1 && LastPass(x, p)
    ensures exists q: nat :: 1 <= q <= Beyond(x.endings) && LastPass(x, q)
  {
    var b := Beyond(x.endings);
    if p > b {
      ChosenBeyond(x, p, b, 0);
      assert LastPass(x, b);
    }
  }

  /** A section with variant endings, whatever their lists, comes to an end if and only if
      some pass, up to one beyond all numbers of the lists, finds no ending for it that is
      closed by :|. */
  lemma SectionEndsExactly(s: seq<Sign>, x: Section, h: nat)
    requires x.Shaped() && h > 0 && SignsAt(s, h, x.head + x.EndingsText(0))
    ensures (exists n: nat :: Rounds(s, OnPass(h, 1, 2, h), n).j >= EndOf(x, h)) <==>
            exists p: nat :: 1 <= p <= Beyond(x.endings) && LastPass(x, p)
  {
    hide Rounds, LastPass, SignsAt, OnPass, EndOf, Beyond;
    if exists p: nat :: 1 <= p <= Beyond(x.endings) && LastPass(x, p) {
      var p: nat :| 1 <= p <= Beyond(x.endings) && LastPass(x, p);
      var n := Leaves(s, x, 1, 2, h, p);
    } else {
      forall q: nat | q >= 1
        ensures !LastPass(x, q)
      {
        if LastPass(x, q) {
          LastPassBound(x, q);
        }
      }
      forall n: nat
        ensures Rounds(s, OnPass(h, 1, 2, h), n).j < EndOf(x, h)
      {
        StaysInside(s, x, 1, 2, h, n);
      }
    }
  }

  lemma {:induction false} NoneChosen(x: Section, p: nat, i: nat)
    requires x.Shaped() && i <= |x.endings| && p >= Beyond(x.endings)
    requires forall k :: 0 <= k < |x.endings| ==> NeverBad(x.endings[k].sign)
    ensures x.Chosen(p, i) == |x.endings|
    decreases |x.endings| - i
  {
    hide InList, SignLimit, NeverBad, Beyond;
    SectionShape(x);
    ChosenFrom(x, p, i);
    if i < |x.endings| {
      BeyondAll(x.endings, i);
      GoodSign(x.endings[i].sign);
      NoneChosen(x, p, i + 1);
    }
  }

  /** It does when no list is bad. */
  lemma GoodSectionEnds(x: Section)
    requires x.Shaped() && forall k :: 0 <= k < |x.endings| ==> NeverBad(x.endings[k].sign)
    ensures exists p: nat :: 1 <= p <= Beyond(x.endings) && LastPass(x, p)
  {
    hide NeverBad, Beyond;
    NoneChosen(x, Beyond(x.endings), 0);
    assert LastPass(x, Beyond(x.endings));
  }

  /** The tune that consists of nothing else. */
  function OneSection(x: Section): seq<Sign> {
    [BarRep] + (x.head + x.EndingsText(0))
  }

  /** So does the tune. */
  lemma TuneEndsExactly(x: Section)
    requires x.Shaped()
    ensures (exists n: nat :: Rounds(OneSection(x), START, n).j >= |OneSection(x)|) <==>
            exists p: nat :: 1 <= p <= Beyond(x.endings) && LastPass(x, p)
  {
    var s := OneSection(x);
    SectionAt(x);
    hide Rounds, LastPass, SignsAt;
    SectionEndsExactly(s, x, 1);
    OneRound(s, START, 1);
    assert Step(s, START).st == OnPass(1, 1, 2, 1);
    hide OnPass, Step;
    if exists n: nat :: Rounds(s, START, n).j >= |s| {
      var n: nat :| Rounds(s, START, n).j >= |s|;
      StartRounds(s, n);
      if n > 0 {
        RoundsAdd(s, START, 1, n - 1);
      }
    }
    if exists n: nat :: Rounds(s, OnPass(1, 1, 2, 1), n).j >= EndOf(x, 1) {
      var n: nat :| Rounds(s, OnPass(1, 1, 2, 1), n).j >= EndOf(x, 1);
      RoundsAdd(s, START, 1, n);
    }
  }

  lemma SectionAt(x: Section)
    ensures SignsAt(OneSection(x), 1, x.head + x.EndingsText(0)) && |OneSection(x)| == EndOf(x, 1) > 0
    ensures OneSection(x)[0] == BarRep
  {
  }

  lemma StartRounds(s: seq<Sign>, n: nat)
    requires |s| > 0 && Rounds(s, START, n).j >= |s|
    ensures n > 0
  {
  }

  /** What pass p plays. */
  ghost function PassMusic(x: Section, p: nat): seq<int>
    requires x.Shaped()
  {
    var k := x.Chosen(p, 0);
    Ids(x.head) + if k == |x.endings| then [] else Ids(x.endings[k].body)
  }

  /** Passes p to q. */
  ghost function PassesMusic(x: Section, p: nat, q: nat): seq<int>
    requires x.Shaped() && p <= q
    decreases q - p
  {
    PassMusic(x, p) + if p == q then [] else PassesMusic(x, p + 1, q)
  }

  /** Exactly the passes up to the first last one are played. */
  lemma {:induction false} PassesPlayed(x: Section, m: nat, p: nat) returns (q: nat)
    requires x.Valid() && x.Within(m) && p >= 1
    ensures p <= q && LastPass(x, q) && (forall i :: p <= i < q ==> !LastPass(x, i))
    ensures x.Passes(m, p) == PassesMusic(x, p, q)
    decreases m - p
  {
    hide *;
    x.ChosenWithin(m, p, 0);
    OnePassPlayed(x, m, p);
    if LastPass(x, p) {
      q := p;
    } else {
      q := PassesPlayed(x, m, p + 1);
    }
    PassesNext(x, p, q);
  }

  lemma PassesNext(x: Section, p: nat, q: nat)
    requires x.Shaped() && p <= q
    ensures PassesMusic(x, p, q) == if p == q then PassMusic(x, p) else PassMusic(x, p) + PassesMusic(x, p + 1, q)
  {
    hide PassMusic;
    assert PassMusic(x, p) + [] == PassMusic(x, p);
  }

  lemma OnePassPlayed(x: Section, m: nat, p: nat)
    requires x.Valid() && x.Within(m)
    ensures x.Shaped()
    ensures if LastPass(x, p) then x.Passes(m, p) == PassMusic(x, p)
            else p < m && x.Passes(m, p) == PassMusic(x, p) + x.Passes(m, p + 1)
  {
    hide InList, Ids, Plain, ValidEnding;
    x.ChosenWithin(m, p, 0);
    var k := x.Chosen(p, 0);
    if k < |x.endings| {
      InTurn(Ids(x.head), Ids(x.endings[k].body), if x.Close(k).RepBar? then x.Passes(m, p + 1) else []);
    } else {
      InTurn(Ids(x.head), [], []);
    }
  }

  /** Some list names pass p. */
  ghost predicate Named(x: Section, p: nat)
    requires x.Shaped()
  {
    p >= 1 && x.Chosen(p, 0) < |x.endings|
  }

  /** Every pass that a list names is played if and only if every pass before one that is
      named finds an ending closed by :|. */
  lemma NamedPlayedExactly(x: Section, m: nat) returns (q: nat)
    requires x.Valid() && x.Within(m)
    ensures q >= 1 && x.Passes(m, 1) == PassesMusic(x, 1, q)
    ensures (forall p: nat :: Named(x, p) ==> p <= q) <==>
            (forall p: nat, r: nat :: 1 <= p < r && Named(x, r) ==> !LastPass(x, p))
  {
    hide Named, LastPass;
    q := PassesPlayed(x, m, 1);
  }

  /** |: A [1,3 B :| [2 C || */
  function Unreached(): Section {
    Section([Music(0)], [Ending(PlayOnRep(0, "1,3"), [Music(1)]), Ending(PlayOnRep(2, ""), [Music(2)])], false)
  }

  lemma UnreachedLists(p: nat)
    ensures InList(PlayOnRep(0, "1,3"), p) == Listed(p == 1 || p == 3, false) && InList(PlayOnRep(2, ""), p) == Listed(p == 2, false)
  {
    var t := "1,3";
    assert ReadNumber(t, 0, 0) == ReadNumber(t, 1, 1) == (1, 1);
    assert ReadNumber(t, 2, 0) == ReadNumber(t, 3, 3) == (3, 3);
  }

  /** Pass 3 is never played: A B A C is all. */
  lemma NamedNotPlayed()
    ensures var x := Unreached();
            && x.Valid() && x.Within(4) && Named(x, 3)
            && x.Passes(4, 1) == [0, 1, 0, 2]
  {
    hide InList;
    var x := Unreached();
    UnreachedLists(1);
    UnreachedLists(2);
    UnreachedLists(3);
    assert ShapedEnding(x.endings[0]) && ShapedEnding(x.endings[1]);
    assert x.Chosen(1, 0) == 0 && x.Chosen(2, 0) == 1 && x.Chosen(3, 0) == 0;
    forall p: nat
      ensures InList(x.endings[0].sign, p) == Listed(p == 1 || p == 3, false)
      ensures InList(x.endings[1].sign, p) == Listed(p == 2, false)
    {
      UnreachedLists(p);
    }
    assert ValidEnding(x.endings[0]) && ValidEnding(x.endings[1]);
    assert x.Valid() && x.Within(4);
    assert x.Passes(4, 2) == [0, 2];
  }
}
