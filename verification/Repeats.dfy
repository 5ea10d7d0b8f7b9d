/** Repeats and variant endings: `writetrack` (genmidi.c) plays a tune by walking its bar lines
    and repeat signs, going back to where the last repeat began. One voice, no parts. */
module Repeats {
  import opened Text

  /** Feature j of a tune. A variant ending is for one pass (`only`), or, if that is 0, for
      the passes in a list. DoubleBar also stands for the thick ones. */
  datatype Sign = Music(id: int) | SingleBar | DoubleBar | BarRep | RepBar | DoubleRep | PlayOnRep(only: nat, list: string)

  datatype Listed = Listed(found: bool, bad: bool)

  /** The loop of `inlist` from place i of the text on. */
  function InText(t: string, i: nat, pass: nat): Listed
    requires i <= |t|
    decreases |t| - i
  {
    if i == |t| then Listed(false, false)
    else if !IsDigit(t[i]) then Listed(true, true)
    else
      var (a, j) := ReadNumber(t, i, 0);
      var span := j < |t| && t[j] == '-';
      var (b, k) := if span then ReadNumber(t, j + 1, 0) else (0, j);
      if pass == a || (span && a <= pass <= b) then Listed(true, false)
      else InText(t, if k < |t| && t[k] == ',' then k + 1 else k, pass)
  }

  /** `inlist` */
  function InList(s: Sign, pass: nat): Listed
    requires s.PlayOnRep?
  {
    if s.only != 0 then Listed(pass == s.only, false) else InText(s.list, 0, pass)
  }

  method Inlist(s: Sign, passno: nat) returns (found: bool, bad: bool)
    requires s.PlayOnRep?
    ensures Listed(found, bad) == InList(s, passno)
  {
    bad := false;
    if s.only != 0 {
      return passno == s.only, false;
    }
    var p: nat := 0;
    found := false;
    while !found && p < |s.list|
      invariant p <= |s.list|
      invariant if found then Listed(true, bad) == InText(s.list, 0, passno)
                else !bad && InText(s.list, p, passno) == InText(s.list, 0, passno)
    {
      if !('0' <= s.list[p] <= '9') {
        bad := true;
        found := true;
        break;
      }
      var a, b;
      a, p := Readnump(s.list, p);
      if passno == a {
        found := true;
      }
      if p < |s.list| && s.list[p] == '-' {
        p := p + 1;
        b, p := Readnump(s.list, p);
        if a <= passno <= b {
          found := true;
        }
      }
      if p < |s.list| && s.list[p] == ',' {
        p := p + 1;
      }
    }
  }

  /** Passes as they are written in a list: 2, or 1-3. */
  datatype Passes = One(a: nat) | Span(a: nat, b: nat)

  predicate Covers(x: Passes, pass: nat) {
    pass == x.a || (x.Span? && x.a <= pass <= x.b)
  }

  function PassesText(x: Passes): (t: string)
    ensures t != "" && IsDigit(t[0])
  {
    PrintNumber(x.a) + if x.Span? then "-" + PrintNumber(x.b) else ""
  }

  function ListText(xs: seq<Passes>): string {
    if xs == [] then "" else PassesText(xs[0]) + (if |xs| > 1 then "," else "") + ListText(xs[1..])
  }

  ghost predicate AnyCovers(xs: seq<Passes>, pass: nat) {
    exists k :: 0 <= k < |xs| && Covers(xs[k], pass)
  }

  lemma ReadPasses(t: string, i: nat, x: Passes)
    requires HasAt(t, i, PassesText(x))
    requires var j := i + |PassesText(x)|; j < |t| ==> t[j] == ','
    ensures i < |t| && IsDigit(t[i])
    ensures var (a, j) := ReadNumber(t, i, 0);
            && a == x.a && (x.Span? <==> j < |t| && t[j] == '-')
            && (if x.Span? then ReadNumber(t, j + 1, 0) == (x.b, i + |PassesText(x)|) else j == i + |PassesText(x)|)
  {
    hide PrintNumber, ReadNumber, HasAt;
    if x.Span? {
      SplitAt(t, i, PrintNumber(x.a), "-" + PrintNumber(x.b));
      SplitAt(t, i + |PrintNumber(x.a)|, "-", PrintNumber(x.b));
      CharAt(t, i + |PrintNumber(x.a)|, '-');
      ReadNumberInverts(t, i + |PrintNumber(x.a)| + 1, x.b);
    } else {
      assert PassesText(x) == PrintNumber(x.a);
    }
    ReadNumberInverts(t, i, x.a);
  }

  lemma PassesRead(t: string, i: nat, x: Passes, pass: nat)
    requires HasAt(t, i, PassesText(x))
    requires var j := i + |PassesText(x)|; j < |t| ==> t[j] == ','
    ensures i + |PassesText(x)| <= |t|
    ensures var j := i + |PassesText(x)|;
            InText(t, i, pass) == if Covers(x, pass) then Listed(true, false) else InText(t, if j < |t| then j + 1 else j, pass)
  {
    hide PassesText, ReadNumber;
    ReadPasses(t, i, x);
  }

  /** `inlist` finds a pass in a list exactly when the list says so. */
  lemma {:induction false} ListMeans(t: string, i: nat, xs: seq<Passes>, pass: nat)
    requires HasAt(t, i, ListText(xs)) && i + |ListText(xs)| == |t|
    ensures InText(t, i, pass) == Listed(AnyCovers(xs, pass), false)
    decreases xs
  {
    hide *;
    ListTextParts(xs);
    if xs == [] {
      InNothing(t, pass);
    } else {
      var x, sep := xs[0], if |xs| > 1 then "," else "";
      var j := i + |PassesText(x)|;
      SplitAt(t, i, PassesText(x) + sep, ListText(xs[1..]));
      SplitAt(t, i, PassesText(x), sep);
      if |xs| > 1 {
        CharAt(t, j, ',');
      }
      PassesRead(t, i, x, pass);
      ListMeans(t, j + |sep|, xs[1..], pass);
      CoversFirst(xs, pass);
    }
    NoneCovers(pass);
  }

  lemma ListTextParts(xs: seq<Passes>)
    ensures xs == [] ==> ListText(xs) == ""
    ensures |xs| == 1 ==> ListText(xs) == PassesText(xs[0]) + "" + ListText(xs[1..]) && ListText(xs[1..]) == ""
    ensures |xs| > 1 ==> ListText(xs) == PassesText(xs[0]) + "," + ListText(xs[1..])
  {
    hide PassesText;
  }

  lemma InNothing(t: string, pass: nat)
    ensures InText(t, |t|, pass) == Listed(false, false)
  {
  }

  lemma NoneCovers(pass: nat)
    ensures !AnyCovers([], pass)
  {
  }

  lemma CoversFirst(xs: seq<Passes>, pass: nat)
    requires xs != []
    ensures AnyCovers(xs, pass) <==> Covers(xs[0], pass) || AnyCovers(xs[1..], pass)
  {
    if AnyCovers(xs, pass) && !Covers(xs[0], pass) {
      var k :| 0 <= k < |xs| && Covers(xs[k], pass);
      assert xs[1..][k - 1] == xs[k];
    }
    if AnyCovers(xs[1..], pass) {
      var k :| 0 <= k < |xs[1..]| && Covers(xs[1..][k], pass);
      assert xs[k + 1] == xs[1..][k];
    }
  }

  datatype Complaint =
    | EndMissingAtBarRep
    | UnexpectedRepBar
    | UnexpectedDoubleRep
    | VariantStillOpen
    | VariantOutsideRepeat
    | BadList
    | VariantUnclosed
    | EndMissingAtEnd

  /** The variables of `writetrack` that repeats are about: `saved` is the place in the saved
      state, and `inVar` is in_varend. */
  datatype State = State(j: nat, pass: nat, maxpass: nat, awaited: bool, saved: nat, inVar: bool)

  datatype Played = Played(out: seq<int>, errs: seq<Complaint>)

  datatype Move = Move(did: Played, st: State)

  /** Where the search for the end of a variant ending that is left out stops. */
  predicate Stops(s: Sign) {
    s.RepBar? || s.BarRep? || s.DoubleBar? || s.PlayOnRep?
  }

  function StopFrom(s: seq<Sign>, j: nat): (k: nat)
    requires j <= |s|
    ensures j <= k <= |s| && (k < |s| ==> Stops(s[k])) && forall i :: j <= i < k ==> !Stops(s[i])
    decreases |s| - j
  {
    if j == |s| || Stops(s[j]) then j else StopFrom(s, j + 1)
  }

  function When(c: bool, e: Complaint): seq<Complaint> {
    if c then [e] else []
  }

  /** case PLAY_ON_REP */
  function Variant(s: seq<Sign>, st: State): Move
    requires st.j < |s| && s[st.j].PlayOnRep?
  {
    var outside := !st.awaited && st.pass <= 1;
    var l := InList(s[st.j], if outside then 1 else st.pass);
    var errs := When(st.inVar, VariantStillOpen) + When(outside, VariantOutsideRepeat) + When(l.bad, BadList);
    if l.found then Move(Played([], errs), st.(j := st.j + 1, inVar := true, maxpass := st.pass + 1))
    else
      var k := StopFrom(s, st.j + 1);
      Move(Played([], errs + When(k == |s|, VariantUnclosed)), st.(j := k + 1))
  }

  function Back(st: State, awaited: bool): State {
    State(st.saved + 1, st.pass + 1, st.maxpass, awaited, st.saved, false)
  }

  /** One round of the loop in `writetrack`. */
  function Step(s: seq<Sign>, st: State): Move
    requires st.j < |s|
  {
    match s[st.j]
    case Music(id) => Move(Played([id], []), st.(j := st.j + 1))
    case SingleBar => Move(Played([], []), st.(j := st.j + 1))
    case DoubleBar => Move(Played([], []), st.(j := st.j + 1, inVar := false))
    case BarRep =>
      Move(Played([], When(st.pass == 1 && st.awaited, EndMissingAtBarRep)), State(st.j + 1, 1, 2, true, st.j, false))
    case RepBar =>
      if st.pass == 1 && !st.awaited then Move(Played([], [UnexpectedRepBar]), st.(j := st.j + 1, inVar := false))
      else if st.pass == 1 || st.pass < st.maxpass then Move(Played([], []), Back(st, false))
      else Move(Played([], []), st.(j := st.j + 1, inVar := false))
    case DoubleRep =>
      if st.pass > 1 then Move(Played([], []), State(st.j + 1, 1, 2, true, st.j, false))
      else if !st.awaited then Move(Played([], [UnexpectedDoubleRep]), State(st.j + 1, 1, st.maxpass, true, st.j, false))
      else Move(Played([], []), Back(st, true))
    case PlayOnRep(_, _) => Variant(s, st)
  }

  /** No variant ending is for pass m or a later one. */
  ghost predicate Bounded(s: seq<Sign>, m: nat) {
    && m >= 2
    && forall j, p: nat {:trigger InList(s[j], p)} :: 0 <= j < |s| && s[j].PlayOnRep? && InList(s[j], p).found ==> p < m
  }

  ghost predicate Sound(s: seq<Sign>, m: nat, st: State) {
    && Bounded(s, m) && 1 <= st.pass <= m && st.maxpass <= m && st.saved <= |s|
    && (st.saved < st.j || (st.saved == 0 == st.j && st.pass == 1))
  }

  /** Each round either moves where the next return would lead, or begins a further pass, or
      goes on. */
  lemma Progress(s: seq<Sign>, m: nat, st: State)
    requires Sound(s, m, st) && st.j < |s|
    ensures var st' := Step(s, st).st;
            && Sound(s, m, st') && st'.saved >= st.saved
            && (st'.saved == st.saved ==> st'.pass >= st.pass && (st'.pass == st.pass ==> st.j < st'.j <= |s| + 1))
  {
    hide InList;
    if s[st.j].PlayOnRep? {
      var outside := !st.awaited && st.pass <= 1;
      assert InList(s[st.j], if outside then 1 else st.pass).found ==> st.pass < m;
    }
  }

  function Then(a: Played, b: Played): Played {
    Played(a.out + b.out, a.errs + b.errs)
  }

  /** A whole run from some state on. */
  ghost function Run(s: seq<Sign>, m: nat, st: State): Played
    requires Sound(s, m, st)
    decreases |s| - st.saved, m - st.pass, |s| + 1 - st.j
  {
    if st.j >= |s| then Played([], When(st.awaited && st.pass == 1, EndMissingAtEnd))
    else
      Progress(s, m, st);
      Then(Step(s, st).did, Run(s, m, Step(s, st).st))
  }

  const START: State := State(0, 1, 2, false, 0, false)

  lemma StartSound(s: seq<Sign>, m: nat)
    requires Bounded(s, m)
    ensures Sound(s, m, START)
  {
  }

  lemma RunNext(s: seq<Sign>, m: nat, st: State)
    requires Sound(s, m, st)
    ensures st.j >= |s| ==> Run(s, m, st) == Played([], When(st.awaited && st.pass == 1, EndMissingAtEnd))
    ensures st.j < |s| ==> Sound(s, m, Step(s, st).st) && Run(s, m, st) == Then(Step(s, st).did, Run(s, m, Step(s, st).st))
  {
    hide Step, Sound;
    if st.j < |s| {
      Progress(s, m, st);
    }
  }

  lemma ThenThen(a: Played, b: Played, c: Played)
    ensures Then(Then(a, b), c) == Then(a, Then(b, c))
  {
  }

  method SkipVariant(a: array<Sign>, from: nat) returns (j: nat)
    requires from <= a.Length
    ensures j == StopFrom(a[..], from)
  {
    j := from;
    while j < a.Length && !a[j].RepBar? && !a[j].BarRep? && !a[j].DoubleBar? && !a[j].PlayOnRep?
      invariant from <= j <= a.Length && StopFrom(a[..], j) == StopFrom(a[..], from)
    {
      j := j + 1;
    }
  }

  /** case PLAY_ON_REP of `writetrack` */
  method PlayVariant(a: array<Sign>, j0: nat, pass: nat, maxpass0: nat, expect_repeat: bool, in_varend0: bool, ghost saved: nat)
    returns (j: nat, maxpass: nat, in_varend: bool, errs: seq<Complaint>)
    requires j0 < a.Length && a[j0].PlayOnRep?
    ensures Variant(a[..], State(j0, pass, maxpass0, expect_repeat, saved, in_varend0)) ==
            Move(Played([], errs), State(j + 1, pass, maxpass, expect_repeat, saved, in_varend))
  {
    hide InList, StopFrom;
    j, maxpass, in_varend, errs := j0, maxpass0, in_varend0, [];
    if in_varend {
      errs := errs + [VariantStillOpen];
    }
    assert errs == When(in_varend0, VariantStillOpen);
    var passnum: int := -1;
    if expect_repeat || pass > 1 {
      passnum := pass;
    }
    if passnum == -1 {
      errs := errs + [VariantOutsideRepeat];
      passnum := 1;
    }
    assert errs == When(in_varend0, VariantStillOpen) + When(!expect_repeat && pass <= 1, VariantOutsideRepeat);
    hide When;
    var found, bad := Inlist(a[j], passnum);
    errs := errs + When(bad, BadList);
    if !found {
      j := SkipVariant(a, j + 1);
      errs := errs + When(j == a.Length, VariantUnclosed);
    } else {
      in_varend := true;
      maxpass := pass + 1;
    }
  }

  /** `writetrack`: the music that is played, in order, and the complaints made. */
  method WriteTrack(a: array<Sign>, ghost m: nat) returns (out: seq<int>, errs: seq<Complaint>)
    requires Bounded(a[..], m)
    ensures Played(out, errs) == Run(a[..], m, START)
  {
    hide Sound, Run, Variant, Then, Bounded;
    ghost var s := a[..];
    var j, pass, maxpass, expect_repeat, saved, in_varend := 0, 1, 2, false, 0, false;
    out, errs := [], [];
    StartSound(s, m);
    NothingDone(Run(s, m, START));
    while j < a.Length
      invariant j >= 0 && pass >= 0 && maxpass >= 0 && saved >= 0
      invariant Sound(s, m, State(j, pass, maxpass, expect_repeat, saved, in_varend))
      invariant Then(Played(out, errs), Run(s, m, State(j, pass, maxpass, expect_repeat, saved, in_varend))) == Run(s, m, START)
      decreases a.Length - saved, m - pass, a.Length + 1 - j
    {
      ghost var st, before := State(j, pass, maxpass, expect_repeat, saved, in_varend), Played(out, errs);
      Progress(s, m, st);
      RunNext(s, m, st);
      SoundMeans(s, m, st);
      SoundMeans(s, m, Step(s, st).st);
      ThenThen(before, Step(s, st).did, Run(s, m, Step(s, st).st));
      match a[j] {
        case Music(id) =>
          out := out + [id];
        case SingleBar =>
        case DoubleBar =>
          in_varend := false;
        case BarRep =>
          in_varend := false;
          if pass == 1 && expect_repeat {
            errs := errs + [EndMissingAtBarRep];
          }
          saved := j;
          expect_repeat, pass, maxpass := true, 1, 2;
        case RepBar =>
          in_varend := false;
          if pass == 1 {
            if !expect_repeat {
              errs := errs + [UnexpectedRepBar];
            } else {
              pass := pass + 1;
              j := saved;
              expect_repeat := false;
            }
          } else if pass < maxpass {
            expect_repeat := false;
            pass := pass + 1;
            j := saved;
          }
        case PlayOnRep(_, _) =>
          var errs';
          j, maxpass, in_varend, errs' := PlayVariant(a, j, pass, maxpass, expect_repeat, in_varend, saved);
          errs := errs + errs';
        case DoubleRep =>
          in_varend := false;
          if pass > 1 {
            expect_repeat := true;
            saved := j;
            pass, maxpass := 1, 2;
          } else if !expect_repeat {
            errs := errs + [UnexpectedDoubleRep];
            expect_repeat := true;
            saved := j;
            pass := 1;
          } else {
            j := saved;
            pass := pass + 1;
          }
      }
      j := j + 1;
      RoundDone(before, Step(s, st).did, Played(out, errs));
    }
    ghost var last, played := State(j, pass, maxpass, expect_repeat, saved, in_varend), Played(out, errs);
    RunNext(s, m, last);
    if expect_repeat && pass == 1 {
      errs := errs + [EndMissingAtEnd];
    }
    RoundDone(played, Run(s, m, last), Played(out, errs));
  }

  lemma NothingDone(b: Played)
    ensures Then(Played([], []), b) == b
  {
  }

  lemma RoundDone(a: Played, b: Played, c: Played)
    requires c.out == a.out + b.out && c.errs == a.errs + b.errs
    ensures c == Then(a, b)
  {
  }

  lemma SoundMeans(s: seq<Sign>, m: nat, st: State)
    requires Sound(s, m, st)
    ensures 1 <= st.pass <= m && st.saved <= |s| && st.maxpass <= m
  {
  }

  /** Music and bar lines that are not about repeats. */
  predicate IsPlain(s: Sign) {
    s.Music? || s.SingleBar? || s.DoubleBar?
  }

  ghost predicate Plain(b: seq<Sign>) {
    forall k :: 0 <= k < |b| ==> IsPlain(b[k])
  }

  ghost predicate SignsAt(s: seq<Sign>, i: nat, b: seq<Sign>) {
    i + |b| <= |s| && s[i..i + |b|] == b
  }

  /** The music in a piece of the tune. */
  function Ids(b: seq<Sign>): seq<int> {
    if b == [] then [] else (if b[0].Music? then [b[0].id] else []) + Ids(b[1..])
  }

  ghost predicate HasDouble(b: seq<Sign>) {
    exists k :: 0 <= k < |b| && b[k].DoubleBar?
  }

  /** Plain music is played as it stands. */
  lemma {:induction false} PlainRun(s: seq<Sign>, m: nat, st: State, b: seq<Sign>)
    requires Sound(s, m, st) && SignsAt(s, st.j, b) && Plain(b)
    ensures var st' := st.(j := st.j + |b|, inVar := st.inVar && !HasDouble(b));
            Sound(s, m, st') && Run(s, m, st) == Then(Played(Ids(b), []), Run(s, m, st'))
    decreases |b|
  {
    hide Run, Bounded, Then;
    if b == [] {
      NothingDone(Run(s, m, st));
    } else {
      RunNext(s, m, st);
      assert s[st.j] == s[st.j..st.j + |b|][0] == b[0];
      var st1 := Step(s, st).st;
      assert s[st1.j..st1.j + |b[1..]|] == b[1..];
      PlainRun(s, m, st1, b[1..]);
      DoubleFirst(b);
      ThenThen(Step(s, st).did, Played(Ids(b[1..]), []), Run(s, m, st.(j := st.j + |b|, inVar := st.inVar && !HasDouble(b))));
      RoundDone(Step(s, st).did, Played(Ids(b[1..]), []), Played(Ids(b), []));
    }
  }

  lemma DoubleFirst(b: seq<Sign>)
    requires b != []
    ensures HasDouble(b) <==> b[0].DoubleBar? || HasDouble(b[1..])
  {
    if HasDouble(b) && !b[0].DoubleBar? {
      var k :| 0 <= k < |b| && b[k].DoubleBar?;
      assert b[1..][k - 1] == b[k];
    }
    if HasDouble(b[1..]) {
      var k :| 0 <= k < |b[1..]| && b[1..][k].DoubleBar?;
      assert b[k + 1] == b[1..][k];
    }
  }

  /** Right after |: or a :: that begins a section, at place i. */
  function Armed(i: nat): State
    requires i > 0
  {
    State(i, 1, 2, true, i - 1, false)
  }

  lemma SignAt(s: seq<Sign>, i: nat, b: seq<Sign>, c: seq<Sign>)
    requires SignsAt(s, i, b + c)
    ensures SignsAt(s, i, b) && SignsAt(s, i + |b|, c)
  {
    var t := s[i..i + |b + c|];
    assert s[i..i + |b|] == t[..|b|] == b;
    assert s[i + |b|..i + |b| + |c|] == t[|b|..] == c;
  }

  lemma ArmedSound(s: seq<Sign>, m: nat, i: nat)
    requires Bounded(s, m) && 0 < i <= |s|
    ensures Sound(s, m, Armed(i))
  {
  }

  /** A section closed by a repeat sign is played twice. */
  lemma SectionRun(s: seq<Sign>, m: nat, i: nat, b: seq<Sign>)
    requires Bounded(s, m) && i > 0 && SignsAt(s, i, b) && Plain(b)
    requires i + |b| < |s| && (s[i + |b|].RepBar? || s[i + |b|].DoubleRep?)
    ensures Sound(s, m, Armed(i))
    ensures var k := i + |b|;
            var st' := if s[k].RepBar? then State(k + 1, 2, 2, false, i - 1, false) else Armed(k + 1);
            Sound(s, m, st') && Run(s, m, Armed(i)) == Then(Played(Ids(b) + Ids(b), []), Run(s, m, st'))
  {
    hide Run, Bounded, Then, Sound, Plain, SignsAt, Ids;
    var k, st := i + |b|, Armed(i);
    ArmedSound(s, m, i);
    PlainRun(s, m, st, b);
    var end1 := st.(j := k, inVar := false);
    RunNext(s, m, end1);
    var again := Step(s, end1).st;
    assert again.j == i && again.pass == 2 && again.maxpass == 2 && !again.inVar && again.saved == i - 1;
    PlainRun(s, m, again, b);
    var end2 := again.(j := k, inVar := false);
    RunNext(s, m, end2);
    var st' := Step(s, end2).st;
    FourDone(Ids(b), Run(s, m, st'));
  }

  lemma FourDone(ids: seq<int>, r: Played)
    ensures Then(Played(ids, []), Then(Played([], []), Then(Played(ids, []), Then(Played([], []), r)))) ==
            Then(Played(ids + ids, []), r)
  {
    NothingDone(r);
    NothingDone(Then(Played(ids, []), r));
    ThenThen(Played(ids, []), Played(ids, []), r);
  }

  /** The next repeat sign or variant ending from place i on. */
  function NextSign(s: seq<Sign>, i: nat): (k: nat)
    requires i <= |s|
    ensures i <= k <= |s| && (k < |s| ==> !IsPlain(s[k])) && forall n :: i <= n < k ==> IsPlain(s[n])
    decreases |s| - i
  {
    if i == |s| || !IsPlain(s[i]) then i else NextSign(s, i + 1)
  }

  /** Repeats begin and end in turn from place i on, and there are no variant endings. */
  ghost predicate Alternates(s: seq<Sign>, i: nat, inside: bool)
    requires i <= |s|
    decreases |s| - i
  {
    var k := NextSign(s, i);
    k < |s| ==> !s[k].PlayOnRep? && (inside <==> !s[k].BarRep?) && Alternates(s, k + 1, !s[k].RepBar?)
  }

  /** The music with every section that is begun and ended by repeat signs written out twice. */
  ghost function Twice(s: seq<Sign>, i: nat, inside: bool): seq<int>
    requires i <= |s|
    decreases |s| - i
  {
    var k := NextSign(s, i);
    var ids := Ids(s[i..k]);
    if k == |s| then ids
    else (if inside && !s[k].BarRep? then ids + ids else ids) + Twice(s, k + 1, !s[k].RepBar?)
  }

  ghost predicate NoVariantFrom(s: seq<Sign>, i: nat) {
    forall k :: i <= k < |s| ==> !s[k].PlayOnRep?
  }

  /** What is wrong with the order of the signs: a |: inside a repeat, an open end, and a :| or
      :: that ends nothing, as long as no repeat has been begun at all (`first`). */
  ghost function Wrong(s: seq<Sign>, i: nat, inside: bool, first: bool): seq<Complaint>
    requires i <= |s|
    decreases |s| - i
  {
    var k := NextSign(s, i);
    if k == |s| then When(inside, EndMissingAtEnd)
    else
      (match s[k]
       case BarRep => When(inside, EndMissingAtBarRep)
       case RepBar => When(!inside && first, UnexpectedRepBar)
       case DoubleRep => When(!inside && first, UnexpectedDoubleRep)
       case _ => []) +
      Wrong(s, k + 1, !s[k].RepBar?, first && s[k].RepBar? && !inside)
  }

  /** The last section is left open. */
  ghost predicate LeftOpen(s: seq<Sign>, i: nat, inside: bool)
    requires i <= |s|
    decreases |s| - i
  {
    var k := NextSign(s, i);
    if k == |s| then inside else LeftOpen(s, k + 1, !s[k].RepBar?)
  }

  /** Outside all repeats, or at the beginning of a section. */
  ghost predicate Beginning(st: State, inside: bool) {
    if inside then st.j > 0 && st == Armed(st.j) else !st.awaited
  }

  lemma PlainTo(s: seq<Sign>, i: nat, k: nat)
    requires i <= |s| && i <= k <= NextSign(s, i)
    ensures SignsAt(s, i, s[i..k]) && Plain(s[i..k])
  {
    hide NextSign;
    forall n | 0 <= n < k - i
      ensures IsPlain(s[i..k][n])
    {
      assert s[i..k][n] == s[i + n];
    }
  }

  /** Before, or after a repeat, at the beginning of a section. */
  ghost predicate Anywhere(st: State, inside: bool, first: bool) {
    Beginning(st, inside) && (!inside ==> (first <==> st.pass == 1) && st.maxpass == 2 && st.pass <= 2)
  }

  /** One sign outside of all repeats. */
  lemma OutsideSign(s: seq<Sign>, m: nat, st: State, first: bool)
    requires Sound(s, m, st) && st.j < |s| && Anywhere(st, false, first) && !IsPlain(s[st.j]) && !s[st.j].PlayOnRep?
    ensures var st' := Step(s, st).st;
            && Sound(s, m, st') && st'.j == st.j + 1 && Anywhere(st', !s[st.j].RepBar?, first && s[st.j].RepBar?)
            && Step(s, st).did == Played([], match s[st.j]
                                             case RepBar => When(first, UnexpectedRepBar)
                                             case DoubleRep => When(first, UnexpectedDoubleRep)
                                             case _ => [])
            && Run(s, m, st) == Then(Step(s, st).did, Run(s, m, st'))
  {
    hide Run, Bounded;
    RunNext(s, m, st);
    ArmedSound(s, m, st.j + 1);
  }

  lemma TwiceNext(s: seq<Sign>, i: nat, inside: bool, first: bool)
    requires i <= |s|
    ensures var k := NextSign(s, i);
            if k == |s| then Twice(s, i, inside) == Ids(s[i..k]) && Wrong(s, i, inside, first) == When(inside, EndMissingAtEnd)
            else
              && Twice(s, i, inside) == (if inside && !s[k].BarRep? then Ids(s[i..k]) + Ids(s[i..k]) else Ids(s[i..k])) +
                                        Twice(s, k + 1, !s[k].RepBar?)
              && Wrong(s, i, inside, first) ==
                 (match s[k]
                  case BarRep => When(inside, EndMissingAtBarRep)
                  case RepBar => When(!inside && first, UnexpectedRepBar)
                  case DoubleRep => When(!inside && first, UnexpectedDoubleRep)
                  case _ => []) +
                 Wrong(s, k + 1, !s[k].RepBar?, first && s[k].RepBar? && !inside)
  {
    hide Ids, NextSign;
  }

  /** A section that is begun and ended. */
  lemma ClosedPart(s: seq<Sign>, m: nat, i: nat, k: nat, out: seq<int>, errs: seq<Complaint>)
    requires Bounded(s, m) && 0 < i <= k < |s| && SignsAt(s, i, s[i..k]) && Plain(s[i..k]) && (s[k].RepBar? || s[k].DoubleRep?)
    requires var st' := if s[k].RepBar? then State(k + 1, 2, 2, false, i - 1, false) else Armed(k + 1);
             Sound(s, m, st') ==> Run(s, m, st') == Played(out, errs)
    ensures Sound(s, m, Armed(i)) && Run(s, m, Armed(i)) == Played(Ids(s[i..k]) + Ids(s[i..k]) + out, [] + errs)
  {
    hide Run, Bounded, Then, Plain, SignsAt, Ids;
    SectionRun(s, m, i, s[i..k]);
    PlayedThen(Ids(s[i..k]) + Ids(s[i..k]), out, errs);
    NoComplaint(errs);
  }

  /** Music that is played once, and then something else. */
  lemma OncePart(s: seq<Sign>, m: nat, st: State, k: nat) returns (end: State)
    requires Sound(s, m, st) && st.j <= k <= |s| && SignsAt(s, st.j, s[st.j..k]) && Plain(s[st.j..k])
    ensures Sound(s, m, end) && end.j == k && end == st.(j := k, inVar := end.inVar)
    ensures Run(s, m, st) == Then(Played(Ids(s[st.j..k]), []), Run(s, m, end))
  {
    hide Run, Bounded, Then, Plain, SignsAt, Ids, HasDouble;
    PlainRun(s, m, st, s[st.j..k]);
    end := st.(j := k, inVar := st.inVar && !HasDouble(s[st.j..k]));
  }

  /** Any order of repeat signs, as long as there are no variant endings: every section that is
      begun and ended is played twice and all others once, and what is complained about is
      exactly what is wrong. */
  lemma {:induction false} AnyRun(s: seq<Sign>, m: nat, st: State, inside: bool, first: bool)
    requires Sound(s, m, st) && st.j <= |s| && Anywhere(st, inside, first) && NoVariantFrom(s, st.j)
    ensures Run(s, m, st) == Played(Twice(s, st.j, inside), Wrong(s, st.j, inside, first))
    decreases |s| - st.j
  {
    hide Run, Bounded, Then, Plain, SignsAt, Ids, NextSign, Sound, Step, Twice, Wrong;
    SoundBounded(s, m, st);
    var k := NextSign(s, st.j);
    PlainTo(s, st.j, k);
    TwiceNext(s, st.j, inside, first);
    if inside && k < |s| && !s[k].BarRep? {
      var st' := if s[k].RepBar? then State(k + 1, 2, 2, false, st.j - 1, false) else Armed(k + 1);
      SectionRun(s, m, st.j, s[st.j..k]);
      AnyRun(s, m, st', !s[k].RepBar?, false);
      ClosedPart(s, m, st.j, k, Twice(s, k + 1, !s[k].RepBar?), Wrong(s, k + 1, !s[k].RepBar?, false));
    } else {
      var end := OncePart(s, m, st, k);
      if k == |s| {
        AtTheEnd(s, m, end, inside);
        OnceOnly(Ids(s[st.j..k]), When(inside, EndMissingAtEnd));
      } else if inside {
        BarRepInside(s, m, end);
        AnyRun(s, m, Armed(k + 1), true, false);
        NextPart(Ids(s[st.j..k]), [EndMissingAtBarRep], Run(s, m, Armed(k + 1)));
      } else {
        OutsideSign(s, m, end, first);
        var st' := Step(s, end).st;
        AnyRun(s, m, st', !s[k].RepBar?, first && s[k].RepBar?);
        NextPart(Ids(s[st.j..k]), Step(s, end).did.errs, Run(s, m, st'));
      }
    }
  }

  lemma OnceOnly(ids: seq<int>, errs: seq<Complaint>)
    ensures Then(Played(ids, []), Played([], errs)) == Played(ids, errs)
  {
  }

  lemma SoundBounded(s: seq<Sign>, m: nat, st: State)
    requires Sound(s, m, st)
    ensures Bounded(s, m)
  {
  }

  lemma NoComplaint(errs: seq<Complaint>)
    ensures [] + errs == errs
  {
  }

  lemma NextPart(ids: seq<int>, errs: seq<Complaint>, r: Played)
    ensures Then(Played(ids, []), Then(Played([], errs), r)) == Played(ids + r.out, errs + r.errs)
  {
  }

  lemma AtTheEnd(s: seq<Sign>, m: nat, st: State, inside: bool)
    requires Sound(s, m, st) && st.j == |s| && (inside <==> st.awaited) && (inside ==> st.pass == 1)
    ensures Run(s, m, st) == Played([], When(inside, EndMissingAtEnd))
  {
  }

  lemma BarRepInside(s: seq<Sign>, m: nat, st: State)
    requires Sound(s, m, st) && st.j < |s| && s[st.j].BarRep? && st.pass == 1 && st.awaited
    ensures Sound(s, m, Armed(st.j + 1))
    ensures Run(s, m, st) == Then(Played([], [EndMissingAtBarRep]), Run(s, m, Armed(st.j + 1)))
  {
    hide Run, Bounded;
    RunNext(s, m, st);
    ArmedSound(s, m, st.j + 1);
  }

  /** A whole tune without variant endings. */
  lemma PlainTuneRun(s: seq<Sign>, m: nat)
    requires Bounded(s, m) && NoVariantFrom(s, 0)
    ensures Sound(s, m, START)
    ensures Run(s, m, START) == Played(Twice(s, 0, false), Wrong(s, 0, false, true))
  {
    hide Run, Bounded;
    StartSound(s, m);
    AnyRun(s, m, START, false, true);
  }

  /** What is complained about at a variant ending, and that it is played if it is for this
      pass, or for the first where there is no repeat. */
  lemma VariantComplaints(s: seq<Sign>, st: State)
    requires st.j < |s| && s[st.j].PlayOnRep?
    ensures var errs, pass := Step(s, st).did.errs, if st.awaited || st.pass > 1 then st.pass else 1;
            && (VariantStillOpen in errs <==> st.inVar)
            && (VariantOutsideRepeat in errs <==> !st.awaited && st.pass <= 1)
            && (BadList in errs <==> InList(s[st.j], pass).bad)
            && (VariantUnclosed in errs <==>
                !InList(s[st.j], pass).found &&
                forall k :: st.j < k < |s| ==> !s[k].RepBar? && !s[k].BarRep? && !s[k].DoubleBar? && !s[k].PlayOnRep?)
            && (InList(s[st.j], pass).found ==> Step(s, st).st == st.(j := st.j + 1, inVar := true, maxpass := st.pass + 1))
  {
    hide *;
    StepIsVariant(s, st);
    var pass := if st.awaited || st.pass > 1 then st.pass else 1;
    VariantIs(s, st);
    var l, open := InList(s[st.j], pass), StopFrom(s, st.j + 1) == |s|;
    FourComplaints(st.inVar, !st.awaited && st.pass <= 1, l.bad, !l.found && open);
    StopMeans(s, st.j + 1);
  }

  lemma StepIsVariant(s: seq<Sign>, st: State)
    requires st.j < |s| && s[st.j].PlayOnRep?
    ensures Step(s, st) == Variant(s, st)
  {
    hide Variant;
  }

  lemma VariantIs(s: seq<Sign>, st: State)
    requires st.j < |s| && s[st.j].PlayOnRep?
    ensures var outside := !st.awaited && st.pass <= 1;
            var l := InList(s[st.j], if outside then 1 else st.pass);
            && Variant(s, st).did.errs ==
               When(st.inVar, VariantStillOpen) + When(outside, VariantOutsideRepeat) + When(l.bad, BadList) +
               When(!l.found && StopFrom(s, st.j + 1) == |s|, VariantUnclosed)
            && (l.found ==> Variant(s, st).st == st.(j := st.j + 1, inVar := true, maxpass := st.pass + 1))
  {
    hide InList, StopFrom;
  }

  lemma FourComplaints(a: bool, b: bool, c: bool, d: bool)
    ensures var errs := When(a, VariantStillOpen) + When(b, VariantOutsideRepeat) + When(c, BadList) + When(d, VariantUnclosed);
            && (VariantStillOpen in errs <==> a) && (VariantOutsideRepeat in errs <==> b)
            && (BadList in errs <==> c) && (VariantUnclosed in errs <==> d)
  {
  }

  lemma StopMeans(s: seq<Sign>, j: nat)
    requires j <= |s|
    ensures StopFrom(s, j) == |s| <==>
            forall k :: j <= k < |s| ==> !s[k].RepBar? && !s[k].BarRep? && !s[k].DoubleBar? && !s[k].PlayOnRep?
  {
    hide StopFrom;
  }

  /** Where repeats begin and end in turn, every section that a repeat sign closes is played
      exactly twice, the rest once, and nothing is complained about but a missing end. */
  lemma {:induction false} TwiceRun(s: seq<Sign>, m: nat, st: State, inside: bool)
    requires Sound(s, m, st) && st.j <= |s| && Beginning(st, inside) && Alternates(s, st.j, inside)
    ensures Run(s, m, st) == Played(Twice(s, st.j, inside), When(LeftOpen(s, st.j, inside), EndMissingAtEnd))
    decreases |s| - st.j
  {
    hide Run, Bounded, Then, Plain, SignsAt, Ids, NextSign, HasDouble;
    var k := NextSign(s, st.j);
    var b := s[st.j..k];
    PlainTo(s, st.j, k);
    if inside && k < |s| {
      SectionRun(s, m, st.j, b);
      var st' := if s[k].RepBar? then State(k + 1, 2, 2, false, st.j - 1, false) else Armed(k + 1);
      TwiceRun(s, m, st', !s[k].RepBar?);
      PlayedThen(Ids(b) + Ids(b), Twice(s, k + 1, !s[k].RepBar?), Run(s, m, st').errs);
    } else {
      PlainRun(s, m, st, b);
      var end := st.(j := k, inVar := st.inVar && !HasDouble(b));
      RunNext(s, m, end);
      if k == |s| {
        PlayedThen(Ids(b), [], Run(s, m, end).errs);
        assert Ids(b) + [] == Ids(b);
      } else {
        TwiceRun(s, m, Armed(k + 1), true);
        NothingDone(Run(s, m, Armed(k + 1)));
        PlayedThen(Ids(b), Twice(s, k + 1, true), Run(s, m, Armed(k + 1)).errs);
      }
    }
  }

  lemma PlayedThen(a: seq<int>, b: seq<int>, errs: seq<Complaint>)
    ensures Then(Played(a, []), Played(b, errs)) == Played(a + b, errs)
  {
  }

  /** A variant ending: [ and a list, and its music. */
  datatype Ending = Ending(sign: Sign, body: seq<Sign>)

  ghost predicate ShapedEnding(e: Ending) {
    e.sign.PlayOnRep? && Plain(e.body) && !HasDouble(e.body)
  }

  ghost predicate ValidEnding(e: Ending) {
    ShapedEnding(e) && forall p: nat {:trigger InList(e.sign, p)} :: !InList(e.sign, p).bad
  }

  /** A section with variant endings, each closed by :| but for the last one, which is closed
      by || or, if `again`, by :| too. */
  datatype Section = Section(head: seq<Sign>, endings: seq<Ending>, again: bool) {

    function Close(i: nat): Sign {
      if i + 1 < |endings| || again then RepBar else DoubleBar
    }

    function EndingsText(i: nat): seq<Sign>
      requires i <= |endings|
      decreases |endings| - i
    {
      if i == |endings| then [] else [endings[i].sign] + endings[i].body + [Close(i)] + EndingsText(i + 1)
    }

    /** The ending that is played on pass p, or |endings|. */
    ghost function Chosen(p: nat, i: nat): (k: nat)
      requires i <= |endings| && forall k :: 0 <= k < |endings| ==> ShapedEnding(endings[k])
      ensures i <= k <= |endings|
      decreases |endings| - i
    {
      if i == |endings| then i
      else
        assert ShapedEnding(endings[i]);
        if InList(endings[i].sign, p).found then i else Chosen(p, i + 1)
    }

    ghost predicate Shaped() {
      Plain(head) && forall k :: 0 <= k < |endings| ==> ShapedEnding(endings[k])
    }

    ghost predicate Valid() {
      && Shaped() && (forall k :: 0 <= k < |endings| ==> ValidEnding(endings[k]))
      && Chosen(1, 0) < |endings| && Close(Chosen(1, 0)).RepBar?
    }

    ghost predicate Within(m: nat) {
      forall i, p: nat {:trigger InList(endings[i].sign, p)} ::
        0 <= i < |endings| && endings[i].sign.PlayOnRep? && InList(endings[i].sign, p).found ==> p < m
    }

    /** The section written out, from pass p on: each pass plays the head and the ending that
        is for it, and there is a next one when that ending is closed by :|. */
    ghost function Passes(m: nat, p: nat): seq<int>
      requires Valid() && Within(m)
      decreases m - p
    {
      var k := Chosen(p, 0);
      ChosenWithin(m, p, 0);
      Ids(head) +
      if k == |endings| then []
      else Ids(endings[k].body) + if Close(k).RepBar? then Passes(m, p + 1) else []
    }

    lemma {:induction false} ChosenWithin(m: nat, p: nat, i: nat)
      requires Valid() && Within(m) && i <= |endings|
      ensures Chosen(p, i) < |endings| ==> p < m && InList(endings[Chosen(p, i)].sign, p).found
      decreases |endings| - i
    {
      if i < |endings| {
        ChosenWithin(m, p, i + 1);
      }
    }
  }

  /** On pass p, in front of the variant endings. */
  function OnPass(j: nat, p: nat, maxpass: nat, h: nat): State
    requires h > 0
  {
    State(j, p, maxpass, p == 1, h - 1, false)
  }

  lemma EndingParts(s: seq<Sign>, pos: nat, x: Section, i: nat)
    requires i < |x.endings| && SignsAt(s, pos, x.EndingsText(i))
    ensures var e, k := x.endings[i], pos + 1 + |x.endings[i].body|;
            && k < |s| && s[pos] == e.sign && SignsAt(s, pos + 1, e.body) && s[k] == x.Close(i)
            && SignsAt(s, k + 1, x.EndingsText(i + 1))
  {
    var e := x.endings[i];
    hide SignsAt;
    assert x.EndingsText(i) == [e.sign] + e.body + [x.Close(i)] + x.EndingsText(i + 1);
    SignAt(s, pos, [e.sign] + e.body + [x.Close(i)], x.EndingsText(i + 1));
    SignAt(s, pos, [e.sign] + e.body, [x.Close(i)]);
    SignAt(s, pos, [e.sign], e.body);
    OneSign(s, pos, e.sign);
    OneSign(s, pos + 1 + |e.body|, x.Close(i));
  }

  lemma OneSign(s: seq<Sign>, i: nat, c: Sign)
    requires SignsAt(s, i, [c])
    ensures i < |s| && s[i] == c
  {
    assert s[i..i + 1][0] == c;
  }

  /** An ending that is not for this pass is left out, with the sign that closes it. */
  lemma EndingLeftOut(s: seq<Sign>, m: nat, st: State, e: Ending)
    requires Sound(s, m, st) && st.j < |s| && s[st.j] == e.sign && ValidEnding(e) && SignsAt(s, st.j + 1, e.body)
    requires !st.inVar && (st.awaited || st.pass > 1) && !InList(e.sign, st.pass).found
    requires var k := st.j + 1 + |e.body|; k < |s| && (s[k].RepBar? || s[k].DoubleBar?)
    ensures var st' := st.(j := st.j + 2 + |e.body|);
            Sound(s, m, st') && Run(s, m, st) == Run(s, m, st')
  {
    hide Run, Bounded, InList;
    RunNext(s, m, st);
    StopsAfter(s, st.j + 1, e.body);
    assert !InList(e.sign, st.pass).bad;
    NothingDone(Run(s, m, st.(j := st.j + 2 + |e.body|)));
  }

  lemma {:induction false} StopsAfter(s: seq<Sign>, i: nat, b: seq<Sign>)
    requires SignsAt(s, i, b) && Plain(b) && !HasDouble(b) && i + |b| < |s| && Stops(s[i + |b|])
    ensures StopFrom(s, i) == i + |b|
    decreases |b|
  {
    if b != [] {
      assert s[i] == s[i..i + |b|][0] == b[0];
      assert s[i + 1..i + 1 + |b[1..]|] == b[1..];
      DoubleFirst(b);
      StopsAfter(s, i + 1, b[1..]);
    }
  }

  /** An ending that is for this pass is played; :| leads to the next pass. */
  lemma EndingPlayed(s: seq<Sign>, m: nat, p: nat, maxpass: nat, h: nat, pos: nat, e: Ending)
    requires h > 0 && Sound(s, m, OnPass(pos, p, maxpass, h)) && pos < |s| && s[pos] == e.sign
    requires ValidEnding(e) && SignsAt(s, pos + 1, e.body) && InList(e.sign, p).found
    requires var k := pos + 1 + |e.body|; k < |s| && (s[k].RepBar? || s[k].DoubleBar?)
    ensures var k := pos + 1 + |e.body|;
            var st' := if s[k].RepBar? then OnPass(h, p + 1, p + 1, h) else OnPass(k + 1, p, p + 1, h);
            && Sound(s, m, st') && Run(s, m, OnPass(pos, p, maxpass, h)) == Then(Played(Ids(e.body), []), Run(s, m, st'))
  {
    hide Run, Bounded, InList, Then, Plain, Ids, SignsAt;
    var st := OnPass(pos, p, maxpass, h);
    RunNext(s, m, st);
    assert !InList(e.sign, p).bad;
    var playing := Step(s, st).st;
    assert Step(s, st).did == Played([], []);
    PlainRun(s, m, playing, e.body);
    var end := playing.(j := pos + 1 + |e.body|);
    RunNext(s, m, end);
    var st' := if s[end.j].RepBar? then OnPass(h, p + 1, p + 1, h) else OnPass(end.j + 1, p, p + 1, h);
    assert Step(s, end) == Move(Played([], []), st');
    NothingDone(Run(s, m, st'));
    NothingDone(Run(s, m, playing));
  }

  /** The variant endings from number i on, on pass p. */
  lemma {:induction false} EndingsRun(s: seq<Sign>, m: nat, x: Section, p: nat, maxpass: nat, h: nat, pos: nat, i: nat)
    returns (st: State)
    requires x.Valid() && i <= |x.endings| && h > 0 && Sound(s, m, OnPass(pos, p, maxpass, h))
    requires SignsAt(s, pos, x.EndingsText(i))
    ensures Sound(s, m, st)
    ensures var k := x.Chosen(p, i);
            if k == |x.endings| then
              && st == OnPass(pos + |x.EndingsText(i)|, p, maxpass, h)
              && Run(s, m, OnPass(pos, p, maxpass, h)) == Run(s, m, st)
            else
              && st == (if x.Close(k).RepBar? then OnPass(h, p + 1, p + 1, h) else OnPass(pos + |x.EndingsText(i)|, p, p + 1, h))
              && Run(s, m, OnPass(pos, p, maxpass, h)) == Then(Played(Ids(x.endings[k].body), []), Run(s, m, st))
    decreases |x.endings| - i
  {
    hide Run, Bounded, InList, Then, Plain, Ids, SignsAt, HasDouble, Sound, ValidEnding, OnPass;
    st := OnPass(pos, p, maxpass, h);
    if i < |x.endings| {
      var e := x.endings[i];
      EndingParts(s, pos, x, i);
      SectionEnding(x, i);
      ChosenNext(x, p, i);
      OnPassMeans(pos, p, maxpass, h);
      LastEnding(x, i);
      if InList(e.sign, p).found {
        EndingPlayed(s, m, p, maxpass, h, pos, e);
        st := if x.Close(i).RepBar? then OnPass(h, p + 1, p + 1, h) else OnPass(pos + 2 + |e.body|, p, p + 1, h);
      } else {
        SoundPasses(s, m, pos, p, maxpass, h);
        EndingLeftOut(s, m, st, e);
        OnPassMeans(pos + 2 + |e.body|, p, maxpass, h);
        st := EndingsRun(s, m, x, p, maxpass, h, pos + 2 + |e.body|, i + 1);
      }
    }
  }

  lemma SoundPasses(s: seq<Sign>, m: nat, j: nat, p: nat, maxpass: nat, h: nat)
    requires h > 0 && Sound(s, m, OnPass(j, p, maxpass, h))
    ensures p >= 1 && p <= m
  {
  }

  lemma OnPassMeans(j: nat, p: nat, maxpass: nat, h: nat)
    requires h > 0
    ensures OnPass(j, p, maxpass, h) == State(j, p, maxpass, p == 1, h - 1, false)
  {
  }

  lemma SectionEnding(x: Section, i: nat)
    requires x.Valid() && i < |x.endings|
    ensures ValidEnding(x.endings[i]) && x.endings[i].sign.PlayOnRep?
  {
    assert ValidEnding(x.endings[i]);
  }

  lemma ChosenNext(x: Section, p: nat, i: nat)
    requires x.Valid() && i < |x.endings| && x.endings[i].sign.PlayOnRep?
    ensures x.Chosen(p, i) == if InList(x.endings[i].sign, p).found then i else x.Chosen(p, i + 1)
  {
    hide InList;
  }

  lemma LastEnding(x: Section, i: nat)
    requires i < |x.endings|
    ensures |x.EndingsText(i)| == 2 + |x.endings[i].body| + |x.EndingsText(i + 1)|
    ensures x.Close(i).RepBar? || x.Close(i).DoubleBar?
    ensures x.Close(i).DoubleBar? ==> i + 1 == |x.endings| && x.EndingsText(i + 1) == []
  {
  }

  /** A section with variant endings, from pass p on. */
  lemma {:induction false} PassesRun(s: seq<Sign>, m: nat, x: Section, p: nat, maxpass: nat, h: nat) returns (st: State)
    requires x.Valid() && x.Within(m) && h > 0 && Sound(s, m, OnPass(h, p, maxpass, h))
    requires SignsAt(s, h, x.head + x.EndingsText(0))
    ensures Sound(s, m, st) && st.j == h + |x.head| + |x.EndingsText(0)| && !st.awaited
    ensures Run(s, m, OnPass(h, p, maxpass, h)) == Then(Played(x.Passes(m, p), []), Run(s, m, st))
    decreases m - p
  {
    hide *;
    SectionHead(x);
    var st0, pos := OnPass(h, p, maxpass, h), h + |x.head|;
    SignAt(s, h, x.head, x.EndingsText(0));
    OnPassMeans(h, p, maxpass, h);
    OnPassMeans(pos, p, maxpass, h);
    SoundPasses(s, m, h, p, maxpass, h);
    PlainRun(s, m, st0, x.head);
    var k := x.Chosen(p, 0);
    x.ChosenWithin(m, p, 0);
    st := EndingsRun(s, m, x, p, maxpass, h, pos, 0);
    OnPassMeans(pos + |x.EndingsText(0)|, p, maxpass, h);
    OnPassMeans(pos + |x.EndingsText(0)|, p, p + 1, h);
    PassesMean(x, m, p);
    if k < |x.endings| {
      LastEnding(x, k);
    }
    if k == |x.endings| {
      assert Ids(x.head) + [] == Ids(x.head);
    } else {
      ThenOuts(Ids(x.head), Ids(x.endings[k].body), Run(s, m, st));
      if x.Close(k).RepBar? {
        var next := st;
        st := PassesRun(s, m, x, p + 1, p + 1, h);
        ThenOuts(Ids(x.head) + Ids(x.endings[k].body), x.Passes(m, p + 1), Run(s, m, st));
        assert Ids(x.head) + Ids(x.endings[k].body) + x.Passes(m, p + 1) ==
               Ids(x.head) + (Ids(x.endings[k].body) + x.Passes(m, p + 1));
      } else {
        assert Ids(x.endings[k].body) + [] == Ids(x.endings[k].body);
      }
    }
  }

  lemma SectionHead(x: Section)
    requires x.Valid()
    ensures Plain(x.head)
    ensures forall k :: 0 <= k < |x.endings| ==> ShapedEnding(x.endings[k])
    ensures forall k :: 0 <= k < |x.endings| ==> ValidEnding(x.endings[k])
  {
  }

  lemma ThenOuts(a: seq<int>, b: seq<int>, r: Played)
    ensures Then(Played(a, []), Then(Played(b, []), r)) == Then(Played(a + b, []), r)
  {
    ThenThen(Played(a, []), Played(b, []), r);
  }

  lemma PassesMean(x: Section, m: nat, p: nat)
    requires x.Valid() && x.Within(m)
    ensures var k := x.Chosen(p, 0);
            x.Passes(m, p) == Ids(x.head) + if k == |x.endings| then []
                              else Ids(x.endings[k].body) + (if x.Close(k).RepBar? && p < m then x.Passes(m, p + 1) else [])
    ensures x.Chosen(1, 0) < |x.endings| && x.Close(x.Chosen(1, 0)).RepBar?
  {
    hide Ids, ValidEnding, InList, Plain;
    x.ChosenWithin(m, p, 0);
  }

  /** A piece of a tune: plain music; |: A :: B :| and so on; or |: and a section with
      variant endings. */
  datatype Piece = Once(body: seq<Sign>) | Repeated(bodies: seq<seq<Sign>>) | Varied(section: Section) {

    function Text(): seq<Sign> {
      match this
      case Once(b) => b
      case Repeated(bs) => [BarRep] + RepeatsText(bs)
      case Varied(x) => [BarRep] + (x.head + x.EndingsText(0))
    }

    ghost predicate Valid(m: nat) {
      match this
      case Once(b) => Plain(b)
      case Repeated(bs) => bs != [] && forall k :: 0 <= k < |bs| ==> Plain(bs[k])
      case Varied(x) => x.Valid() && x.Within(m)
    }

    /** The piece written out. */
    ghost function WrittenOut(m: nat): seq<int>
      requires Valid(m)
    {
      match this
      case Once(b) => Ids(b)
      case Repeated(bs) => EachTwice(bs)
      case Varied(x) => x.Passes(m, 1)
    }
  }

  function RepeatsText(bs: seq<seq<Sign>>): seq<Sign> {
    if bs == [] then [] else bs[0] + [if |bs| > 1 then DoubleRep else RepBar] + RepeatsText(bs[1..])
  }

  function EachTwice(bs: seq<seq<Sign>>): seq<int> {
    if bs == [] then [] else Ids(bs[0]) + Ids(bs[0]) + EachTwice(bs[1..])
  }

  lemma {:induction false} RepeatsRun(s: seq<Sign>, m: nat, i: nat, bs: seq<seq<Sign>>) returns (st: State)
    requires Bounded(s, m) && i > 0 && SignsAt(s, i, RepeatsText(bs)) && bs != []
    requires forall k :: 0 <= k < |bs| ==> Plain(bs[k])
    ensures Sound(s, m, Armed(i)) && Sound(s, m, st) && st.j == i + |RepeatsText(bs)| && !st.awaited
    ensures Run(s, m, Armed(i)) == Then(Played(EachTwice(bs), []), Run(s, m, st))
    decreases |bs|
  {
    hide Run, Bounded, Then, Plain, Ids, SignsAt, Sound;
    var b, sign := bs[0], if |bs| > 1 then DoubleRep else RepBar;
    var k := i + |b|;
    SignAt(s, i, b + [sign], RepeatsText(bs[1..]));
    SignAt(s, i, b, [sign]);
    OneSign(s, k, sign);
    SectionRun(s, m, i, b);
    if |bs| > 1 {
      st := RepeatsRun(s, m, k + 1, bs[1..]);
      ThenOuts(Ids(b) + Ids(b), EachTwice(bs[1..]), Run(s, m, st));
    } else {
      st := State(k + 1, 2, 2, false, i - 1, false);
      assert bs[1..] == [] && Ids(b) + Ids(b) + [] == Ids(b) + Ids(b);
    }
  }

  lemma BarRepRun(s: seq<Sign>, m: nat, st: State)
    requires Sound(s, m, st) && !st.awaited && st.j < |s| && s[st.j] == BarRep
    ensures Sound(s, m, Armed(st.j + 1)) && Run(s, m, st) == Run(s, m, Armed(st.j + 1))
    ensures Armed(st.j + 1) == OnPass(st.j + 1, 1, 2, st.j + 1) && Bounded(s, m) && Armed(st.j + 1).j == st.j + 1
  {
    hide Run, Then, Bounded;
    RunNext(s, m, st);
    NothingDone(Run(s, m, Armed(st.j + 1)));
  }

  lemma PieceMeans(x: Piece, m: nat)
    requires x.Valid(m)
    ensures x.Once? ==> x.Text() == x.body && x.WrittenOut(m) == Ids(x.body) && Plain(x.body)
    ensures x.Repeated? ==> x.Text() == [BarRep] + RepeatsText(x.bodies) && x.WrittenOut(m) == EachTwice(x.bodies) &&
                            x.bodies != [] && forall k :: 0 <= k < |x.bodies| ==> Plain(x.bodies[k])
    ensures x.Varied? ==> x.Text() == [BarRep] + (x.section.head + x.section.EndingsText(0)) &&
                          x.section.Valid() && x.section.Within(m) && x.WrittenOut(m) == x.section.Passes(m, 1)
  {
  }

  /** One piece, from outside all repeats to outside all repeats. */
  lemma PieceRun(s: seq<Sign>, m: nat, st: State, x: Piece) returns (st': State)
    requires Sound(s, m, st) && !st.awaited && x.Valid(m) && SignsAt(s, st.j, x.Text())
    ensures Sound(s, m, st') && !st'.awaited && st'.j == st.j + |x.Text()|
    ensures Run(s, m, st) == Then(Played(x.WrittenOut(m), []), Run(s, m, st'))
  {
    hide *;
    PieceMeans(x, m);
    if x.Once? {
      PlainRun(s, m, st, x.body);
      st' := st.(j := st.j + |x.body|, inVar := st.inVar && !HasDouble(x.body));
    } else {
      var h := st.j + 1;
      var rest := if x.Repeated? then RepeatsText(x.bodies) else x.section.head + x.section.EndingsText(0);
      SignAt(s, st.j, [BarRep], rest);
      OneSign(s, st.j, BarRep);
      BarRepRun(s, m, st);
      if x.Repeated? {
        st' := RepeatsRun(s, m, h, x.bodies);
      } else {
        st' := PassesRun(s, m, x.section, 1, 2, h);
      }
    }
  }

  function TuneText(xs: seq<Piece>): seq<Sign> {
    if xs == [] then [] else xs[0].Text() + TuneText(xs[1..])
  }

  ghost predicate ValidTune(xs: seq<Piece>, m: nat) {
    forall k :: 0 <= k < |xs| ==> xs[k].Valid(m)
  }

  ghost function TuneOut(xs: seq<Piece>, m: nat): seq<int>
    requires ValidTune(xs, m)
  {
    if xs == [] then [] else xs[0].WrittenOut(m) + TuneOut(xs[1..], m)
  }

  lemma {:induction false} PiecesRun(s: seq<Sign>, m: nat, st: State, xs: seq<Piece>)
    requires Sound(s, m, st) && !st.awaited && ValidTune(xs, m) && SignsAt(s, st.j, TuneText(xs))
    requires st.j + |TuneText(xs)| == |s|
    ensures Run(s, m, st) == Played(TuneOut(xs, m), [])
    decreases |xs|
  {
    hide Run, Bounded, Then, Plain, Ids, SignsAt, Sound;
    if xs == [] {
      RunNext(s, m, st);
    } else {
      SignAt(s, st.j, xs[0].Text(), TuneText(xs[1..]));
      var st' := PieceRun(s, m, st, xs[0]);
      PiecesRun(s, m, st', xs[1..]);
      PlayedThen(xs[0].WrittenOut(m), TuneOut(xs[1..], m), []);
    }
  }

  /** `writetrack` plays a tune made of such pieces exactly as it is written out, and makes no
      complaint. */
  lemma TuneRun(xs: seq<Piece>, m: nat)
    requires Bounded(TuneText(xs), m) && ValidTune(xs, m)
    ensures Sound(TuneText(xs), m, START)
    ensures Run(TuneText(xs), m, START) == Played(TuneOut(xs, m), [])
  {
    hide Run, Bounded, ValidTune, TuneText, TuneOut, Sound;
    var s := TuneText(xs);
    StartSound(s, m);
    assert s[0..0 + |s|] == s;
    PiecesRun(s, m, START, xs);
  }

  /** Endings that are numbered 1, 2, 3 and so on. */
  ghost predicate Numbered(x: Section) {
    forall i :: 0 <= i < |x.endings| ==> x.endings[i].sign.PlayOnRep? && x.endings[i].sign.only == i + 1
  }

  /** A B1 A B2 ... A Bk, and A once more if the last ending is closed by :|. */
  function Alternating(x: Section, i: nat): seq<int>
    requires i <= |x.endings|
    decreases |x.endings| - i
  {
    if i == |x.endings| then (if x.again then Ids(x.head) else [])
    else Ids(x.head) + Ids(x.endings[i].body) + Alternating(x, i + 1)
  }

  lemma {:induction false} NumberedChosen(x: Section, p: nat, i: nat)
    requires x.Valid() && Numbered(x) && p >= 1 && i <= |x.endings| && i < p
    ensures x.Chosen(p, i) == if p <= |x.endings| then p - 1 else |x.endings|
    decreases |x.endings| - i
  {
    if i < |x.endings| {
      SectionEnding(x, i);
      ChosenNext(x, p, i);
      if i + 1 < p {
        NumberedChosen(x, p, i + 1);
      }
    }
  }

  lemma {:induction false} NumberedPasses(x: Section, m: nat, p: nat)
    requires x.Valid() && x.Within(m) && Numbered(x) && 1 <= p <= |x.endings| && |x.endings| < m
    ensures x.Passes(m, p) == Alternating(x, p - 1)
    decreases |x.endings| - p
  {
    hide *;
    SectionHead(x);
    AlternatingNext(x, p - 1);
    AlternatingNext(x, |x.endings|);
    LastEnding(x, p - 1);
    CloseMeans(x, p - 1);
    var k := |x.endings|;
    NumberedChosen(x, p, 0);
    PassesMean(x, m, p);
    InTurn(Ids(x.head), Ids(x.endings[p - 1].body), Alternating(x, p));
    if p < k {
      NumberedPasses(x, m, p + 1);
    } else if x.again {
      NumberedChosen(x, k + 1, 0);
      PassesMean(x, m, k + 1);
    }
  }

  lemma InTurn(a: seq<int>, b: seq<int>, c: seq<int>)
    ensures a + (b + c) == a + b + c && a + [] == a && b + [] == b
  {
  }

  lemma AlternatingNext(x: Section, i: nat)
    requires i <= |x.endings|
    ensures Alternating(x, i) ==
            if i == |x.endings| then (if x.again then Ids(x.head) else [])
            else Ids(x.head) + Ids(x.endings[i].body) + Alternating(x, i + 1)
  {
    hide Ids;
  }

  lemma CloseMeans(x: Section, i: nat)
    ensures x.Close(i).RepBar? <==> i + 1 < |x.endings| || x.again
  {
  }

  /** With numbered endings, of which the first is closed by :|, each is played once, in order,
      after the head; the head comes once more exactly when the last one is closed by :| too. */
  lemma NumberedExactly(x: Section, m: nat)
    requires x.Valid() && x.Within(m) && Numbered(x) && |x.endings| < m
    ensures x.Passes(m, 1) == Alternating(x, 0)
    ensures Alternating(x, 0) == Alternating(x.(again := false), 0) + if x.again then Ids(x.head) else []
  {
    NumberedPasses(x, m, 1);
    AgainLast(x, 0);
  }

  lemma {:induction false} AgainLast(x: Section, i: nat)
    requires i <= |x.endings|
    ensures Alternating(x, i) == Alternating(x.(again := false), i) + if x.again then Ids(x.head) else []
    decreases |x.endings| - i
  {
    hide Ids;
    if i < |x.endings| {
      AgainLast(x, i + 1);
    }
  }
}
