/** Tied notes (store.c): `tiefix` turns the first of each run of tied notes into one long
    note that takes no time of its own, and the others into rests that take it instead. One
    voice, one note at a time. */
module Ties {
  import opened Features
  import opened Fractions

  predicate Timed(f: Feature) {
    f.kind == NOTE || f.kind == REST || f.kind == TNOTE
  }

  /** Every note and rest has a length. */
  ghost predicate Lengths(fs: seq<Feature>) {
    forall k :: 0 <= k < |fs| && Timed(fs[k]) ==> fs[k].num > 0 && fs[k].denom > 0
  }

  datatype Sound = Sound(onset: real, len: real, pitch: int)

  /** How features are played: a TNOTE sounds without time going on. */
  datatype Playing = Playing(now: real, out: seq<Sound>)

  ghost function PlayStep(p: Playing, f: Feature): Playing {
    match f.kind
    case NOTE => Playing(p.now + Len(f), p.out + [Sound(p.now, Len(f), f.pitch)])
    case TNOTE => Playing(p.now, p.out + [Sound(p.now, Len(f), f.pitch)])
    case REST => Playing(p.now + Len(f), p.out)
    case _ => p
  }

  ghost function Play(fs: seq<Feature>): Playing {
    if fs == [] then Playing(0.0, []) else PlayStep(Play(fs[..|fs| - 1]), fs[|fs| - 1])
  }

  /** The note that is sounding when ties are taken as `dotie` takes them: it may be tied;
      `newbar` is set at a bar line after its tie, and stays set until the next bar line, even
      when another note has been tied in. */
  datatype Held = None | Held(onset: real, len: real, pitch: int, line: int, tied: bool, newbar: bool)

  datatype State = State(now: real, held: Held, out: seq<Sound>)

  function Flushed(s: State): seq<Sound> {
    if s.held.None? then s.out else s.out + [Sound(s.held.onset, s.held.len, s.held.pitch)]
  }

  /** A tied note takes in the next one of the same pitch, or, with newbar set, on the same
      line of the staff. */
  predicate TiesIn(h: Held, f: Feature) {
    h.Held? && h.tied && (f.pitch == h.pitch || (f.line == h.line && h.newbar))
  }

  ghost function Struck(s: State, f: Feature): State {
    State(s.now + Len(f), Held(s.now, Len(f), f.pitch, f.line, false, false), Flushed(s))
  }

  ghost function Step(s: State, f: Feature): State {
    match f.kind
    case NOTE =>
      if TiesIn(s.held, f) then State(s.now + Len(f), s.held.(len := s.held.len + Len(f), tied := false), s.out)
      else Struck(s, f)
    case REST => State(s.now + Len(f), None, Flushed(s))
    case TNOTE => State(s.now, None, Flushed(s) + [Sound(s.now, Len(f), f.pitch)])
    case TIE => if s.held.Held? then s.(held := s.held.(tied := true)) else s
    case BAR => if s.held.Held? then s.(held := s.held.(newbar := s.held.tied)) else s
    case _ => s
  }

  ghost function Fold(fs: seq<Feature>): State {
    if fs == [] then State(0.0, None, []) else Step(Fold(fs[..|fs| - 1]), fs[|fs| - 1])
  }

  /** What `dotie` takes the features to mean. */
  ghost function Meaning(fs: seq<Feature>): Playing {
    Playing(Fold(fs).now, Flushed(Fold(fs)))
  }

  lemma FoldNext(fs: seq<Feature>, k: nat)
    requires k < |fs|
    ensures Fold(fs[..k + 1]) == Step(Fold(fs[..k]), fs[k])
    ensures Play(fs[..k + 1]) == PlayStep(Play(fs[..k]), fs[k])
  {
    assert fs[..k + 1][..k] == fs[..k];
  }

  lemma {:induction false} FoldRest(fs: seq<Feature>, gs: seq<Feature>, k: nat, n: nat)
    requires k <= n <= |fs| == |gs| && fs[k..] == gs[k..] && Fold(fs[..k]) == Fold(gs[..k])
    ensures Fold(fs[..n]) == Fold(gs[..n])
  {
    hide Fold, Step;
    if k < n {
      FoldRest(fs, gs, k, n - 1);
      FoldNext(fs, n - 1);
      FoldNext(gs, n - 1);
      assert fs[n - 1] == fs[k..][n - 1 - k] == gs[n - 1];
    }
  }

  /** The nearest note or rest before place j, or -1. */
  function Last(fs: seq<Feature>, j: nat): (m: int)
    requires j <= |fs|
    ensures -1 <= m < j && (m >= 0 ==> Timed(fs[m])) && forall k :: m < k < j ==> !Timed(fs[k])
  {
    if j == 0 then -1 else if Timed(fs[j - 1]) then j - 1 else Last(fs, j - 1)
  }

  /** Played as they are, the first j features sound as they mean. */
  ghost predicate Agrees(fs: seq<Feature>, j: nat)
    requires j <= |fs|
  {
    Play(fs[..j]) == Meaning(fs[..j])
  }

  ghost function Fresh(onset: real, f: Feature): Held {
    Held(onset, Len(f), f.pitch, f.line, false, false)
  }

  /** All ties before place j have been dealt with. */
  ghost predicate Settled(fs: seq<Feature>, j: nat)
    requires j <= |fs|
  {
    && Agrees(fs, j)
    && var m := Last(fs, j);
    && var s := Fold(fs[..j]);
    if m < 0 || fs[m].kind == REST then s.held == None
    else
      && fs[m].kind == NOTE && Agrees(fs, m)
      && s.held == Fresh(Fold(fs[..m]).now, fs[m])
      && s.out == Flushed(Fold(fs[..m])) && s.now == Fold(fs[..m]).now + Len(fs[m])
  }

  /** Nothing from place a up to place b that starts a sound. */
  ghost predicate Quiet(fs: seq<Feature>, a: nat, b: nat) {
    b <= |fs| && forall k :: a <= k < b ==> fs[k].kind != NOTE && fs[k].kind != TNOTE
  }

  /** The time that rests take from place a up to place b. */
  ghost function Elapsed(fs: seq<Feature>, a: nat, b: nat): real
    requires b <= |fs|
  {
    if b <= a then 0.0 else Elapsed(fs, a, b - 1) + if fs[b - 1].kind == REST then Len(fs[b - 1]) else 0.0
  }

  lemma {:induction false} ElapsedFrame(fs: seq<Feature>, gs: seq<Feature>, a: nat, b: nat)
    requires b <= |fs| && b <= |gs|
    requires forall k :: a <= k < b ==> gs[k] == fs[k] || (gs[k].kind != REST && fs[k].kind != REST)
    ensures Elapsed(fs, a, b) == Elapsed(gs, a, b)
  {
    if b > a {
      ElapsedFrame(fs, gs, a, b - 1);
    }
  }

  /** From a TNOTE through a quiet stretch. */
  lemma {:induction false} QuietFold(fs: seq<Feature>, n: nat, b: nat)
    requires n < b <= |fs| && fs[n].kind == TNOTE && Quiet(fs, n + 1, b)
    ensures var s := Fold(fs[..n]);
            var out := Flushed(s) + [Sound(s.now, Len(fs[n]), fs[n].pitch)];
            Fold(fs[..b]) == State(s.now + Elapsed(fs, n + 1, b), None, out)
    ensures var p := Play(fs[..n]);
            Play(fs[..b]) == Playing(p.now + Elapsed(fs, n + 1, b), p.out + [Sound(p.now, Len(fs[n]), fs[n].pitch)])
    decreases b
  {
    hide Fold, Play, Len;
    FoldNext(fs, b - 1);
    if b > n + 1 {
      QuietFold(fs, n, b - 1);
    }
  }

  /** What `dotie` has made of the features before `place`: from the note at place n, now a
      TNOTE, there are only rests, and it has the length that the note is to have. */
  ghost predicate Going(was: seq<Feature>, cur: seq<Feature>, n: nat, j: nat, place: nat, lasttie: nat, tietodo: bool, newbar: bool) {
    && n < j <= lasttie < place <= |was| == |cur|
    && (forall k {:trigger cur[k]} :: 0 <= k < |was| && (k < n || k >= place) ==> cur[k] == was[k])
    && Quiet(cur, n + 1, place) && cur[j].kind == REST && (tietodo && lasttie != j ==> cur[lasttie].kind == TIE)
    && cur[n].kind == TNOTE && cur[n].pitch == was[n].pitch && cur[n].line == was[n].line
    && var s := Fold(was[..n]);
    Fold(was[..place]) == State(s.now + Elapsed(cur, n + 1, place),
                                Held(s.now, Len(cur[n]), was[n].pitch, was[n].line, tietodo, newbar), Flushed(s))
  }

  /** The first assignments of `dotie`: NOTE and TIE become TNOTE and REST. */
  function Begun(fs: seq<Feature>, n: nat, j: nat): seq<Feature>
    requires n < j < |fs|
  {
    fs[n := fs[n].(kind := TNOTE)][j := fs[j].(kind := REST, num := fs[n].num, denom := fs[n].denom)]
  }

  lemma {:induction false} NothingElapsed(fs: seq<Feature>, a: nat, b: nat)
    requires b <= |fs| && forall k :: a <= k < b ==> fs[k].kind != REST
    ensures Elapsed(fs, a, b) == 0.0
  {
    if b > a {
      NothingElapsed(fs, a, b - 1);
    }
  }

  lemma Begins(fs: seq<Feature>, n: nat, j: nat)
    requires n < j < |fs| && fs[j].kind == TIE && Settled(fs, j) && Last(fs, j) == n && fs[n].kind == NOTE
    ensures Going(fs, Begun(fs, n, j), n, j, j + 1, j, true, false)
  {
    hide Fold, Play, Len, Flushed, Agrees;
    var cur := Begun(fs, n, j);
    FoldNext(fs, j);
    NothingElapsed(cur, n + 1, j);
    SameLen(fs[n], cur[j]);
    SameLen(fs[n], cur[n]);
  }

  /** Bar lines and features that ties do not care about. */
  lemma GoesOn(was: seq<Feature>, cur: seq<Feature>, n: nat, j: nat, place: nat, lasttie: nat, tietodo: bool, newbar: bool)
    requires Going(was, cur, n, j, place, lasttie, tietodo, newbar) && place < |cur|
    requires !Timed(cur[place]) && cur[place].kind != TIE
    ensures Going(was, cur, n, j, place + 1, lasttie, tietodo, if cur[place].kind == BAR then tietodo else newbar)
  {
    hide Fold, Len, Flushed;
    FoldNext(was, place);
  }

  lemma GoesOnTied(was: seq<Feature>, cur: seq<Feature>, n: nat, j: nat, place: nat, lasttie: nat, tietodo: bool, newbar: bool)
    requires Going(was, cur, n, j, place, lasttie, tietodo, newbar) && place < |cur| && cur[place].kind == TIE
    ensures Going(was, cur, n, j, place + 1, place, true, newbar)
    ensures tietodo ==> Going(was, cur, n, j, place + 1, lasttie, true, newbar)
  {
    hide Fold, Len, Flushed;
    FoldNext(was, place);
  }

  /** What a note tied in leaves behind. */
  function Merged(cur: seq<Feature>, n: nat, j: nat, place: nat, lasttie: nat, num: int, denom: int): seq<Feature>
    requires n < j <= lasttie < place < |cur|
  {
    var c := cur[place := cur[place].(kind := REST, pitch := cur[n].pitch)][n := cur[n].(num := num, denom := denom)];
    if lasttie != j then c[lasttie := c[lasttie].(kind := OLDTIE)] else c
  }

  lemma GoesOnMerged(was: seq<Feature>, cur: seq<Feature>, n: nat, j: nat, place: nat, lasttie: nat, newbar: bool, num: int, denom: int)
    requires Going(was, cur, n, j, place, lasttie, true, newbar) && place < |cur| && cur[place].kind == NOTE
    requires cur[place].pitch == cur[n].pitch || (cur[place].line == cur[n].line && newbar)
    requires Len(cur[n].(num := num, denom := denom)) == Len(cur[n]) + Len(cur[place])
    ensures Going(was, Merged(cur, n, j, place, lasttie, num, denom), n, j, place + 1, lasttie, false, newbar)
  {
    hide Fold, Len, Flushed;
    FoldNext(was, place);
    var c := Merged(cur, n, j, place, lasttie, num, denom);
    ElapsedFrame(cur, c, n + 1, place);
    SameLen(cur[place], c[place]);
    SameLen(c[n], cur[n].(num := num, denom := denom));
  }

  /** A note that is not tied in, or a rest, ends the run of tied notes, and what follows
      means the same as it did. */
  lemma Ends(was: seq<Feature>, cur: seq<Feature>, n: nat, j: nat, place: nat, lasttie: nat, tietodo: bool, newbar: bool)
    requires Going(was, cur, n, j, place, lasttie, tietodo, newbar) && place < |cur|
    requires cur[place].kind == REST || (cur[place].kind == NOTE &&
               !(tietodo && (cur[place].pitch == cur[n].pitch || (cur[place].line == cur[n].line && newbar))))
    ensures Meaning(cur) == Meaning(was)
  {
    hide Fold, Len, Play;
    FoldNext(was, place);
    FoldNext(cur, place);
    QuietFold(cur, n, place);
    SamePrefix(was, cur, n);
    assert Fold(cur[..place + 1]) == Fold(was[..place + 1]);
    SameSuffix(was, cur, place + 1);
    FoldRest(was, cur, place + 1, |was|);
    Whole(was);
    Whole(cur);
  }

  lemma SamePrefix(was: seq<Feature>, cur: seq<Feature>, n: nat)
    requires n <= |was| == |cur| && forall k {:trigger cur[k]} :: 0 <= k < n ==> cur[k] == was[k]
    ensures cur[..n] == was[..n]
  {
  }

  lemma SameSuffix(was: seq<Feature>, cur: seq<Feature>, n: nat)
    requires n <= |was| == |cur| && forall k {:trigger cur[k]} :: n <= k < |was| ==> cur[k] == was[k]
    ensures was[n..] == cur[n..]
  {
  }

  lemma Whole(fs: seq<Feature>)
    ensures fs[..|fs|] == fs
  {
  }

  /** So does the end of the tune. */
  lemma EndsTune(was: seq<Feature>, cur: seq<Feature>, n: nat, j: nat, lasttie: nat, tietodo: bool, newbar: bool)
    requires Going(was, cur, n, j, |was|, lasttie, tietodo, newbar)
    ensures Meaning(cur) == Meaning(was)
  {
    hide Fold, Len, Play;
    QuietFold(cur, n, |was|);
    SamePrefix(was, cur, n);
    Whole(was);
    Whole(cur);
  }

  /** What is left to say when `dotie` is done: places up to j are settled, and no TNOTE comes after. */
  ghost predicate NoTnotes(fs: seq<Feature>, j: nat) {
    forall k :: j <= k < |fs| ==> fs[k].kind != TNOTE
  }

  ghost predicate After(was: seq<Feature>, cur: seq<Feature>, n: nat, j: nat) {
    && n < j < |was| == |cur| && (forall k {:trigger cur[k]} :: 0 <= k < n ==> cur[k] == was[k])
    && cur[n].kind == TNOTE && Quiet(cur, n + 1, j + 1) && cur[j].kind == REST
    && NoTnotes(cur, j + 1) && Lengths(cur)
  }

  lemma AfterSettled(was: seq<Feature>, cur: seq<Feature>, n: nat, j: nat)
    requires After(was, cur, n, j) && Agrees(was, n)
    ensures Settled(cur, j + 1)
  {
    hide Fold, Len, Play;
    QuietFold(cur, n, j + 1);
    SamePrefix(was, cur, n);
  }

  /** The search for the note before a tie. */
  method FindNote(a: array<Feature>, j: nat) returns (tienote: nat)
    requires j < a.Length && a[j].kind == TIE && NoTnoteLast(a[..], j)
    ensures tienote <= j
    ensures a[tienote].kind == NOTE <==> Last(a[..], j) >= 0 && a[Last(a[..], j)].kind == NOTE
    ensures a[tienote].kind == NOTE ==> tienote == Last(a[..], j)
  {
    tienote := j;
    while tienote > 0 && a[tienote].kind != NOTE && a[tienote].kind != REST
      invariant tienote <= j && forall k :: tienote < k < j ==> !Timed(a[..][k])
      invariant tienote == j || !Timed(a[tienote]) || tienote == Last(a[..], j)
    {
      tienote := tienote - 1;
    }
  }

  ghost predicate NoTnoteLast(fs: seq<Feature>, j: nat)
    requires j <= |fs|
  {
    Last(fs, j) >= 0 ==> fs[Last(fs, j)].kind != TNOTE
  }

  /** A tie after no note, or after one that has been dealt with. */
  lemma TieUnheld(fs: seq<Feature>, j: nat)
    requires j < |fs| && fs[j].kind == TIE && Settled(fs, j) && !(Last(fs, j) >= 0 && fs[Last(fs, j)].kind == NOTE)
    ensures Settled(fs, j + 1)
  {
    hide Fold, Play, Len;
    FoldNext(fs, j);
  }

  lemma SettledTies(fs: seq<Feature>, j: nat)
    requires j <= |fs| && Settled(fs, j)
    ensures NoTnoteLast(fs, j)
    ensures Last(fs, j) >= 0 && fs[Last(fs, j)].kind == NOTE ==> Agrees(fs, Last(fs, j))
  {
    hide Fold, Play;
  }

  lemma BeginsAfter(fs: seq<Feature>, n: nat, j: nat)
    requires n < j < |fs| && NoTnotes(fs, j) && Lengths(fs) && Last(fs, j) == n && fs[n].kind == NOTE
    ensures After(fs, Begun(fs, n, j), n, j)
  {
  }

  lemma MergedAfter(was: seq<Feature>, cur: seq<Feature>, n: nat, j: nat, place: nat, lasttie: nat, num: int, denom: int)
    requires After(was, cur, n, j) && j <= lasttie < place < |cur| && num > 0 && denom > 0 && cur[place].kind == NOTE
    requires lasttie != j ==> cur[lasttie].kind == TIE
    ensures After(was, Merged(cur, n, j, place, lasttie, num, denom), n, j)
  {
  }

  /** Taking a length off: the time still to be accounted for. */
  method Subtract(tied_num: int, tied_denom: int, f: Feature) returns (num: int, denom: int)
    requires tied_denom > 0 && f.num > 0 && f.denom > 0
    ensures denom > 0 && Value(num, denom) == Value(tied_num, tied_denom) - Len(f)
    ensures Value(tied_num, tied_denom) == Len(f) ==> num == 0
    ensures tied_num == 0 ==> num < 0
  {
    hide *;
    num, denom := AddFract(tied_num, tied_denom, -f.num, f.denom);
    LowestDenom(num, denom);
    ValueSign(num, denom);
    ValueSign(tied_num, tied_denom);
    ValueSign(f.num, f.denom);
    LenIs(f);
  }

  /** Tying a note in: its length goes to the first note, and it becomes a rest. */
  method TieIn(a: array<Feature>, n: nat, j: nat, place: nat, lasttie: nat)
    requires n < j <= lasttie < place < a.Length && a[n].num > 0 && a[n].denom > 0 && a[place].num > 0 && a[place].denom > 0
    modifies a
    ensures exists num, denom ::
              && num > 0 && denom > 0 && a[..] == Merged(old(a[..]), n, j, place, lasttie, num, denom)
              && Len(old(a[n]).(num := num, denom := denom)) == Len(old(a[n])) + Len(old(a[place]))
  {
    ghost var was := a[..];
    a[place] := a[place].(pitch := a[n].pitch);
    var num, denom := AddFract(a[n].num, a[n].denom, a[place].num, a[place].denom);
    SumPositive(was[n], was[place], num, denom);
    a[n] := a[n].(num := num, denom := denom);
    a[place] := a[place].(kind := REST);
    if lasttie != j {
      a[lasttie] := a[lasttie].(kind := OLDTIE);
    }
    assert a[..] == Merged(was, n, j, place, lasttie, num, denom);
  }

  lemma SumPositive(f: Feature, g: Feature, num: int, denom: int)
    requires f.num > 0 && f.denom > 0 && g.num > 0 && g.denom > 0 && LowestTerms(num, denom)
    requires Value(num, denom) == Value(f.num, f.denom) + Value(g.num, g.denom)
    ensures num > 0 && denom > 0 && Len(f.(num := num, denom := denom)) == Len(f) + Len(g)
  {
    hide Value, Gcd;
    ValueSign(f.num, f.denom);
    ValueSign(g.num, g.denom);
    ValueSign(num, denom);
  }

  /** The variables of the loop in `dotie`. */
  datatype Run = Run(place: nat, tied_num: int, tied_denom: int, tietodo: bool, newbar: bool, lasttie: nat, lastnote: int, done: bool)

  /** They agree with the features: at the start the first note's length is still to be
      accounted for; while the run of ties goes on, nothing is; after it, all is settled. */
  ghost predicate Tracks(was: seq<Feature>, cur: seq<Feature>, n: nat, j: nat, r: Run) {
    && After(was, cur, n, j) && j <= r.place <= |cur| && r.tied_denom > 0 && -1 <= r.lastnote < r.place
    && if r.place == j then
         && Going(was, cur, n, j, j + 1, j, true, false) && r.tietodo && !r.newbar && r.lasttie == j && !r.done
         && r.lastnote < 0 && Value(r.tied_num, r.tied_denom) == Len(cur[j]) && r.tied_num > 0
       else if r.tied_num == 0 && !r.done then
         && Going(was, cur, n, j, r.place, r.lasttie, r.tietodo, r.newbar)
         && (if r.lastnote < 0 then r.tietodo else cur[r.lastnote].pitch == cur[n].pitch)
       else (r.tied_num < 0 || r.done) && Meaning(cur) == Meaning(was)
  }

  /** The loop goes on. */
  predicate Busy(r: Run, notes: nat) {
    r.place < notes && r.tied_num >= 0 && !r.done
  }

  lemma FirstTracks(fs: seq<Feature>, n: nat, j: nat)
    requires n < j < |fs| && fs[j].kind == TIE && Settled(fs, j) && Last(fs, j) == n && fs[n].kind == NOTE
    requires NoTnotes(fs, j) && Lengths(fs)
    ensures Tracks(fs, Begun(fs, n, j), n, j, Run(j, fs[n].num, fs[n].denom, true, false, j, -1, false))
  {
    hide Going, After, Settled, Last, NoTnotes, Value;
    Begins(fs, n, j);
    BeginsAfter(fs, n, j);
  }

  lemma TracksMean(was: seq<Feature>, cur: seq<Feature>, n: nat, j: nat, r: Run)
    requires Tracks(was, cur, n, j, r) && Busy(r, |cur|)
    ensures After(was, cur, n, j) && r.place < |was| && r.tied_denom > 0
    ensures r.place != j ==> r.tied_num == 0 && Going(was, cur, n, j, r.place, r.lasttie, r.tietodo, r.newbar)
    ensures r.place == j ==> cur[j].kind == REST && r.lastnote < 0 && r.tietodo && Value(r.tied_num, r.tied_denom) == Len(cur[j])
    ensures Timed(cur[r.place]) ==> cur[r.place].num > 0 && cur[r.place].denom > 0 && cur[r.place].kind != TNOTE
  {
    hide Going, Meaning, Len;
  }

  lemma TracksEnd(was: seq<Feature>, cur: seq<Feature>, n: nat, j: nat, r: Run)
    requires Tracks(was, cur, n, j, r) && !Busy(r, |cur|) && Agrees(was, n)
    ensures Meaning(cur) == Meaning(was) && Settled(cur, j + 1) && NoTnotes(cur, j + 1) && Lengths(cur)
  {
    hide Going, Meaning, Len, Settled, Agrees;
    AfterSettled(was, cur, n, j);
    if r.tied_num == 0 && !r.done {
      EndsTune(was, cur, n, j, r.lasttie, r.tietodo, r.newbar);
    }
  }

  /** case SINGLE_BAR, BAR_REP, REP_BAR, and all that is skipped */
  lemma TracksOn(was: seq<Feature>, cur: seq<Feature>, n: nat, j: nat, r: Run)
    requires Tracks(was, cur, n, j, r) && Busy(r, |cur|) && !Timed(cur[r.place]) && cur[r.place].kind != TIE
    ensures var newbar := if cur[r.place].kind == BAR then r.tietodo else r.newbar;
            Tracks(was, cur, n, j, r.(place := r.place + 1, newbar := newbar))
  {
    hide Going, Meaning, Len, After;
    TracksMean(was, cur, n, j, r);
    GoesOn(was, cur, n, j, r.place, r.lasttie, r.tietodo, r.newbar);
  }

  /** case TIE */
  lemma TracksTie(was: seq<Feature>, cur: seq<Feature>, n: nat, j: nat, r: Run)
    requires Tracks(was, cur, n, j, r) && Busy(r, |cur|) && cur[r.place].kind == TIE
    ensures r.lastnote >= 0 ==> cur[r.lastnote].pitch == cur[n].pitch
    ensures Tracks(was, cur, n, j, if r.lastnote < 0 then r.(place := r.place + 1)
                                   else r.(place := r.place + 1, tietodo := true, lasttie := r.place))
  {
    hide Going, Meaning, Len, After;
    TracksMean(was, cur, n, j, r);
    GoesOnTied(was, cur, n, j, r.place, r.lasttie, r.tietodo, r.newbar);
  }

  /** case REST, and NOTE when it is not tied in: the length is taken off. */
  lemma TracksTimed(was: seq<Feature>, cur: seq<Feature>, n: nat, j: nat, r: Run, r': Run)
    requires Tracks(was, cur, n, j, r) && Busy(r, |cur|)
    requires cur[r.place].kind == REST || (cur[r.place].kind == NOTE && !Fitting(cur, n, r))
    requires r' == r.(place := r.place + 1, done := r.tied_num == 0 && !r.tietodo, tied_num := r'.tied_num,
                      tied_denom := r'.tied_denom, lastnote := r'.lastnote) && r'.tied_denom > 0
    requires r'.lastnote == if cur[r.place].kind == NOTE then r.place else r.lastnote
    requires Value(r.tied_num, r.tied_denom) == Len(cur[r.place]) ==> r'.tied_num == 0
    requires r.tied_num == 0 ==> r'.tied_num < 0
    ensures Tracks(was, cur, n, j, r')
  {
    hide Going, Meaning, Len, After, Value;
    TracksMean(was, cur, n, j, r);
    if r.place != j {
      Ends(was, cur, n, j, r.place, r.lasttie, r.tietodo, r.newbar);
    }
  }

  /** The condition for tying a note in. */
  predicate Fitting(cur: seq<Feature>, n: nat, r: Run)
    requires n < |cur| && r.place < |cur|
  {
    ((cur[r.place].line == cur[n].line && r.newbar) || cur[r.place].pitch == cur[n].pitch) && r.tietodo
  }

  /** case NOTE, when it is tied in. */
  lemma TracksMerged(was: seq<Feature>, cur: seq<Feature>, n: nat, j: nat, r: Run, num: int, denom: int, tied_denom: int)
    requires Tracks(was, cur, n, j, r) && Busy(r, |cur|) && n < |cur| && cur[r.place].kind == NOTE && Fitting(cur, n, r)
    requires num > 0 && denom > 0 && tied_denom > 0
    requires Len(cur[n].(num := num, denom := denom)) == Len(cur[n]) + Len(cur[r.place])
    ensures n < j <= r.lasttie < r.place && r.tied_num == 0
    ensures Tracks(was, Merged(cur, n, j, r.place, r.lasttie, num, denom), n, j,
                   Run(r.place + 1, 0, tied_denom, false, r.newbar, r.lasttie, r.place, false))
  {
    hide Meaning, Len, After, Fold, Quiet, Value;
    TracksMean(was, cur, n, j, r);
    GoesOnMerged(was, cur, n, j, r.place, r.lasttie, r.newbar, num, denom);
    MergedAfter(was, cur, n, j, r.place, r.lasttie, num, denom);
  }

  lemma DoneAt(fs: seq<Feature>, j: nat)
    requires NoTnotes(fs, j)
    ensures NoTnotes(fs, j + 1)
  {
  }

  lemma BegunMeans(fs: seq<Feature>, n: nat, j: nat)
    requires n < j < |fs|
    ensures Begun(fs, n, j) == fs[n := fs[n].(kind := TNOTE)][j := fs[j].(kind := REST, num := fs[n].num, denom := fs[n].denom)]
  {
  }

  lemma BusyMeans(r: Run, notes: nat)
    ensures Busy(r, notes) <==> r.place < notes && r.tied_num >= 0 && !r.done
  {
  }

  lemma KindMeans(f: Feature)
    ensures Timed(f) <==> f.kind == NOTE || f.kind == REST || f.kind == TNOTE
  {
  }

  lemma FittingMeans(cur: seq<Feature>, n: nat, r: Run)
    requires n < |cur| && r.place < |cur|
    ensures Fitting(cur, n, r) <==>
            ((cur[r.place].line == cur[n].line && r.newbar) || cur[r.place].pitch == cur[n].pitch) && r.tietodo
  {
  }

  /** The note at place n as it is while the loop runs. */
  lemma RunNote(was: seq<Feature>, cur: seq<Feature>, n: nat, j: nat)
    requires After(was, cur, n, j)
    ensures n < j < |was| == |cur| && cur[n].num > 0 && cur[n].denom > 0
  {
  }

  lemma RunTies(was: seq<Feature>, cur: seq<Feature>, n: nat, j: nat, r: Run)
    requires Tracks(was, cur, n, j, r) && Busy(r, |cur|) && r.place < |cur| && cur[r.place].kind == NOTE
    ensures n < j <= r.lasttie < r.place && r.tied_num == 0
  {
    hide Meaning, Len, After, Fold, Quiet, Value;
    TracksMean(was, cur, n, j, r);
  }

  lemma LastNoteIn(was: seq<Feature>, cur: seq<Feature>, n: nat, j: nat, r: Run)
    requires Tracks(was, cur, n, j, r)
    ensures r.lastnote < |cur| && r.place <= |cur| && (r.lastnote != -1 ==> r.lastnote >= 0)
  {
  }

  /** `dotie`, for one voice with no chords: the answers are whether there is a note to be
      tied, and whether the complaint "Time mismatch at tie" is made, which never happens. */
  method DoTie(a: array<Feature>, j: nat) returns (found: bool, mismatch: bool)
    requires j < a.Length && a[j].kind == TIE && Settled(a[..], j) && NoTnotes(a[..], j) && Lengths(a[..])
    modifies a
    ensures Meaning(a[..]) == old(Meaning(a[..])) && !mismatch
    ensures Settled(a[..], j + 1) && NoTnotes(a[..], j + 1) && Lengths(a[..])
    ensures found <==> Last(old(a[..]), j) >= 0 && old(a[..])[Last(old(a[..]), j)].kind == NOTE
  {
    hide *;
    ghost var was := a[..];
    SettledTies(was, j);
    mismatch := false;
    var tienote := FindNote(a, j);
    if a[tienote].kind != NOTE {
      TieUnheld(was, j);
      DoneAt(was, j);
      return false, false;
    }
    found := true;
    FirstTracks(was, tienote, j);
    BegunMeans(was, tienote, j);
    a[tienote] := a[tienote].(kind := TNOTE);
    a[j] := a[j].(kind := REST, num := a[tienote].num, denom := a[tienote].denom);
    assert a[..] == Begun(was, tienote, j);
    var place, tietodo, newbar, lasttie, lastnote, done := j, true, false, j, -1, false;
    var tied_num, tied_denom := a[tienote].num, a[tienote].denom;
    while place < a.Length && tied_num >= 0 && !done
      invariant Tracks(was, a[..], tienote, j, Run(place, tied_num, tied_denom, tietodo, newbar, lasttie, lastnote, done))
      invariant !mismatch && place <= a.Length
    {
      ghost var r, cur := Run(place, tied_num, tied_denom, tietodo, newbar, lasttie, lastnote, done), a[..];
      BusyMeans(r, a.Length);
      TracksMean(was, cur, tienote, j, r);
      RunNote(was, cur, tienote, j);
      LastNoteIn(was, cur, tienote, j, r);
      match a[place].kind {
        case BAR =>
          KindMeans(a[place]);
          TracksOn(was, cur, tienote, j, r);
          if tietodo {
            newbar := true;
          } else {
            newbar := false;
          }
        case NOTE =>
          KindMeans(a[place]);
          FittingMeans(cur, tienote, r);
          lastnote := place;
          if tied_num == 0 && !tietodo {
            done := true;
          }
          if ((a[place].line == a[tienote].line && newbar) || a[place].pitch == a[tienote].pitch) && tietodo {
            var f := a[place];
            if tied_num != 0 {
              mismatch := true;
            }
            tietodo := false;
            RunTies(was, cur, tienote, j, r);
            TieIn(a, tienote, j, place, lasttie);
            ghost var num, denom :| num > 0 && denom > 0 && a[..] == Merged(cur, tienote, j, place, lasttie, num, denom) &&
                                    Len(cur[tienote].(num := num, denom := denom)) == Len(cur[tienote]) + Len(cur[place]);
            ValueSign(tied_num, tied_denom);
            LenIs(f);
            tied_num, tied_denom := AddFract(tied_num, tied_denom, f.num, f.denom);
            LowestDenom(tied_num, tied_denom);
            tied_num, tied_denom := Subtract(tied_num, tied_denom, f);
            TracksMerged(was, cur, tienote, j, r, num, denom, tied_denom);
          } else {
            tied_num, tied_denom := Subtract(tied_num, tied_denom, a[place]);
            TracksTimed(was, cur, tienote, j, r, Run(place + 1, tied_num, tied_denom, tietodo, newbar, lasttie, lastnote, done));
          }
        case REST =>
          KindMeans(a[place]);
          if tied_num == 0 && !tietodo {
            done := true;
          }
          tied_num, tied_denom := Subtract(tied_num, tied_denom, a[place]);
          TracksTimed(was, cur, tienote, j, r, Run(place + 1, tied_num, tied_denom, tietodo, newbar, lasttie, lastnote, done));
        case TIE =>
          TracksTie(was, cur, tienote, j, r);
          if lastnote != -1 {
            if a[lastnote].pitch == a[tienote].pitch {
              lasttie := place;
              tietodo := true;
            }
          }
        case _ =>
          KindMeans(a[place]);
          TracksOn(was, cur, tienote, j, r);
      }
      place := place + 1;
    }
    BusyMeans(Run(place, tied_num, tied_denom, tietodo, newbar, lasttie, lastnote, done), a.Length);
    TracksEnd(was, a[..], tienote, j, Run(place, tied_num, tied_denom, tietodo, newbar, lasttie, lastnote, done));
  }

  lemma SettledNext(fs: seq<Feature>, j: nat)
    requires j < |fs| && Settled(fs, j) && fs[j].kind != TIE && fs[j].kind != TNOTE
    ensures Settled(fs, j + 1)
  {
    hide Fold, Play, Len;
    FoldNext(fs, j);
  }

  lemma SettledStart(fs: seq<Feature>)
    ensures Settled(fs, 0)
  {
  }

  lemma SettledWhole(fs: seq<Feature>)
    requires Settled(fs, |fs|)
    ensures Play(fs) == Meaning(fs)
  {
    hide Fold, Play;
    Whole(fs);
  }

  lemma NoTnoteAt(fs: seq<Feature>, j: nat)
    requires NoTnotes(fs, j)
    ensures NoTnotes(fs, j + 1) && (j < |fs| ==> fs[j].kind != TNOTE)
  {
  }

  /** A further note of a run of tied notes, and whether a bar line comes before it. */
  datatype Link = Link(bar: bool, note: Feature)

  function Mark(kind: Kind): Feature {
    Feature(kind, 0, 0, 0, 0, false)
  }

  /** A run as it is written. */
  function Chain(first: Feature, links: seq<Link>): seq<Feature> {
    if links == [] then [first]
    else
      var l := links[|links| - 1];
      Chain(first, links[..|links| - 1]) + [Mark(TIE)] +
      (if l.bar then [Mark(BAR)] else []) + [l.note]
  }

  ghost function Total(first: Feature, links: seq<Link>): real {
    if links == [] then Len(first) else Total(first, links[..|links| - 1]) + Len(links[|links| - 1].note)
  }

  ghost predicate Linked(first: Feature, links: seq<Link>) {
    && first.kind == NOTE
    && forall k :: 0 <= k < |links| ==>
         links[k].note.kind == NOTE &&
         (links[k].note.pitch == first.pitch || (links[k].bar && links[k].note.line == first.line))
  }

  lemma FoldOne(fs: seq<Feature>, f: Feature)
    ensures Fold(fs + [f]) == Step(Fold(fs), f)
    ensures StrictFold(fs + [f]) == StrictStep(StrictFold(fs), f)
  {
    assert (fs + [f])[..|fs|] == fs;
  }

  /** One sound has begun where `s` was, has the length and place of a run, and is not tied on. */
  ghost predicate OneSound(s: State, r: State, first: Feature, total: real) {
    && r.now == s.now + total && r.out == Flushed(s)
    && r.held.Held? && r.held.onset == s.now && r.held.len == total && !r.held.tied
    && r.held.pitch == first.pitch && r.held.line == first.line
  }

  /** No note that goes on over a bar line at another pitch has an accidental of its own. */
  ghost predicate Bare(first: Feature, links: seq<Link>) {
    forall k :: 0 <= k < |links| ==> links[k].note.pitch == first.pitch || !links[k].note.own
  }

  ghost predicate Untied(s: State) {
    s.held.Held? ==> !s.held.tied
  }

  /** A run of tied notes of one pitch, or that go on over bar lines on one line of the staff,
      is one sound, as long as all of them together, for `dotie`; and so it is written, if
      the ones of another pitch have no accidentals of their own. */
  lemma {:induction false} ChainMeans(fs: seq<Feature>, first: Feature, links: seq<Link>)
    requires Linked(first, links) && Untied(Fold(fs)) && Untied(StrictFold(fs))
    ensures OneSound(Fold(fs), Fold(fs + Chain(first, links)), first, Total(first, links))
    ensures Bare(first, links) ==>
              OneSound(StrictFold(fs), StrictFold(fs + Chain(first, links)), first, Total(first, links))
  {
    hide Fold, StrictFold, Len, Flushed;
    if links == [] {
      FoldOne(fs, first);
    } else {
      var l, before := links[|links| - 1], fs + Chain(first, links[..|links| - 1]);
      var tie, bar := Mark(TIE), Mark(BAR);
      ChainMeans(fs, first, links[..|links| - 1]);
      FoldOne(before, tie);
      if l.bar {
        FoldOne(before + [tie], bar);
        FoldOne(before + [tie] + [bar], l.note);
        assert fs + Chain(first, links) == before + [tie] + [bar] + [l.note];
      } else {
        FoldOne(before + [tie], l.note);
        assert fs + Chain(first, links) == before + [tie] + [l.note];
      }
    }
  }

  /** Ties as they are written: a tied note takes in the next one of the same pitch, or, when
      a bar line of any kind has come after the tie, the next one on the same line of the
      staff, for the bar line has cancelled the accidental that the tie carries on; but not if
      that note has an accidental of its own. */
  predicate WrittenIn(h: Held, f: Feature) {
    h.Held? && h.tied && (f.pitch == h.pitch || (f.line == h.line && h.newbar && !f.own))
  }

  /** Here newbar says that a bar line has come after the tie, and is clear again once a note
      has been tied in. */
  ghost function StrictStep(s: State, f: Feature): State {
    match f.kind
    case NOTE =>
      if WrittenIn(s.held, f) then
        State(s.now + Len(f), s.held.(len := s.held.len + Len(f), tied := false, newbar := false), s.out)
      else Struck(s, f)
    case DOUBLE => if s.held.Held? then s.(held := s.held.(newbar := s.held.tied)) else s
    case _ => Step(s, f)
  }

  ghost function StrictFold(fs: seq<Feature>): State {
    if fs == [] then State(0.0, None, []) else StrictStep(StrictFold(fs[..|fs| - 1]), fs[|fs| - 1])
  }

  ghost function StrictMeaning(fs: seq<Feature>): Playing {
    Playing(StrictFold(fs).now, Flushed(StrictFold(fs)))
  }

  /** A tie stands before place k, after the last note or rest. */
  predicate TieSince(fs: seq<Feature>, k: nat)
    requires k <= |fs|
  {
    k > 0 && !Timed(fs[k - 1]) && (fs[k - 1].kind == TIE || TieSince(fs, k - 1))
  }

  /** So does a bar line of any kind, after the tie. */
  predicate BarSinceTie(fs: seq<Feature>, k: nat)
    requires k <= |fs|
  {
    k > 0 && !Timed(fs[k - 1]) &&
    if fs[k - 1].kind == BAR || fs[k - 1].kind == DOUBLE then TieSince(fs, k - 1) else BarSinceTie(fs, k - 1)
  }

  /** Note k is tied in although its pitch is another one and no bar line stands between it
      and its own tie. */
  ghost predicate Stale(fs: seq<Feature>, k: nat)
    requires k < |fs|
  {
    && fs[k].kind == NOTE && TiesIn(Fold(fs[..k]).held, fs[k])
    && fs[k].pitch != Fold(fs[..k]).held.pitch && !BarSinceTie(fs, k)
  }

  /** Note k is tied in although an accidental of its own gives it another pitch. */
  ghost predicate OwnIgnored(fs: seq<Feature>, k: nat)
    requires k < |fs|
  {
    && fs[k].kind == NOTE && TiesIn(Fold(fs[..k]).held, fs[k])
    && fs[k].pitch != Fold(fs[..k]).held.pitch && fs[k].own
  }

  /** Note k goes on from a tied one on its line, over a bar line that `dotie` does not count
      as one, and is not tied in. */
  ghost predicate Missed(fs: seq<Feature>, k: nat)
    requires k < |fs|
  {
    var h := Fold(fs[..k]).held;
    && fs[k].kind == NOTE && h.Held? && h.tied && !TiesIn(h, fs[k])
    && fs[k].line == h.line && !fs[k].own && BarSinceTie(fs, k)
  }

  ghost predicate Amiss(fs: seq<Feature>, k: nat)
    requires k < |fs|
  {
    Stale(fs, k) || OwnIgnored(fs, k) || Missed(fs, k)
  }

  ghost predicate NoTieAmiss(fs: seq<Feature>) {
    forall k :: 0 <= k < |fs| ==> !Amiss(fs, k)
  }

  lemma StrictNext(fs: seq<Feature>, k: nat)
    requires k < |fs|
    ensures StrictFold(fs[..k + 1]) == StrictStep(StrictFold(fs[..k]), fs[k])
  {
    assert fs[..k + 1][..k] == fs[..k];
  }

  /** The variables of the strict reading are what they are called. */
  lemma {:induction false} StrictVariables(fs: seq<Feature>, k: nat)
    requires k <= |fs|
    ensures var h := StrictFold(fs[..k]).held; h.Held? ==> h.tied == TieSince(fs, k) && h.newbar == BarSinceTie(fs, k)
  {
    hide StrictFold, Len, Flushed;
    if k > 0 {
      StrictVariables(fs, k - 1);
      StrictNext(fs, k - 1);
    } else {
      StrictNone(fs);
    }
  }

  lemma StrictNone(fs: seq<Feature>)
    ensures StrictFold(fs[..0]) == Fold(fs[..0]) == State(0.0, None, [])
  {
  }

  /** The same but for newbar. */
  predicate Alike(s: State, t: State) {
    && s.now == t.now && s.out == t.out
    && (if s.held.None? || t.held.None? then s.held == t.held
        else t.held == s.held.(newbar := t.held.newbar))
  }

  lemma AlikeStep(s: State, t: State, f: Feature)
    requires Alike(s, t) && (f.kind == NOTE ==> (TiesIn(s.held, f) <==> WrittenIn(t.held, f)))
    ensures Alike(Step(s, f), StrictStep(t, f))
  {
    hide Len;
  }

  /** Where the readings have been alike, note k goes amiss exactly if they part there. */
  lemma AmissMeans(fs: seq<Feature>, k: nat)
    requires k < |fs| && Alike(Fold(fs[..k]), StrictFold(fs[..k]))
    ensures Amiss(fs, k) <==>
            fs[k].kind == NOTE && (TiesIn(Fold(fs[..k]).held, fs[k]) <==> !WrittenIn(StrictFold(fs[..k]).held, fs[k]))
  {
    StrictVariables(fs, k);
    hide Fold, StrictFold, Step, StrictStep, Flushed, BarSinceTie, TieSince;
  }

  /** Up to a place before which no tie goes amiss, the two readings agree. */
  lemma {:induction false} AlikeUpTo(fs: seq<Feature>, k: nat)
    requires k <= |fs| && forall i :: 0 <= i < k ==> !Amiss(fs, i)
    ensures Alike(Fold(fs[..k]), StrictFold(fs[..k]))
  {
    if k == 0 {
      StrictNone(fs);
    } else {
      AlikeUpTo(fs, k - 1);
      FoldNext(fs, k - 1);
      StrictNext(fs, k - 1);
      AmissMeans(fs, k - 1);
      hide *;
      AlikeStep(Fold(fs[..k - 1]), StrictFold(fs[..k - 1]), fs[k - 1]);
    }
  }

  /** A sound once begun keeps its place and does not get shorter. */
  ghost predicate Kept(s: State, at: nat, min: real) {
    |Flushed(s)| > at && Flushed(s)[at].len >= min
  }

  lemma StepKeeps(s: State, f: Feature, at: nat, min: real)
    requires Kept(s, at, min) && (Timed(f) ==> Len(f) >= 0.0)
    ensures Kept(Step(s, f), at, min) && Kept(StrictStep(s, f), at, min)
  {
    hide Len;
  }

  lemma {:induction false} FoldKeeps(fs: seq<Feature>, j: nat, k: nat, at: nat, min: real)
    requires j <= k <= |fs| && Lengths(fs)
    ensures Kept(Fold(fs[..j]), at, min) ==> Kept(Fold(fs[..k]), at, min)
    ensures Kept(StrictFold(fs[..j]), at, min) ==> Kept(StrictFold(fs[..k]), at, min)
    decreases k
  {
    hide Fold, StrictFold, Step, StrictStep, Kept, Len;
    if j < k {
      FoldKeeps(fs, j, k - 1, at, min);
      FoldNext(fs, k - 1);
      StrictNext(fs, k - 1);
      if Timed(fs[k - 1]) {
        LenPositive(fs, k - 1);
      }
      if Kept(Fold(fs[..k - 1]), at, min) {
        StepKeeps(Fold(fs[..k - 1]), fs[k - 1], at, min);
      }
      if Kept(StrictFold(fs[..k - 1]), at, min) {
        StepKeeps(StrictFold(fs[..k - 1]), fs[k - 1], at, min);
      }
    }
  }

  lemma LenPositive(fs: seq<Feature>, k: nat)
    requires Lengths(fs) && k < |fs| && Timed(fs[k])
    ensures Len(fs[k]) > 0.0
  {
    ValueSign(fs[k].num, fs[k].denom);
  }

  /** A sound that is over stays as it is. */
  ghost predicate Over(s: State, at: nat, x: Sound) {
    |s.out| > at && s.out[at] == x
  }

  lemma {:induction false} StaysOver(fs: seq<Feature>, j: nat, k: nat, at: nat, x: Sound)
    requires j <= k <= |fs|
    ensures Over(Fold(fs[..j]), at, x) ==> Over(Fold(fs[..k]), at, x)
    ensures Over(StrictFold(fs[..j]), at, x) ==> Over(StrictFold(fs[..k]), at, x)
    decreases k
  {
    hide Fold, StrictFold, Len;
    if j < k {
      StaysOver(fs, j, k - 1, at, x);
      FoldNext(fs, k - 1);
      StrictNext(fs, k - 1);
    }
  }

  /** At the first note that goes amiss, one reading ends a sound that the other makes longer. */
  lemma AmissDiffers(fs: seq<Feature>, k: nat)
    requires Lengths(fs) && k < |fs| && Amiss(fs, k) && forall i :: 0 <= i < k ==> !Amiss(fs, i)
    ensures Meaning(fs) != StrictMeaning(fs)
  {
    AlikeUpTo(fs, k);
    AmissMeans(fs, k);
    hide Fold, StrictFold, Len, Amiss;
    FoldNext(fs, k);
    StrictNext(fs, k);
    LenPositive(fs, k);
    var s := Fold(fs[..k]);
    var at, h := |s.out|, s.held;
    FoldKeeps(fs, k + 1, |fs|, at, h.len + Len(fs[k]));
    StaysOver(fs, k + 1, |fs|, at, Sound(h.onset, h.len, h.pitch));
    Whole(fs);
  }

  lemma {:induction false} FirstAmiss(fs: seq<Feature>, n: nat) returns (k: nat)
    requires n <= |fs| && exists i :: 0 <= i < n && Amiss(fs, i)
    ensures k < n && Amiss(fs, k) && forall i :: 0 <= i < k ==> !Amiss(fs, i)
  {
    hide Amiss;
    if exists i :: 0 <= i < n - 1 && Amiss(fs, i) {
      k := FirstAmiss(fs, n - 1);
    } else {
      k := n - 1;
    }
  }

  /** `dotie` understands the ties of a tune as they are written if and only if it ties in no
      note of another pitch that has an accidental of its own or no bar line since its own
      tie, and leaves out none that a tie leads on to over a || or ::. */
  lemma StrictExactly(fs: seq<Feature>)
    requires Lengths(fs)
    ensures Meaning(fs) == StrictMeaning(fs) <==> NoTieAmiss(fs)
  {
    hide Amiss, Meaning, StrictMeaning;
    if NoTieAmiss(fs) {
      AlikeUpTo(fs, |fs|);
      Whole(fs);
      AlikeMeans(fs);
    } else {
      var k := FirstAmiss(fs, |fs|);
      AmissDiffers(fs, k);
    }
  }

  lemma AlikeMeans(fs: seq<Feature>)
    requires Alike(Fold(fs), StrictFold(fs))
    ensures Meaning(fs) == StrictMeaning(fs)
  {
  }

  /** A note of length 1 on the line of c. */
  function OnC(pitch: int, own: bool): Feature {
    Feature(NOTE, pitch, 60, 1, 1, own)
  }

  /** C-|C-^C */
  function SharpAfterTie(): seq<Feature> {
    [OnC(60, false), Mark(TIE), Mark(BAR), OnC(60, false), Mark(TIE), OnC(61, true)]
  }

  lemma SharpForDotie()
    ensures Meaning(SharpAfterTie()) == Playing(3.0, [Sound(0.0, 3.0, 60)])
  {
    var fs := SharpAfterTie();
    LenOne();
    StrictNone(fs);
    hide Len, Fold, StrictFold, TiesIn;
    TiesInMeans(Fold(fs[..0]).held, fs[0]);
    FoldNext(fs, 0);
    FoldNext(fs, 1);
    FoldNext(fs, 2);
    assert Fold(fs[..3]) == State(1.0, Held(0.0, 1.0, 60, 60, true, true), []);
    TiesInMeans(Fold(fs[..3]).held, fs[3]);
    FoldNext(fs, 3);
    FoldNext(fs, 4);
    assert Fold(fs[..5]) == State(2.0, Held(0.0, 2.0, 60, 60, true, true), []);
    TiesInMeans(Fold(fs[..5]).held, fs[5]);
    FoldNext(fs, 5);
    Whole(fs);
  }

  lemma SharpWritten()
    ensures StrictMeaning(SharpAfterTie()) == Playing(3.0, [Sound(0.0, 2.0, 60), Sound(2.0, 1.0, 61)])
  {
    var fs := SharpAfterTie();
    LenOne();
    StrictNone(fs);
    hide Len, Fold, StrictFold, WrittenIn;
    TiesInMeans(StrictFold(fs[..0]).held, fs[0]);
    StrictNext(fs, 0);
    StrictNext(fs, 1);
    StrictNext(fs, 2);
    assert StrictFold(fs[..3]).held.Held?;
    TiesInMeans(StrictFold(fs[..3]).held, fs[3]);
    StrictNext(fs, 3);
    StrictNext(fs, 4);
    assert StrictFold(fs[..5]) == State(2.0, Held(0.0, 2.0, 60, 60, true, false), []);
    TiesInMeans(StrictFold(fs[..5]).held, fs[5]);
    StrictNext(fs, 5);
    Whole(fs);
  }

  lemma TiesInMeans(h: Held, f: Feature)
    ensures TiesIn(h, f) <==> h.Held? && h.tied && (f.pitch == h.pitch || (f.line == h.line && h.newbar))
    ensures WrittenIn(h, f) <==> h.Held? && h.tied && (f.pitch == h.pitch || (f.line == h.line && h.newbar && !f.own))
  {
  }

  /** The c sharp is another note and its tie is in the same bar, but the bar line before
      still counts: it becomes part of the c. Written are two sounds. */
  lemma SharpTiedIn()
    ensures NoTnotes(SharpAfterTie(), 0) && Lengths(SharpAfterTie())
    ensures Meaning(SharpAfterTie()) == Playing(3.0, [Sound(0.0, 3.0, 60)])
    ensures StrictMeaning(SharpAfterTie()) == Playing(3.0, [Sound(0.0, 2.0, 60), Sound(2.0, 1.0, 61)])
    ensures !NoTieAmiss(SharpAfterTie())
  {
    SharpForDotie();
    SharpWritten();
    SharpTune();
    hide *;
    StrictExactly(SharpAfterTie());
  }

  lemma SharpTune()
    ensures NoTnotes(SharpAfterTie(), 0) && Lengths(SharpAfterTie())
  {
  }

  lemma LenOne()
    ensures forall pitch, own :: Len(OnC(pitch, own)) == 1.0
  {
  }

  /** Two notes on the line of c, tied over a bar line. */
  function TiedOver(p: int, bar: Kind, q: int, own: bool): seq<Feature> {
    [OnC(p, p != 60), Mark(TIE), Mark(bar), OnC(q, own)]
  }

  lemma TiedOverTaken(p: int, bar: Kind, q: int, own: bool)
    requires p != q && (bar == BAR || bar == DOUBLE)
    ensures Meaning(TiedOver(p, bar, q, own)) ==
            Playing(2.0, if bar == BAR then [Sound(0.0, 2.0, p)] else [Sound(0.0, 1.0, p), Sound(1.0, 1.0, q)])
  {
    var fs := TiedOver(p, bar, q, own);
    LenOne();
    StrictNone(fs);
    hide Len, Fold, StrictFold;
    FoldNext(fs, 0);
    FoldNext(fs, 1);
    FoldNext(fs, 2);
    assert Fold(fs[..3]) == State(1.0, Held(0.0, 1.0, p, 60, true, bar == BAR), []);
    FoldNext(fs, 3);
    Whole(fs);
  }

  lemma TiedOverWritten(p: int, bar: Kind, q: int, own: bool)
    requires p != q && (bar == BAR || bar == DOUBLE)
    ensures StrictMeaning(TiedOver(p, bar, q, own)) ==
            Playing(2.0, if own then [Sound(0.0, 1.0, p), Sound(1.0, 1.0, q)] else [Sound(0.0, 2.0, p)])
  {
    var fs := TiedOver(p, bar, q, own);
    LenOne();
    StrictNone(fs);
    hide Len, Fold, StrictFold;
    StrictNext(fs, 0);
    StrictNext(fs, 1);
    StrictNext(fs, 2);
    assert StrictFold(fs[..3]) == State(1.0, Held(0.0, 1.0, p, 60, true, true), []);
    StrictNext(fs, 3);
    Whole(fs);
  }

  lemma TiedOverTune(p: int, bar: Kind, q: int, own: bool)
    requires bar == BAR || bar == DOUBLE
    ensures NoTnotes(TiedOver(p, bar, q, own), 0) && Lengths(TiedOver(p, bar, q, own))
  {
  }

  /** ^C-||C: the c is natural only for `copymap`, which cancels the sharp at every bar line;
      it is written as part of the c sharp and played as a note of its own. */
  lemma TieLost()
    ensures var fs := TiedOver(61, DOUBLE, 60, false);
            && NoTnotes(fs, 0) && Lengths(fs) && !NoTieAmiss(fs)
            && Meaning(fs) == Playing(2.0, [Sound(0.0, 1.0, 61), Sound(1.0, 1.0, 60)])
            && StrictMeaning(fs) == Playing(2.0, [Sound(0.0, 2.0, 61)])
  {
    TiedOverTune(61, DOUBLE, 60, false);
    TiedOverTaken(61, DOUBLE, 60, false);
    TiedOverWritten(61, DOUBLE, 60, false);
    hide *;
    StrictExactly(TiedOver(61, DOUBLE, 60, false));
  }

  /** C-|^C: the sharp is written and the tie leads nowhere, but the c sharp is lost in the c. */
  lemma OwnSharpLost()
    ensures var fs := TiedOver(60, BAR, 61, true);
            && NoTnotes(fs, 0) && Lengths(fs) && !NoTieAmiss(fs)
            && Meaning(fs) == Playing(2.0, [Sound(0.0, 2.0, 60)])
            && StrictMeaning(fs) == Playing(2.0, [Sound(0.0, 1.0, 60), Sound(1.0, 1.0, 61)])
  {
    TiedOverTune(60, BAR, 61, true);
    TiedOverTaken(60, BAR, 61, true);
    TiedOverWritten(60, BAR, 61, true);
    hide *;
    StrictExactly(TiedOver(60, BAR, 61, true));
  }

  /** `tiefix`, for one voice with no chords: what is played afterwards, as to every sound's
      onset, length and pitch and to the time that it all takes, is what `dotie` takes the
      ties to mean; and that is what they mean as they are written exactly when no tie goes
      amiss. */
  method TieFix(a: array<Feature>) returns (mismatch: bool)
    requires NoTnotes(a[..], 0) && Lengths(a[..])
    modifies a
    ensures Play(a[..]) == old(Meaning(a[..])) && !mismatch
    ensures Play(a[..]) == old(StrictMeaning(a[..])) <==> old(NoTieAmiss(a[..]))
  {
    hide *;
    var j := 0;
    mismatch := false;
    SettledStart(a[..]);
    StrictExactly(a[..]);
    while j < a.Length
      invariant j <= a.Length && !mismatch && Meaning(a[..]) == old(Meaning(a[..]))
      invariant Settled(a[..], j) && NoTnotes(a[..], j) && Lengths(a[..])
    {
      NoTnoteAt(a[..], j);
      if a[j].kind == TIE {
        var found, wrong := DoTie(a, j);
        mismatch := mismatch || wrong;
      } else {
        SettledNext(a[..], j);
      }
      j := j + 1;
    }
    SettledWhole(a[..]);
  }
}
