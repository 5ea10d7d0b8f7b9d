/** Whole tracks: any sequence of notes and waits, as `writetrack` (genmidi.c) issues them. */
module TrackRun {
  import opened NoteQueue
  import opened Fractions
  import opened Delay
  import opened Playback

  /** What the events for guitar chords and drums change. */
  datatype Accompaniment = Accompaniment(
    gStarted: bool, gchords: bool, drumOn: bool, chordnum: int, basepitch: int, gchordnotes: seq<int>)

  /** `Play` starts a note and queues its end (`noteon` and `addtoQ`, or `save_note`);
      `Pause` lets time pass (`delay`); `Bar` is a bar line (`checkbar`); `Accompany` is a
      guitar chord, or the accompaniment being turned on or off. */
  datatype Op =
    | Play(num: nat, denom: Positive, sound: Sound)
    | Pause(length: Length)
    | Bar
    | Accompany(change: Accompaniment)

  function With(c: Settings, a: Accompaniment): Settings {
    c.(gStarted := a.gStarted, gchords := a.gchords, drumOn := a.drumOn, chordnum := a.chordnum,
       basepitch := a.basepitch, gchordnotes := a.gchordnotes)
  }

  datatype Point = Point(c: Settings, s: State, e: Carry)

  function Step(p: Point, op: Op): (p': Point)
    requires p.e.denom > 0
    ensures p'.e.denom > 0
  {
    match op
    case Play(num, denom, sound) => p.(s := SaveNote(p.c, p.s, num, denom, sound))
    case Pause(l) =>
      var (dt, e') := Delayed(p.c.divFactor, p.e, l.num, l.denom, 0);
      p.(s := TimeStep(p.c, p.s, dt, false), e := e')
    case Bar => p.(s := BarLine(p.c, p.s))
    case Accompany(a) => p.(c := With(p.c, a))
  }

  function Run(p: Point, ops: seq<Op>): (p': Point)
    requires p.e.denom > 0
    ensures p'.e.denom > 0
    decreases ops
  {
    if ops == [] || p.s.fatal then p else Run(Step(p, ops[0]), ops[1..])
  }

  /** The lengths waited for. */
  function Pauses(ops: seq<Op>): seq<Length> {
    if ops == [] then [] else (if ops[0].Pause? then [ops[0].length] else []) + Pauses(ops[1..])
  }

  /** The exact time waited for, in ticks. */
  ghost function WaitedTicks(c: Settings, ops: seq<Op>): real {
    c.divFactor as real * Total(Pauses(ops))
  }

  lemma NothingWaited(c: Settings)
    ensures WaitedTicks(c, []) == 0.0
  {
  }

  lemma OneMoreWaited(c: Settings, ops: seq<Op>)
    requires ops != []
    ensures WaitedTicks(c, ops) ==
            WaitedTicks(c, ops[1..]) +
            if ops[0].Pause? then c.divFactor as real * Value(ops[0].length.num, ops[0].length.denom) else 0.0
  {
    hide Value;
    if ops[0].Pause? {
      var l := ops[0].length;
      assert Pauses(ops)[1..] == Pauses(ops[1..]);
      Distribute(c.divFactor as real, Value(l.num, l.denom), Total(Pauses(ops[1..])));
    } else {
      assert Pauses(ops) == Pauses(ops[1..]);
    }
  }

  /** No note is shorter than a tick, neither those of the tune nor, with the chords and
      switches there are, those of the accompaniment. */
  ghost predicate Playable(c: Settings, ops: seq<Op>)
    decreases ops
  {
    && PlayableSteps(c)
    && (ops != [] ==>
          && (ops[0].Play? ==> Ticks(c, ops[0].num, ops[0].denom) >= 1)
          && Playable(if ops[0].Accompany? then With(c, ops[0].change) else c, ops[1..]))
  }

  lemma SaveNoteNow(c: Settings, s: State, num: nat, denom: Positive, x: Sound)
    ensures Now(SaveNote(c, s, num, denom, x)) == Now(s)
  {
  }

  lemma DelayedForward(divFactor: nat, e: Carry, a: nat, b: Positive)
    requires ProperFraction(e)
    ensures Delayed(divFactor, e, a, b, 0).0 >= 0
  {
    hide Value, LowestTerms, Reduced;
    DelayedExact(divFactor, e, a, b, 0);
    var (dt, e') := Delayed(divFactor, e, a, b, 0);
    FractionBelowOne(e);
    FractionBelowOne(e');
    ValueSign(divFactor * a, b);
  }

  lemma FractionBelowOne(e: Carry)
    requires ProperFraction(e)
    ensures 0.0 <= Value(e.num, e.denom) < 1.0
  {
    WholePart(e.num, e.denom);
    EuclidUnique(e.num, e.denom, 0, e.num);
  }

  lemma WidenLimit(c: Settings, s: State, limit: int, limit': int)
    requires OnTime(c, s, limit) && limit <= limit'
    ensures OnTime(c, s, limit')
  {
    hide Ledger, Offs, SumDeltas;
  }

  lemma PauseOnTime(c: Settings, s: State, e: Carry, l: Length)
    requires OnTime(c, s, Now(s)) && ProperFraction(e) && PlayableSteps(c) && c.totalnotedelay == 0
    ensures var (dt, e') := Delayed(c.divFactor, e, l.num, l.denom, 0);
            var s' := TimeStep(c, s, dt, false);
            OnTime(c, s', Now(s')) && ProperFraction(e') &&
            Now(s') as real + Value(e'.num, e'.denom) ==
            Now(s) as real + Value(e.num, e.denom) + c.divFactor as real * Value(l.num, l.denom)
  {
    hide OnTime, Value, LowestTerms, Delayed, TimeStep, Now, PlayableSteps;
    DelayedExact(c.divFactor, e, l.num, l.denom, 0);
    DelayedForward(c.divFactor, e, l.num, l.denom);
    var dt := Delayed(c.divFactor, e, l.num, l.denom, 0).0;
    WidenLimit(c, s, Now(s), Now(s) + dt);
    TimeStepOnTime(c, s, dt, false);
    ScaledValue(c.divFactor, l.num, l.denom);
  }

  /** A point of a track that is on time. */
  ghost predicate Good(p: Point) {
    && OnTime(p.c, p.s, Now(p.s)) && ProperFraction(p.e) && p.c.totalnotedelay == 0
  }

  /** Where the clock of the track stands, in ticks, with the part that is carried on. */
  ghost function Clock(p: Point): real
    requires p.e.denom > 0
  {
    Now(p.s) as real + Value(p.e.num, p.e.denom)
  }

  lemma WithOnTime(c: Settings, s: State, a: Accompaniment, limit: int)
    requires OnTime(c, s, limit)
    ensures OnTime(With(c, a), s, limit)
  {
    hide Ledger, Offs, SumDeltas;
  }

  /** What accompaniment events leave alone. */
  predicate SameTune(c: Settings, c': Settings) {
    c'.notedelay == c.notedelay && c'.divFactor == c.divFactor && c'.transposition == c.transposition
  }

  lemma StepOnTime(p: Point, ops: seq<Op>)
    requires Good(p) && ops != [] && Playable(p.c, ops)
    ensures var p' := Step(p, ops[0]);
            Good(p') && Playable(p'.c, ops[1..]) && SameTune(p.c, p'.c) &&
            Clock(p') == Clock(p) + WaitedTicks(p.c, ops) - WaitedTicks(p.c, ops[1..])
  {
    hide OnTime, Value, LowestTerms, Delayed, TimeStep, SaveNote, BarLine, Now, Ticks, PlayableSteps, WaitedTicks;
    OneMoreWaited(p.c, ops);
    match ops[0]
    case Play(num, denom, sound) =>
      SaveNoteKeepsOnTime(p.c, p.s, num, denom, sound, Now(p.s));
      SaveNoteNow(p.c, p.s, num, denom, sound);
    case Pause(l) =>
      PauseOnTime(p.c, p.s, p.e, l);
    case Bar =>
      BarLineOnTime(p.c, p.s, Now(p.s));
    case Accompany(a) =>
      WithOnTime(p.c, p.s, a, Now(p.s));
  }

  lemma WaitedDepends(c: Settings, c': Settings, ops: seq<Op>)
    requires c'.divFactor == c.divFactor
    ensures WaitedTicks(c', ops) == WaitedTicks(c, ops)
  {
  }

  /** Over a whole track, whatever the notes, bar lines and chords, and however long: the
      program does not stop, no delta is negative, each note-off is written at its own time,
      once, and not before or after, and the clock never drifts from the exact sum of the
      lengths. */
  lemma {:induction false} RunOnTime(p: Point, ops: seq<Op>)
    requires Good(p) && Playable(p.c, ops)
    ensures var p' := Run(p, ops);
            Good(p') && SameTune(p.c, p'.c) && Clock(p') == Clock(p) + WaitedTicks(p.c, ops)
    decreases ops
  {
    hide OnTime, Value, LowestTerms, Step, Now, Clock, WaitedTicks, Playable;
    OnTimeHead(p.c, p.s, Now(p.s));
    if ops == [] {
      NothingWaited(p.c);
    } else {
      StepOnTime(p, ops);
      RunOnTime(Step(p, ops[0]), ops[1..]);
      WaitedDepends(p.c, Step(p, ops[0]).c, ops[1..]);
    }
  }

  /** The start of a track, with the request for accompaniment that `starttrack` queues. */
  function Start(c: Settings): Point {
    Point(c, StartTrack(c), Carry(0, 1))
  }

  lemma StartGood(c: Settings)
    requires c.totalnotedelay == 0
    ensures Good(Start(c)) && Clock(Start(c)) == 0.0
  {
    hide OnTime, StartTrack;
    StartOnTime(c);
  }

  /** A track is, at its end, exactly as long in ticks as the whole part of the time written
      in it. */
  lemma TrackLength(c: Settings, ops: seq<Op>)
    requires Playable(c, ops) && c.totalnotedelay == 0
    ensures var p := Run(Start(c), ops);
            OnTime(p.c, p.s, Now(p.s)) && Now(p.s) == WaitedTicks(c, ops).Floor
  {
    hide OnTime, WaitedTicks, Playable, Value, LowestTerms, StartTrack;
    StartGood(c);
    RunOnTime(Start(c), ops);
    FractionBelowOne(Run(Start(c), ops).e);
  }

  /** A whole track, from `starttrack` through all its notes, bar lines and chords to
      `clearQ`: the program never stops on a fatal error, no event goes back in time, the
      queue ends empty, and every note-off ever booked, for the tune or the accompaniment,
      is written once. All are written at the time they were booked for if and only if at
      the end of the tune no request of the accompaniment waits in front of a note-off. */
  lemma WholeTrack(c: Settings, ops: seq<Op>)
    requires Playable(c, ops) && c.totalnotedelay == 0
    ensures var p := Run(Start(c), ops);
            var s := ClearQ(p.c, p.s);
            && !s.fatal && s.queue == [] && s.booked == p.s.booked
            && (forall k :: 0 <= k < |s.out| ==> s.out[k].delta >= 0)
            && (c.notedelay == 0 ==>
                  && |Offs(s.out)| == |s.booked|
                  && (multiset(Offs(s.out)) == multiset(s.booked) <==>
                      LeadTime(p.s.queue) == 0 || Pending(Schedule(p.s.queue, Now(p.s))) == []))
  {
    hide OnTime, StartTrack, ClearQ, Playable, LeadTime, Pending, Schedule, Offs, SumDeltas, LowestTerms, WaitedTicks;
    StartGood(c);
    RunOnTime(Start(c), ops);
    var p := Run(Start(c), ops);
    GoodMeans(p);
    ClearQForwards(p.c, p.s);
    ClearQWritesAll(p.c, p.s);
    if c.notedelay == 0 {
      ClearQBalance(p.c, p.s);
    }
  }

  lemma GoodMeans(p: Point)
    requires Good(p)
    ensures OnTime(p.c, p.s, Now(p.s)) && Forwards(p.s) && !p.s.fatal && p.c.totalnotedelay == 0
    ensures p.s.tracklen == SumDeltas(p.s.out)
  {
    hide Ledger, Offs, SumDeltas, ProperFraction;
  }

  /** The tune's own settings, with a gchord pattern in 4/4 of which nothing is played. */
  const PLAIN := Settings(480, 0, 0, 0, false, false, true, true, 0, 0, Voice(36, 1, 80), Voice(48, 2, 75),
                          [48, 52, 55], 2, 1, [], false, 0, 1, [])

  lemma WholeUnits(k: nat)
    ensures Delayed(480, Carry(0, 1), k, 1, 0) == (480 * k, Carry(0, 1))
  {
    var r := Reduced(0, 1);
    assert r == (0, 1);
  }

  lemma ChordThenPause(c: Settings, a: Accompaniment, l: Length)
    ensures Run(Start(c), [Accompany(a), Pause(l)]).s ==
            TimeStep(With(c, a), StartTrack(c), Delayed(c.divFactor, Carry(0, 1), l.num, l.denom, 0).0, false)
  {
    hide TimeStep, Delayed, Ticks, Insert;
    var ops := [Accompany(a), Pause(l)];
    assert ops[1..] == [Pause(l)] && [Pause(l)][1..] == [];
    var p := Step(Start(c), ops[0]);
    assert Run(Start(c), ops) == Run(p, [Pause(l)]);
    assert Run(p, [Pause(l)]) == Run(Step(p, Pause(l)), []);
  }

  lemma RequestAtStart(c: Settings)
    requires c.gchordson
    ensures var s := StartTrack(c); s.queue == [Entry(0, -1, 0)] && s.gPtr == 0 && !s.fatal
  {
  }

  /** A first step that starts a note and lasts no time. */
  lemma NoLengthFatal(c: Settings, s: State)
    requires s.queue == [Entry(0, -1, 0)] && s.gPtr == 0 && !s.fatal
    requires c.gchordson && c.gStarted && c.gchords && |c.gchordSeq| > 0 && c.gchordSeq[0] == Beat('f', 0)
    ensures TimeStep(c, s, 480, false).fatal
  {
    assert BeatNotes(c, 'f') != [];
    assert Ticks(c, StepLength(c.gNum, 0), c.gDenom) == 0;
    hide BeatNotes, Ticks, StepLength, Serve, StepsLeft;
    FatalExactly(c, s, false);
  }

  /** A chord of C. */
  const CMAJOR := Accompaniment(true, true, false, 0, 0, [48, 52, 55])

  /** With `%%MIDI gchord f0c2` the bass note of the first step lasts no time, and the track
      stops at the first note or rest after a chord. */
  lemma FatalTrack()
    ensures var c := PLAIN.(gStarted := false, gchordson := true, gchordSeq := [Beat('f', 0), Beat('c', 2)]);
            Run(Start(c), [Accompany(CMAJOR), Pause(Length(1, 1))]).s.fatal
  {
    var c := PLAIN.(gStarted := false, gchordson := true, gchordSeq := [Beat('f', 0), Beat('c', 2)]);
    var c' := With(c, CMAJOR);
    assert c.gchordson && c.divFactor == 480;
    assert c'.gchordson && c'.gStarted && c'.gchords && |c'.gchordSeq| > 0 && c'.gchordSeq[0] == Beat('f', 0);
    hide *;
    ChordThenPause(c, CMAJOR, Length(1, 1));
    WholeUnits(1);
    RequestAtStart(c);
    NoLengthFatal(c', StartTrack(c));
  }

  lemma PlayThenPause(c: Settings, num: nat, denom: Positive, x: Sound, l: Length)
    ensures Run(Start(c), [Play(num, denom, x), Pause(l)]).c == c
    ensures Run(Start(c), [Play(num, denom, x), Pause(l)]).s ==
            TimeStep(c, SaveNote(c, StartTrack(c), num, denom, x), Delayed(c.divFactor, Carry(0, 1), l.num, l.denom, 0).0, false)
  {
    hide TimeStep, Delayed, Ticks, Insert;
    var ops := [Play(num, denom, x), Pause(l)];
    assert ops[1..] == [Pause(l)] && [Pause(l)][1..] == [];
    var p := Step(Start(c), ops[0]);
    assert Run(Start(c), ops) == Run(p, [Pause(l)]);
    assert Run(p, [Pause(l)]) == Run(Step(p, Pause(l)), []);
  }

  /** Two empty pattern steps of two units each. */
  const SILENT := PLAIN.(gchordson := true, gchordSeq := [Beat('z', 1), Beat('z', 1)])

  lemma SilentSettings()
    ensures var c := SILENT;
            && c.gchordson && !c.drumson && c.divFactor == 480 && c.notedelay == 0 && c.totalnotedelay == 0
            && c.transposition == 0 && c.gNum == 2 && c.gDenom == 1 && |c.gchordSeq| == 2
            && c.gchordSeq[0] == Beat('z', 1) && BeatNotes(c, 'z') == []
  {
  }

  lemma InsertedFirst(a: Entry)
    ensures Insert([], a.delay, a.pitch, a.chan, 0) == [a]
  {
  }

  lemma InsertedAfter(a: Entry, q: seq<Entry>, wait: int, pitch: int, chan: int)
    requires a.delay <= wait
    ensures Insert([a] + q, wait, pitch, chan, 0) == [a] + Insert(q, wait - a.delay, pitch, chan, 0)
  {
    assert ([a] + q)[1..] == q;
  }

  lemma InsertedBefore(a: Entry, q: seq<Entry>, wait: int, pitch: int, chan: int)
    requires a.delay > wait
    ensures Insert([a] + q, wait, pitch, chan, 0) == [Entry(wait, pitch, chan), a.(delay := a.delay - wait)] + q
  {
    assert ([a] + q)[1..] == q;
  }

  /** [CE3], with the E booked to end at 1439. */
  const C1: Sound := Sound(60, 0, 80)
  const E3: Sound := Sound(64, 0, 80)
  const BOOKED: seq<Timed> := [Timed(479, 60, 0), Timed(1439, 64, 0)]

  function SilentState(q: seq<Entry>, out: seq<Midi>, tracklen: int, delta: int, g: nat): State {
    State(q, delta, tracklen, g, 0, [NoteOn(0, 60, 0, 80), NoteOn(0, 64, 0, 80)] + out, BOOKED, false)
  }

  lemma SilentFirst()
    ensures SaveNote(SILENT, StartTrack(SILENT), 1, 1, C1) ==
            State([Entry(0, -1, 0), Entry(479, 60, 0)], 0, 0, 0, 0, [NoteOn(0, 60, 0, 80)], [Timed(479, 60, 0)], false)
  {
    SilentSettings();
    hide SILENT, Insert;
    var r, c := Entry(0, -1, 0), Entry(479, 60, 0);
    InsertedFirst(r);
    InsertedAfter(r, [], 479, 60, 0);
    InsertedFirst(c);
    assert [r] + [] == [r] && [r] + [c] == [r, c];
  }

  lemma SilentSecond(s: State)
    requires s == State([Entry(0, -1, 0), Entry(479, 60, 0)], 0, 0, 0, 0, [NoteOn(0, 60, 0, 80)], [Timed(479, 60, 0)], false)
    ensures SaveNote(SILENT, s, 3, 1, E3) ==
            SilentState([Entry(0, -1, 0), Entry(479, 60, 0), Entry(960, 64, 0)], [], 0, 0, 0)
  {
    SilentSettings();
    hide SILENT, Insert;
    var r, c, e := Entry(0, -1, 0), Entry(479, 60, 0), Entry(960, 64, 0);
    InsertedAfter(r, [c], 1439, 64, 0);
    InsertedAfter(c, [], 1439, 64, 0);
    InsertedFirst(e);
    assert [r] + [c] == [r, c] && [c] + [] == [c] && [r] + ([c] + [e]) == [r, c, e];
    assert SaveNote(SILENT, s, 3, 1, E3).out == [NoteOn(0, 60, 0, 80), NoteOn(0, 64, 0, 80)] + [];
  }

  /** Both notes are started. */
  lemma SilentStart()
    ensures SaveNote(SILENT, SaveNote(SILENT, StartTrack(SILENT), 1, 1, C1), 3, 1, E3) ==
            SilentState([Entry(0, -1, 0), Entry(479, 60, 0), Entry(960, 64, 0)], [], 0, 0, 0)
  {
    SilentFirst();
    hide *;
    SilentSecond(SaveNote(SILENT, StartTrack(SILENT), 1, 1, C1));
  }

  /** The request is served: the next step is due in 960 ticks. */
  lemma SilentServe()
    ensures Serve(SILENT, SilentState([Entry(0, -1, 0), Entry(479, 60, 0), Entry(960, 64, 0)], [], 0, 0, 0), false) ==
            SilentState([Entry(479, 60, 0), Entry(481, -1, 1), Entry(479, 64, 0)], [], 0, 0, 1)
  {
    SilentSettings();
    hide SILENT, BeatNotes, Insert;
    var r, c, e := Entry(0, -1, 0), Entry(479, 60, 0), Entry(960, 64, 0);
    var s := SilentState([r, c, e], [], 0, 0, 0);
    InsertedAfter(r, [c, e], 960, -1, 1);
    InsertedAfter(c, [e], 960, -1, 1);
    InsertedBefore(e, [], 481, -1, 1);
    assert [r] + [c, e] == [r, c, e] && [c] + [e] == [c, e] && [e] + [] == [e];
    assert OnToHead(s) == s;
    assert SaveNotes(SILENT, s, 2, 1, []) == s;
    var s' := DoGchords(SILENT, s, 0);
    assert s'.queue == [r, c, Entry(481, -1, 1), Entry(479, 64, 0)];
    assert s'.queue[1..] == [c, Entry(481, -1, 1), Entry(479, 64, 0)];
  }

  /** The C ends. */
  lemma SilentOff()
    ensures Serve(SILENT, SilentState([Entry(479, 60, 0), Entry(481, -1, 1), Entry(479, 64, 0)], [], 0, 0, 1), false) ==
            SilentState([Entry(481, -1, 1), Entry(479, 64, 0)], [NoteOff(479, 60, 0)], 479, 0, 1)
  {
    SilentSettings();
    hide SILENT, ProgressSequence;
    var q := [Entry(479, 60, 0), Entry(481, -1, 1), Entry(479, 64, 0)];
    assert Advance(q, 479)[1..] == [Entry(481, -1, 1), Entry(479, 64, 0)];
    assert [NoteOn(0, 60, 0, 80), NoteOn(0, 64, 0, 80)] + [] + [NoteOff(479, 60, 0)] ==
           [NoteOn(0, 60, 0, 80), NoteOn(0, 64, 0, 80)] + [NoteOff(479, 60, 0)];
  }

  lemma SilentStep()
    ensures TimeStep(SILENT, SilentState([Entry(0, -1, 0), Entry(479, 60, 0), Entry(960, 64, 0)], [], 0, 0, 0), 480, false) ==
            SilentState([Entry(480, -1, 1), Entry(479, 64, 0)], [NoteOff(479, 60, 0)], 479, 1, 1)
  {
    SilentSettings();
    SilentServe();
    SilentOff();
    hide SILENT, Serve, StepsLeft;
    TimeStepRound(SILENT, SilentState([Entry(0, -1, 0), Entry(479, 60, 0), Entry(960, 64, 0)], [], 0, 0, 0), 480, false);
    TimeStepRound(SILENT, SilentState([Entry(479, 60, 0), Entry(481, -1, 1), Entry(479, 64, 0)], [], 0, 0, 1), 480, false);
    var s := SilentState([Entry(481, -1, 1), Entry(479, 64, 0)], [NoteOff(479, 60, 0)], 479, 0, 1);
    assert Advance(s.queue, 1) == [Entry(480, -1, 1), Entry(479, 64, 0)];
  }

  /** When a tune ends with a chord whose first note, one unit long, sets how long is waited,
      and whose other note lasts three, the end of that one is written 480 ticks early. */
  lemma EarlyAtEnd()
    ensures var p := Run(Start(SILENT), [Play(1, 1, C1), Play(3, 1, E3), Pause(Length(1, 1))]);
            && p.s.booked == [Timed(479, 60, 0), Timed(1439, 64, 0)]
            && Offs(ClearQ(p.c, p.s).out) == [Timed(479, 60, 0), Timed(959, 64, 0)]
  {
    TwoThenPause(SILENT, 1, 1, C1, 3, 1, E3, Length(1, 1));
    WholeUnits(1);
    SilentSettings();
    SilentStart();
    SilentStep();
    SilentEnd();
    hide *;
  }

  lemma TwoThenPause(c: Settings, num: nat, denom: Positive, x: Sound, num': nat, denom': Positive, y: Sound, l: Length)
    ensures Run(Start(c), [Play(num, denom, x), Play(num', denom', y), Pause(l)]).c == c
    ensures Run(Start(c), [Play(num, denom, x), Play(num', denom', y), Pause(l)]).s ==
            TimeStep(c, SaveNote(c, SaveNote(c, StartTrack(c), num, denom, x), num', denom', y),
                     Delayed(c.divFactor, Carry(0, 1), l.num, l.denom, 0).0, false)
  {
    hide TimeStep, Delayed, Ticks, Insert;
    var ops := [Play(num, denom, x), Play(num', denom', y), Pause(l)];
    assert ops[1..] == [Play(num', denom', y), Pause(l)] && ops[1..][1..] == [Pause(l)] && [Pause(l)][1..] == [];
    var p := Step(Start(c), ops[0]);
    var p' := Step(p, Play(num', denom', y));
    assert Run(Start(c), ops) == Run(p, ops[1..]) == Run(p', [Pause(l)]);
    assert Run(p', [Pause(l)]) == Run(Step(p', Pause(l)), []);
  }

  lemma SilentEnd()
    ensures var s := SilentState([Entry(480, -1, 1), Entry(479, 64, 0)], [NoteOff(479, 60, 0)], 479, 1, 1);
            s.booked == [Timed(479, 60, 0), Timed(1439, 64, 0)] &&
            Offs(ClearQ(SILENT, s).out) == [Timed(479, 60, 0), Timed(959, 64, 0)]
  {
    SilentSettings();
    SilentWritten();
    hide SILENT, ClearQ, Offs, SumDeltas;
    var s := SilentState([Entry(480, -1, 1), Entry(479, 64, 0)], [NoteOff(479, 60, 0)], 479, 1, 1);
    ClearQWritesAll(SILENT, s);
    assert s.queue[1..] == [Entry(479, 64, 0)] && [Entry(479, 64, 0)][1..] == [];
    assert Schedule(s.queue, 480) == [Timed(960, -1, 1), Timed(1439, 64, 0)];
    assert [Timed(960, -1, 1), Timed(1439, 64, 0)][1..] == [Timed(1439, 64, 0)];
    assert Pending(Schedule(s.queue, 480)) == [Timed(1439, 64, 0)];
    assert LeadTime(s.queue) == 480;
  }

  lemma SilentWritten()
    ensures var out := [NoteOn(0, 60, 0, 80), NoteOn(0, 64, 0, 80)] + [NoteOff(479, 60, 0)];
            Offs(out) == [Timed(479, 60, 0)] && SumDeltas(out) == 479
  {
    var on, both := [NoteOn(0, 60, 0, 80)], [NoteOn(0, 60, 0, 80), NoteOn(0, 64, 0, 80)];
    var out := both + [NoteOff(479, 60, 0)];
    assert out[..2] == both && both[..1] == on && on[..0] == [];
    assert SumDeltas(on) == 0 && Offs(on) == [];
    assert SumDeltas(both) == 0 && Offs(both) == [];
  }

  /** A note shorter than a tick is the only way to spoil this: its end is queued one tick
      in the past, and the next wait writes it with a delta of -1. */
  lemma NegativeDeltaExactly(c: Settings, s: State, num: nat, denom: Positive, x: Sound, t: nat)
    requires OnTime(c, s, Now(s)) && PlayableSteps(c) && c.totalnotedelay == 0
    requires |s.queue| < QSIZE && Transposed(c, x).pitch != -1
    ensures (exists k :: 0 <= k < |TimeStep(c, SaveNote(c, s, num, denom, x), t, false).out| &&
                         TimeStep(c, SaveNote(c, s, num, denom, x), t, false).out[k].delta < 0) <==>
            Ticks(c, num, denom) == 0
  {
    var s1 := SaveNote(c, s, num, denom, x);
    hide Ticks, PlayableSteps;
    if Ticks(c, num, denom) >= 1 {
      SaveNoteKeepsOnTime(c, s, num, denom, x, Now(s));
      WidenLimit(c, s1, Now(s), Now(s) + t);
      TimeStepOnTime(c, s1, t, false);
    } else {
      ShortNoteFirst(c, s, num, denom, x);
      var s2 := Serve(c, s1, false);
      TimeStepRound(c, s1, t, false);
      OutGrows(c, s2, t + 1, false);
      assert s2.out[|s2.out| - 1].delta == -1;
      var out := TimeStep(c, s1, t, false).out;
      assert out[|s2.out| - 1].delta == -1;
    }
  }

  /** A 1/512 of a unit. */
  lemma NegativeDelta()
    ensures var s := Run(Start(PLAIN), [Play(1, 512, Sound(60, 0, 80)), Pause(Length(1, 512))]).s;
            exists k :: 0 <= k < |s.out| && s.out[k].delta < 0
  {
    hide *;
    ProperZero();
    DelayedForward(480, Carry(0, 1), 1, 512);
    PlayThenPause(PLAIN, 1, 512, Sound(60, 0, 80), Length(1, 512));
    PlainSettings();
    PlainStart(PLAIN);
    NoSteps(PLAIN);
    PlainNote(PLAIN);
    NegativeDeltaExactly(PLAIN, StartTrack(PLAIN), 1, 512, Sound(60, 0, 80), Delayed(480, Carry(0, 1), 1, 512, 0).0);
  }

  lemma ProperZero()
    ensures ProperFraction(Carry(0, 1))
  {
  }

  lemma PlainStart(c: Settings)
    requires !c.gchordson
    ensures OnTime(c, StartTrack(c), Now(StartTrack(c))) && |StartTrack(c).queue| < QSIZE
  {
    hide OnTime, Now, Ticks, Insert;
    StartOnTime(c);
  }

  lemma NoSteps(c: Settings)
    requires c.gchordSeq == [] && c.drumSeq == []
    ensures PlayableSteps(c)
  {
    hide Ticks;
  }

  lemma PlainNote(c: Settings)
    requires c.divFactor == 480 && c.transposition == 0
    ensures Transposed(c, Sound(60, 0, 80)).pitch != -1 && Ticks(c, 1, 512) == 0
  {
  }

  lemma PlainSettings()
    ensures var c := PLAIN;
            && !c.gchordson && c.divFactor == 480 && c.totalnotedelay == 0 && c.transposition == 0
            && c.gchordSeq == [] && c.drumSeq == []
  {
  }

  lemma ShortNoteFirst(c: Settings, s: State, num: nat, denom: Positive, x: Sound)
    requires OnTime(c, s, Now(s)) && Ticks(c, num, denom) == 0
    requires |s.queue| < QSIZE && Transposed(c, x).pitch != -1
    ensures var s1 := SaveNote(c, s, num, denom, x);
            s1.queue != [] && s1.queue[0].delay == -1 && s1.queue[0].pitch != -1 &&
            s1.deltaTime == 0 && !s1.fatal
  {
    hide Ledger, Offs, SumDeltas;
  }

  lemma {:induction false} SaveNotesOutGrows(c: Settings, s: State, num: nat, denom: Positive, xs: seq<Sound>)
    ensures s.out <= SaveNotes(c, s, num, denom, xs).out && s.booked <= SaveNotes(c, s, num, denom, xs).booked
    decreases xs
  {
    hide Insert, Ticks;
    if xs != [] {
      SaveNotesOutGrows(c, SaveNote(c, s, num, denom, xs[0]), num, denom, xs[1..]);
    }
  }

  lemma ProgressOutGrows(c: Settings, s: State, i: int)
    ensures s.out <= ProgressSequence(c, s, i).out && s.booked <= ProgressSequence(c, s, i).booked
  {
    hide SaveNotes, BeatNotes, HitNotes, Insert, Ticks, StepLength;
    var s1 := if c.gchordson then DoGchords(c, s, i) else s;
    if s.gPtr < |c.gchordSeq| {
      var b := c.gchordSeq[s.gPtr];
      SaveNotesOutGrows(c, s, StepLength(c.gNum, b.len), c.gDenom, BeatNotes(c, b.action));
    }
    assert s.out <= s1.out && s.booked <= s1.booked;
    if s1.drumPtr < |c.drumSeq| {
      var h := c.drumSeq[s1.drumPtr];
      SaveNotesOutGrows(c, s1, StepLength(c.drumNum, h.len), c.drumDenom, HitNotes(c, h));
    }
  }

  /** What is written stays written. */
  lemma {:induction false} OutGrows(c: Settings, s: State, t: int, atEnd: bool)
    ensures s.out <= TimeStep(c, s, t, atEnd).out && s.booked <= TimeStep(c, s, t, atEnd).booked
    decreases StepsLeft(c, s), |s.queue|
  {
    hide StepsLeft, ProgressSequence;
    if s.queue != [] && s.queue[0].delay < t {
      var head := s.queue[0];
      var s1 := OnToHead(s);
      ProgressOutGrows(c, s1, head.chan);
      assert s.out <= Serve(c, s, atEnd).out && s.booked <= Serve(c, s, atEnd).booked;
      ServeProgress(c, s, atEnd);
      if !Serve(c, s, atEnd).fatal {
        OutGrows(c, Serve(c, s, atEnd), t - s.queue[0].delay, atEnd);
      }
    }
  }
}
