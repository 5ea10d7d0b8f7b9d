/** What is heard of a track: which notes the accompaniment starts, and when each note of the
    tune begins and ends (genmidi.c, queues.c). */
module Sounding {
  import opened NoteQueue
  import opened Fractions
  import opened Delay
  import opened Playback
  import opened TrackRun

  /** A length in ticks, exactly. */
  ghost function Exact(c: Settings, num: nat, denom: Positive): real {
    c.divFactor as real * Value(num, denom)
  }

  /** The wait of a queued item is the whole part of its length. */
  lemma TicksFloor(c: Settings, num: nat, denom: Positive)
    ensures Ticks(c, num, denom) == Exact(c, num, denom).Floor
  {
    hide Value;
    ScaledValue(c.divFactor, num, denom);
    WholePart(c.divFactor * num, denom);
  }

  /** The pitch as it is written: drums are not transposed. */
  function Pitched(c: Settings, x: Sound): int {
    if x.chan == 9 then x.pitch else x.pitch + c.transposition
  }

  /** A note that is started: its note-on is written now, and its end booked for the whole
      part of its length less one tick from now. */
  lemma SaveNoteSounds(c: Settings, s: State, num: nat, denom: Positive, x: Sound)
    ensures var s' := SaveNote(c, s, num, denom, x);
            && s'.out == s.out + [NoteOn(s.deltaTime, Pitched(c, x), x.chan, x.vel)]
            && s'.deltaTime == 0 && Now(s') == Now(s) && s'.gPtr == s.gPtr && s'.drumPtr == s.drumPtr
            && |s'.queue| == |s.queue| + (if |s.queue| < QSIZE then 1 else 0)
            && s'.booked == s.booked + if |s.queue| < QSIZE && Pitched(c, x) != -1
                                       then [Timed(Now(s) + Exact(c, num, denom).Floor - 1, Pitched(c, x), x.chan)]
                                       else []
  {
    TicksFloor(c, num, denom);
    hide Ticks, Exact;
  }

  /** Notes that start together: their note-ons, in order. */
  ghost predicate Starts(c: Settings, s: State, s': State, xs: seq<Sound>) {
    && s.out <= s'.out && |s'.out| == |s.out| + |xs|
    && forall k {:trigger xs[k]} :: 0 <= k < |xs| ==>
         s'.out[|s.out| + k] == NoteOn(if k == 0 then s.deltaTime else 0, Pitched(c, xs[k]), xs[k].chan, xs[k].vel)
  }

  /** Their ends, all at one time. */
  ghost predicate Ends(c: Settings, s: State, s': State, xs: seq<Sound>, at: int) {
    && s.booked <= s'.booked && |s'.booked| == |s.booked| + |xs|
    && forall k {:trigger xs[k]} :: 0 <= k < |xs| ==>
         s'.booked[|s.booked| + k] == Timed(at, Pitched(c, xs[k]), xs[k].chan)
  }

  /** There is a free cell for each, and the ends are not mistaken for requests. */
  ghost predicate Room(c: Settings, s: State, xs: seq<Sound>) {
    |s.queue| + |xs| < QSIZE && forall k :: 0 <= k < |xs| ==> Pitched(c, xs[k]) != -1
  }

  lemma {:induction false} SaveNotesSound(c: Settings, s: State, num: nat, denom: Positive, xs: seq<Sound>)
    ensures var s' := SaveNotes(c, s, num, denom, xs);
            && Starts(c, s, s', xs) && Now(s') == Now(s) && s'.gPtr == s.gPtr && s'.drumPtr == s.drumPtr
            && (Room(c, s, xs) ==> Ends(c, s, s', xs, Now(s) + Exact(c, num, denom).Floor - 1) && |s'.queue| == |s.queue| + |xs|)
    decreases xs
  {
    hide SaveNote, Exact, Pitched;
    if xs != [] {
      var s1 := SaveNote(c, s, num, denom, xs[0]);
      SaveNoteSounds(c, s, num, denom, xs[0]);
      SaveNotesSound(c, s1, num, denom, xs[1..]);
      assert forall k :: 0 < k < |xs| ==> xs[k] == xs[1..][k - 1];
    }
  }

  /** A step of a pattern: these notes start, all for the length of the step, and when that is
      over the step `next` is asked for. */
  ghost predicate StepPlayed(c: Settings, s: State, s': State, xs: seq<Sound>, length: int, next: nat) {
    && Starts(c, s, s', xs) && Now(s') == Now(s)
    && (Room(c, s, xs) ==>
          && Ends(c, s, s', xs, Now(s) + length - 1)
          && (c.notedelay == 0 ==> Timed(Now(s) + length, -1, next) in Schedule(s'.queue, Now(s'))))
  }

  lemma {:induction false} InsertedIn(s: seq<Timed>, new_: Timed)
    ensures new_ in StableInsert(s, new_, 0)
  {
    if s != [] && s[0].at <= new_.at {
      InsertedIn(s[1..], new_);
      assert new_ in StableInsert(s[1..], new_, 0);
    }
  }

  lemma StepSounds(c: Settings, s: State, num: nat, denom: Positive, xs: seq<Sound>, g: nat, d: nat, next: nat)
    ensures var s' := AddToQ(c, SaveNotes(c, s, num, denom, xs).(gPtr := g, drumPtr := d), num, denom, -1, next, 0);
            StepPlayed(c, s, s', xs, Exact(c, num, denom).Floor, next)
  {
    hide SaveNotes, Exact, Ticks, Insert, Schedule, StableInsert, Pitched;
    SaveNotesSound(c, s, num, denom, xs);
    TicksFloor(c, num, denom);
    var s1 := SaveNotes(c, s, num, denom, xs);
    var at := Now(s1) + Ticks(c, num, denom);
    if c.notedelay == 0 {
      InsertIsStable(s1.queue, Ticks(c, num, denom), -1, next, 0, Now(s1));
      InsertedIn(Schedule(s1.queue, Now(s1)), Timed(at, -1, next));
    }
  }

  /** Pattern step gPtr has the letter `action`, and chords are on. */
  ghost predicate AtLetter(c: Settings, s: State, action: char) {
    s.gPtr < |c.gchordSeq| && c.gchordSeq[s.gPtr].action == action && c.gStarted && c.gchords
  }

  ghost function GchordLength(c: Settings, s: State): int
    requires s.gPtr < |c.gchordSeq|
  {
    Exact(c, c.gNum * c.gchordSeq[s.gPtr].len, c.gDenom).Floor
  }

  function Fundamental(c: Settings): Sound {
    Sound(c.basepitch + c.fun.base, c.fun.chan, c.fun.vel)
  }

  /** The notes of the chord, in order. */
  ghost predicate IsChord(c: Settings, xs: seq<Sound>) {
    |xs| == |c.gchordnotes| && forall k :: 0 <= k < |xs| ==> xs[k] == Sound(c.gchordnotes[k], c.gchord.chan, c.gchord.vel)
  }

  lemma GchordSounds(c: Settings, s: State)
    requires s.gPtr < |c.gchordSeq|
    ensures StepPlayed(c, s, DoGchords(c, s, s.gPtr), BeatNotes(c, c.gchordSeq[s.gPtr].action), GchordLength(c, s), s.gPtr + 1)
    ensures DoGchords(c, s, s.gPtr).gPtr == s.gPtr + 1 && DoGchords(c, s, s.gPtr).drumPtr == s.drumPtr
  {
    var b := c.gchordSeq[s.gPtr];
    var xs, num := BeatNotes(c, b.action), StepLength(c.gNum, b.len);
    assert num == c.gNum * b.len;
    hide BeatNotes, StepLength, SaveNotes, StepPlayed, Exact, Insert, Ticks;
    SaveNotesSound(c, s, num, c.gDenom, xs);
    StepSounds(c, s, num, c.gDenom, xs, s.gPtr + 1, s.drumPtr, s.gPtr + 1);
  }

  /** 'f', and 'c' for a chord that is none: the fundamental. */
  lemma FundamentalStep(c: Settings, s: State)
    requires AtLetter(c, s, 'f') || (AtLetter(c, s, 'c') && c.chordnum == -1)
    ensures StepPlayed(c, s, DoGchords(c, s, s.gPtr), [Fundamental(c)], GchordLength(c, s), s.gPtr + 1)
  {
    GchordSounds(c, s);
    assert BeatNotes(c, c.gchordSeq[s.gPtr].action) == [Fundamental(c)];
  }

  /** 'c': the whole chord. */
  lemma ChordStep(c: Settings, s: State, xs: seq<Sound>)
    requires AtLetter(c, s, 'c') && c.chordnum != -1 && IsChord(c, xs)
    ensures StepPlayed(c, s, DoGchords(c, s, s.gPtr), xs, GchordLength(c, s), s.gPtr + 1)
  {
    GchordSounds(c, s);
    assert BeatNotes(c, 'c') == xs;
  }

  /** 'b': both. */
  lemma BothStep(c: Settings, s: State, xs: seq<Sound>)
    requires AtLetter(c, s, 'b') && IsChord(c, xs)
    ensures StepPlayed(c, s, DoGchords(c, s, s.gPtr), [Fundamental(c)] + xs, GchordLength(c, s), s.gPtr + 1)
  {
    GchordSounds(c, s);
    assert BeatNotes(c, 'b') == [Fundamental(c)] + xs;
  }

  /** 'g' to 'j': one note of the chord, if it has that many; 'G' to 'J': an octave lower. */
  lemma OneNoteStep(c: Settings, s: State, k: nat, low: bool)
    requires k < 4 && AtLetter(c, s, (if low then "GHIJ" else "ghij")[k])
    ensures StepPlayed(c, s, DoGchords(c, s, s.gPtr),
                       if k < |c.gchordnotes|
                       then [Sound(c.gchordnotes[k] - (if low then 12 else 0), c.gchord.chan, c.gchord.vel)] else [],
                       GchordLength(c, s), s.gPtr + 1)
  {
    GchordSounds(c, s);
    var action := (if low then "GHIJ" else "ghij")[k];
    assert BeatNotes(c, action) == ChordNote(c, k, if low then -12 else 0);
  }

  /** 'z', or no chord yet, or chords off: nothing. */
  lemma QuietStep(c: Settings, s: State)
    requires s.gPtr < |c.gchordSeq| && (c.gchordSeq[s.gPtr].action == 'z' || !c.gStarted || !c.gchords)
    ensures StepPlayed(c, s, DoGchords(c, s, s.gPtr), [], GchordLength(c, s), s.gPtr + 1)
  {
    GchordSounds(c, s);
  }

  /** A drum pattern hits where it has a 'd' and drums are on, on channel 10 and not transposed. */
  lemma DrumStep(c: Settings, s: State)
    requires s.drumPtr < |c.drumSeq|
    ensures var h := c.drumSeq[s.drumPtr];
            StepPlayed(c, s, DoDrums(c, s, s.drumPtr),
                       if h.action == 'd' && c.drumOn then [Sound(h.program, 9, h.velocity)] else [],
                       Exact(c, c.drumNum * h.len, c.drumDenom).Floor, s.drumPtr + 1)
    ensures DoDrums(c, s, s.drumPtr).drumPtr == s.drumPtr + 1 && DoDrums(c, s, s.drumPtr).gPtr == s.gPtr
  {
    var h := c.drumSeq[s.drumPtr];
    var xs, num := HitNotes(c, h), StepLength(c.drumNum, h.len);
    assert num == c.drumNum * h.len;
    hide StepLength, SaveNotes, StepPlayed, Exact, Insert, Ticks;
    SaveNotesSound(c, s, num, c.drumDenom, xs);
    StepSounds(c, s, num, c.drumDenom, xs, s.gPtr, s.drumPtr + 1, s.drumPtr + 1);
  }

  /** A request for another step than the next one does nothing. */
  lemma WrongStep(c: Settings, s: State, i: int)
    ensures i != s.gPtr ==> DoGchords(c, s, i) == s
    ensures i != s.drumPtr ==> DoDrums(c, s, i) == s
  {
  }

  /** At a bar line both patterns are asked for their first steps, at once. */
  lemma BarRestarts(c: Settings, s: State)
    requires c.notedelay == 0 && |s.queue| + 1 < QSIZE
    ensures var s' := BarLine(c, s);
            && s'.out == s.out && s'.booked == s.booked && Now(s') == Now(s)
            && (c.gchordson ==> s'.gPtr == 0) && (c.drumson ==> s'.drumPtr == 0)
            && (!c.gchordson ==> s'.gPtr == s.gPtr) && (!c.drumson ==> s'.drumPtr == s.drumPtr)
            && |s'.queue| == |s.queue| + (if c.gchordson then 1 else 0) + (if c.drumson then 1 else 0)
            && (c.gchordson || c.drumson ==> Timed(Now(s), -1, 0) in Schedule(s'.queue, Now(s)))
  {
    hide Insert, Schedule, StableInsert;
    TicksOfNothing(c, c.gDenom);
    TicksOfNothing(c, c.drumDenom);
    hide Ticks;
    var s1 := if c.gchordson then AddToQ(c, s.(gPtr := 0), 0, c.gDenom, -1, 0, 0) else s;
    if c.gchordson {
      InsertIsStable(s.queue, 0, -1, 0, 0, Now(s));
      InsertedIn(Schedule(s.queue, Now(s)), Timed(Now(s), -1, 0));
    }
    if c.drumson {
      InsertIsStable(s1.queue, 0, -1, 0, 0, Now(s));
      InsertedIn(Schedule(s1.queue, Now(s)), Timed(Now(s), -1, 0));
    }
  }

  lemma TicksOfNothing(c: Settings, denom: Positive)
    ensures Ticks(c, 0, denom) == 0
  {
  }

  /** A track begins with a request for the first step of the gchord pattern and nothing else. */
  lemma StartAsks(c: Settings)
    ensures StartTrack(c) == State(if c.gchordson then [Entry(0, -1, 0)] else [], 0, 0, 0, 0, [], [], false)
  {
    TicksOfNothing(c, c.gDenom);
  }

  /** A request is served by both patterns, as far as they are on. */
  lemma RequestServed(c: Settings, s: State, i: int)
    ensures c.gchordson && c.drumson ==> ProgressSequence(c, s, i) == DoDrums(c, DoGchords(c, s, i), i)
    ensures c.gchordson && !c.drumson ==> ProgressSequence(c, s, i) == DoGchords(c, s, i)
    ensures !c.gchordson && c.drumson ==> ProgressSequence(c, s, i) == DoDrums(c, s, i)
    ensures !c.gchordson && !c.drumson ==> ProgressSequence(c, s, i) == s
  {
    hide DoGchords, DoDrums;
  }

  /** At the end of a track `timestep` serves the items that are due, and leaves the others
      where they are in time. */
  lemma {:induction false} AtEndServes(c: Settings, s: State, t: nat) returns (k: nat)
    requires s.tracklen == SumDeltas(s.out) && !s.fatal && c.totalnotedelay == 0
    ensures var s' := TimeStep(c, s, t, true);
            && k <= |s.queue| && Now(s') == Now(s) + t && Schedule(s'.queue, Now(s')) == Schedule(s.queue, Now(s))[k..]
            && |s'.queue| == |s.queue| - k && !s'.fatal && s'.tracklen == SumDeltas(s'.out)
    ensures forall i :: 0 <= i < k ==> Schedule(s.queue, Now(s))[i].at < Now(s) + t
    decreases |s.queue|
  {
    hide SumDeltas, Offs, Serve, StepsLeft, Schedule;
    AtEndKeepsOffs(c, s, t);
    if s.queue == [] || s.queue[0].delay >= t {
      k := 0;
      AdvanceSchedule(s.queue, t, Now(s));
    } else {
      ServeAtEnd(c, s);
      TimeStepRound(c, s, t, true);
      var s1 := Serve(c, s, true);
      var k1 := AtEndServes(c, s1, t - s.queue[0].delay);
      k := k1 + 1;
      FirstDue(s.queue, Now(s));
      assert Schedule(s.queue, Now(s))[1..][k1..] == Schedule(s.queue, Now(s))[k..];
    }
  }

  lemma FirstDue(q: seq<Entry>, now: int)
    requires q != []
    ensures Schedule(q, now)[0].at == now + q[0].delay && Schedule(q, now)[1..] == Schedule(q[1..], now + q[0].delay)
  {
  }

  /** `clearQ` goes on to one tick after the last item is due. */
  lemma {:induction false} FlushEnds(c: Settings, s: State)
    requires s.tracklen == SumDeltas(s.out) && !s.fatal && c.totalnotedelay == 0
    requires s.queue != [] && forall k :: 0 <= k < |s.queue| ==> s.queue[k].delay >= 0
    ensures Now(Flush(c, s)) == Schedule(s.queue, Now(s))[|s.queue| - 1].at + 1
    decreases |s.queue|
  {
    hide SumDeltas, TimeStep, Schedule;
    var q, t: nat := s.queue, s.queue[0].delay + 1;
    var k := AtEndServes(c, s, t);
    AtEndForwardsOnly(c, s, t);
    AtEndKeepsOffs(c, s, t);
    FirstDue(q, Now(s));
    ScheduleSorted(q, Now(s));
    var s' := TimeStep(c, s, t, true);
    if k == |q| {
      assert s'.queue == [];
    } else {
      FlushEnds(c, s');
      assert Schedule(q, Now(s))[k..][|q| - k - 1] == Schedule(q, Now(s))[|q| - 1];
    }
  }

  lemma {:induction false} AtEndForwardsOnly(c: Settings, s: State, t: nat)
    requires (forall k :: 0 <= k < |s.queue| ==> s.queue[k].delay >= 0) && c.totalnotedelay == 0
    ensures forall k :: 0 <= k < |TimeStep(c, s, t, true).queue| ==> TimeStep(c, s, t, true).queue[k].delay >= 0
    decreases |s.queue|
  {
    hide StepsLeft;
    if s.queue != [] && s.queue[0].delay < t && !Serve(c, s, true).fatal {
      TimeStepRound(c, s, t, true);
      AtEndForwardsOnly(c, Serve(c, s, true), t - s.queue[0].delay);
    }
  }

  /** With nothing pending, `clearQ` waits 25 ticks. */
  lemma NothingToClear(c: Settings, s: State)
    requires s.queue == [] && c.totalnotedelay == 0
    ensures ClearQ(c, s) == s.(deltaTime := s.deltaTime + 25)
  {
    EmptyTimeStep(c, s);
  }

  /** A note-on with its absolute time. */
  datatype Struck = Struck(at: int, pitch: int, chan: int, vel: int)

  function Strikes(out: seq<Midi>): seq<Struck> {
    if out == [] then []
    else
      var e, before := out[|out| - 1], Strikes(out[..|out| - 1]);
      if e.NoteOn? then before + [Struck(SumDeltas(out), e.pitch, e.chan, e.vel)] else before
  }

  lemma {:induction false} StrikesGrow(a: seq<Midi>, b: seq<Midi>, x: Struck)
    requires a <= b && x in Strikes(a)
    ensures x in Strikes(b)
    decreases |b|
  {
    if a != b {
      assert a <= b[..|b| - 1];
      StrikesGrow(a, b[..|b| - 1], x);
    }
  }

  lemma {:induction false} RunSplit(p: Point, ops: seq<Op>, k: nat)
    requires p.e.denom > 0 && k <= |ops|
    ensures Run(p, ops) == Run(Run(p, ops[..k]), ops[k..])
    decreases ops
  {
    hide Step;
    if k > 0 && !p.s.fatal {
      assert ops[..k][1..] == ops[1..][..k - 1] && ops[1..][k - 1..] == ops[k..];
      RunSplit(Step(p, ops[0]), ops[1..], k - 1);
    }
  }

  lemma {:induction false} PlayablePrefix(c: Settings, ops: seq<Op>, k: nat)
    requires Playable(c, ops) && k <= |ops|
    ensures Playable(c, ops[..k])
    decreases ops
  {
    hide PlayableSteps;
    if k > 0 {
      assert ops[..k][1..] == ops[1..][..k - 1];
      PlayablePrefix(if ops[0].Accompany? then With(c, ops[0].change) else c, ops[1..], k - 1);
    }
  }

  lemma {:induction false} RunGrows(p: Point, ops: seq<Op>)
    requires p.e.denom > 0
    ensures p.s.out <= Run(p, ops).s.out && p.s.booked <= Run(p, ops).s.booked
    decreases ops
  {
    hide Step;
    if ops != [] && !p.s.fatal {
      StepGrows(p, ops[0]);
      RunGrows(Step(p, ops[0]), ops[1..]);
    }
  }

  lemma StepGrows(p: Point, op: Op)
    requires p.e.denom > 0
    ensures p.s.out <= Step(p, op).s.out && p.s.booked <= Step(p, op).s.booked
  {
    hide TimeStep, Delayed, Ticks, Insert;
    if op.Pause? {
      OutGrows(p.c, p.s, Delayed(p.c.divFactor, p.e, op.length.num, op.length.denom, 0).0, false);
    }
  }

  /** When note k of the tune begins: the whole part of the time written before it. */
  ghost function Begins(c: Settings, ops: seq<Op>, k: nat): int
    requires k <= |ops|
  {
    WaitedTicks(c, ops[..k]).Floor
  }

  /** Each note of the tune is struck at the whole tick of the exact time written before it,
      and its end is booked for the whole part of its exact length later, less one tick, if
      then a cell is free. */
  lemma NotePlayed(c: Settings, ops: seq<Op>, k: nat)
    requires Playable(c, ops) && c.totalnotedelay == 0 && k < |ops| && ops[k].Play?
    ensures var s, x := Run(Start(c), ops).s, ops[k].sound;
            Struck(Begins(c, ops, k), Pitched(c, x), x.chan, x.vel) in Strikes(s.out)
    ensures var s, x := Run(Start(c), ops).s, ops[k].sound;
            |Run(Start(c), ops[..k]).s.queue| < QSIZE && Pitched(c, x) != -1 ==>
              Timed(Begins(c, ops, k) + Exact(c, ops[k].num, ops[k].denom).Floor - 1, Pitched(c, x), x.chan) in s.booked
  {
    hide OnTime, WaitedTicks, Playable, StartTrack, SaveNote, Strikes, Exact, Run, LowestTerms, Value;
    PlayablePrefix(c, ops, k);
    TrackLength(c, ops[..k]);
    StartGood(c);
    RunOnTime(Start(c), ops[..k]);
    var p := Run(Start(c), ops[..k]);
    RunSplit(Start(c), ops, k);
    GoodMeans(p);
    AtNote(p, ops[k..]);
    var x := ops[k].sound;
    SaveNoteSounds(p.c, p.s, ops[k].num, ops[k].denom, x);
    SameTuneSounds(c, p.c, ops[k].num, ops[k].denom, x);
    var p' := Step(p, ops[k]);
    RunGrows(p', ops[k..][1..]);
    LastStruck(p.s.out, NoteOn(p.s.deltaTime, Pitched(c, x), x.chan, x.vel));
    StrikesGrow(p'.s.out, Run(Start(c), ops).s.out, Struck(Now(p.s), Pitched(c, x), x.chan, x.vel));
    var booked := p'.s.booked;
    assert booked != [] ==> booked[|booked| - 1] == Run(Start(c), ops).s.booked[|booked| - 1];
  }

  lemma AtNote(p: Point, ops: seq<Op>)
    requires p.e.denom > 0 && ops != [] && !p.s.fatal
    ensures Run(p, ops) == Run(Step(p, ops[0]), ops[1..])
  {
  }

  lemma SameTuneSounds(c: Settings, c': Settings, num: nat, denom: Positive, x: Sound)
    requires SameTune(c, c')
    ensures Pitched(c', x) == Pitched(c, x) && Exact(c', num, denom) == Exact(c, num, denom)
  {
  }

  lemma LastStruck(out: seq<Midi>, e: Midi)
    requires e.NoteOn?
    ensures Struck(SumDeltas(out) + e.delta, e.pitch, e.chan, e.vel) in Strikes(out + [e])
  {
    assert (out + [e])[..|out|] == out;
  }

  lemma {:induction false} FlushGrows(c: Settings, s: State)
    ensures s.out <= Flush(c, s).out
    decreases |s.queue|
  {
    hide TimeStep;
    if s.queue != [] {
      OutGrows(c, s, s.queue[0].delay + 1, true);
      AtEndShortens(c, s, s.queue[0].delay + 1);
      FlushGrows(c, TimeStep(c, s, s.queue[0].delay + 1, true));
    }
  }

  lemma ClearQGrows(c: Settings, s: State)
    ensures s.out <= ClearQ(c, s).out
  {
    hide TimeStep, Flush;
    var s1 := s.(queue := AfterRequests(s.queue));
    OutGrows(c, s1, LeadTime(s.queue), true);
    var s2 := if s1.queue == [] then s1 else TimeStep(c, s1, LeadTime(s.queue), true);
    FlushGrows(c, s2);
    OutGrows(c, Flush(c, s2), 25, false);
  }

  /** So in the finished track each note of the tune has its note-on at its time, and its
      note-off when its exact length is over, less one tick, unless `clearQ` had to throw time
      away. */
  lemma NoteHeard(c: Settings, ops: seq<Op>, k: nat)
    requires Playable(c, ops) && c.totalnotedelay == 0 && c.notedelay == 0 && k < |ops| && ops[k].Play?
    requires |Run(Start(c), ops[..k]).s.queue| < QSIZE && Pitched(c, ops[k].sound) != -1
    ensures var p, x := Run(Start(c), ops), ops[k].sound;
            var s := ClearQ(p.c, p.s);
            && Struck(Begins(c, ops, k), Pitched(c, x), x.chan, x.vel) in Strikes(s.out)
            && (LeadTime(p.s.queue) == 0 ==>
                  Timed(Begins(c, ops, k) + Exact(c, ops[k].num, ops[k].denom).Floor - 1, Pitched(c, x), x.chan) in Offs(s.out))
  {
    hide Run, ClearQ, Strikes, Offs, StartTrack, Playable, LeadTime, Pending, Schedule, Exact, Begins, Pitched;
    var p, x := Run(Start(c), ops), ops[k].sound;
    var s := ClearQ(p.c, p.s);
    NotePlayed(c, ops, k);
    WholeTrack(c, ops);
    ClearQGrows(p.c, p.s);
    StrikesGrow(p.s.out, s.out, Struck(Begins(c, ops, k), Pitched(c, x), x.chan, x.vel));
    if LeadTime(p.s.queue) == 0 {
      var off := Timed(Begins(c, ops, k) + Exact(c, ops[k].num, ops[k].denom).Floor - 1, Pitched(c, x), x.chan);
      assert off in multiset(s.booked);
      assert off in multiset(Offs(s.out));
    }
  }
}
