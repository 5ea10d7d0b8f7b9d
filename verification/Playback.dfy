/** Time in a MIDI track being written: the queue of note-offs served by `timestep`
    (queues.c), and the accompaniment patterns that it moves on as it goes
    (`dogchords`, `dodrums`, `progress_sequence` in genmidi.c). */
module Playback {
  import opened NoteQueue

  /** A channel event as written, with the time since the event before it. */
  datatype Midi =
    | NoteOn(delta: int, pitch: int, chan: int, vel: int)
    | NoteOff(delta: int, pitch: int, chan: int)

  datatype Voice = Voice(base: int, chan: int, vel: int)

  /** One step of the gchord pattern: gchord_seq and gchord_len. */
  datatype Beat = Beat(action: char, len: nat)

  /** One step of the drum pattern: drum_seq, drum_len, drum_program, drum_velocity. */
  datatype Hit = Hit(action: char, len: nat, program: int, velocity: int)

  type Positive = x: int | x > 0 witness 1

  /** The globals that `timestep` and the routines it calls only read. */
  datatype Settings = Settings(
    divFactor: nat, notedelay: nat, totalnotedelay: int, transposition: int,
    gchordson: bool, drumson: bool,
    gStarted: bool, gchords: bool, chordnum: int, basepitch: int, fun: Voice, gchord: Voice,
    gchordnotes: seq<int>, gNum: nat, gDenom: Positive, gchordSeq: seq<Beat>,
    drumOn: bool, drumNum: nat, drumDenom: Positive, drumSeq: seq<Hit>)

  /** The globals that they change. `booked` lists every note-off ever queued, with the
      time it was queued for; `fatal` is set where the program would exit. */
  datatype State = State(
    queue: seq<Entry>, deltaTime: int, tracklen: int, gPtr: nat, drumPtr: nat,
    out: seq<Midi>, booked: seq<Timed>, fatal: bool)

  /** Ticks since the start of the track. */
  function Now(s: State): int {
    s.tracklen + s.deltaTime
  }

  /** A length in ticks: div_factor * num / denom. */
  function Ticks(c: Settings, num: nat, denom: Positive): nat {
    c.divFactor * num / denom
  }

  /** `addtoQ`, once the wait is known: with no free cell the item is lost. */
  function Enqueue(c: Settings, s: State, wait: int, pitch: int, chan: int): State {
    if |s.queue| >= QSIZE then s
    else s.(queue := Insert(s.queue, wait, pitch, chan, c.notedelay),
            booked := if pitch == -1 then s.booked else s.booked + [Timed(Now(s) + wait, pitch, chan)])
  }

  /** `addtoQ` */
  function AddToQ(c: Settings, s: State, num: nat, denom: Positive, pitch: int, chan: int, d: int): State {
    Enqueue(c, s, Ticks(c, num, denom) + d, pitch, chan)
  }

  function Write(s: State, e: Midi): State {
    s.(out := s.out + [e], tracklen := s.tracklen + e.delta, deltaTime := 0)
  }

  /** A note for `save_note` to start. */
  datatype Sound = Sound(pitch: int, chan: int, vel: int)

  function Transposed(c: Settings, x: Sound): Sound {
    if x.chan == 9 then x else x.(pitch := x.pitch + c.transposition)
  }

  /** `save_note` */
  function SaveNote(c: Settings, s: State, num: nat, denom: Positive, x: Sound): State {
    var y := Transposed(c, x);
    AddToQ(c, Write(s, NoteOn(s.deltaTime, y.pitch, y.chan, y.vel)), num, denom, y.pitch, y.chan, -1)
  }

  function SaveNotes(c: Settings, s: State, num: nat, denom: Positive, xs: seq<Sound>): State
    decreases xs
  {
    if xs == [] then s else SaveNotes(c, SaveNote(c, s, num, denom, xs[0]), num, denom, xs[1..])
  }

  function ChordNote(c: Settings, k: nat, shift: int): seq<Sound> {
    if k < |c.gchordnotes| then [Sound(c.gchordnotes[k] + shift, c.gchord.chan, c.gchord.vel)] else []
  }

  function Chord(c: Settings): seq<Sound> {
    seq(|c.gchordnotes|, k requires 0 <= k < |c.gchordnotes| =>
      Sound(c.gchordnotes[k], c.gchord.chan, c.gchord.vel))
  }

  /** The numerator of the length of a pattern step of `len` units. */
  function StepLength(unit: nat, len: nat): nat {
    unit * len
  }

  /** The notes that a step of the gchord pattern starts. */
  function BeatNotes(c: Settings, action: char): seq<Sound> {
    var root := [Sound(c.basepitch + c.fun.base, c.fun.chan, c.fun.vel)];
    if !(c.gStarted && c.gchords) then []
    else match (if c.chordnum == -1 && action == 'c' then 'f' else action)
         case 'f' => root
         case 'b' => root + Chord(c)
         case 'c' => Chord(c)
         case 'g' => ChordNote(c, 0, 0)
         case 'h' => ChordNote(c, 1, 0)
         case 'i' => ChordNote(c, 2, 0)
         case 'j' => ChordNote(c, 3, 0)
         case 'G' => ChordNote(c, 0, -12)
         case 'H' => ChordNote(c, 1, -12)
         case 'I' => ChordNote(c, 2, -12)
         case 'J' => ChordNote(c, 3, -12)
         case _ => []
  }

  function HitNotes(c: Settings, h: Hit): seq<Sound> {
    if h.action == 'd' && c.drumOn then [Sound(h.program, 9, h.velocity)] else []
  }

  /** `dogchords` */
  function DoGchords(c: Settings, s: State, i: int): State {
    if i == s.gPtr && s.gPtr < |c.gchordSeq| then
      var b := c.gchordSeq[s.gPtr];
      var s1 := SaveNotes(c, s, StepLength(c.gNum, b.len), c.gDenom, BeatNotes(c, b.action));
      AddToQ(c, s1.(gPtr := s.gPtr + 1), StepLength(c.gNum, b.len), c.gDenom, -1, s.gPtr + 1, 0)
    else s
  }

  /** `dodrums` */
  function DoDrums(c: Settings, s: State, i: int): State {
    if i == s.drumPtr && s.drumPtr < |c.drumSeq| then
      var h := c.drumSeq[s.drumPtr];
      var s1 := SaveNotes(c, s, StepLength(c.drumNum, h.len), c.drumDenom, HitNotes(c, h));
      AddToQ(c, s1.(drumPtr := s.drumPtr + 1), StepLength(c.drumNum, h.len), c.drumDenom, -1, s.drumPtr + 1, 0)
    else s
  }

  /** `progress_sequence` */
  function ProgressSequence(c: Settings, s: State, i: int): State {
    var s1 := if c.gchordson then DoGchords(c, s, i) else s;
    if c.drumson then DoDrums(c, s1, i) else s1
  }

  function Later(s: State, t: int): State {
    s.(deltaTime := s.deltaTime + t, queue := Advance(s.queue, t))
  }

  function OnToHead(s: State): State
    requires s.queue != []
  {
    Later(s, s.queue[0].delay)
  }

  /** One round of the loop in `timestep`: time moves on to the first item and it is
      served. With `removefromQ` the program exits unless that item is still first. */
  function Serve(c: Settings, s: State, atEnd: bool): State
    requires s.queue != []
  {
    var head := s.queue[0];
    var s1 := OnToHead(s);
    var s2 :=
      if head.pitch != -1 then Write(s1, NoteOff(s1.deltaTime, head.pitch, head.chan))
      else if atEnd then s1
      else ProgressSequence(c, s1, head.chan);
    if s2.queue == [] || s2.queue[0].delay != 0 then s2.(fatal := true)
    else s2.(queue := s2.queue[1..])
  }

  /** Pattern steps that have not been played yet. */
  function StepsLeft(c: Settings, s: State): nat {
    (if s.gPtr < |c.gchordSeq| then |c.gchordSeq| - s.gPtr else 0) +
    (if s.drumPtr < |c.drumSeq| then |c.drumSeq| - s.drumPtr else 0)
  }

  /** `timestep`. Each round either plays a pattern step or shortens the queue. */
  function TimeStep(c: Settings, s: State, t: int, atEnd: bool): State
    decreases StepsLeft(c, s), |s.queue|
  {
    if s.queue == [] || s.queue[0].delay >= t then
      s.(queue := Advance(s.queue, t), deltaTime := s.deltaTime + t - c.totalnotedelay)
    else
      var s1 := Serve(c, s, atEnd);
      ServeProgress(c, s, atEnd);
      if s1.fatal then s1 else TimeStep(c, s1, t - s.queue[0].delay, atEnd)
  }

  lemma {:induction false} SaveNotesKeeps(c: Settings, s: State, num: nat, denom: Positive, xs: seq<Sound>)
    ensures var s' := SaveNotes(c, s, num, denom, xs);
            Now(s') == Now(s) && s'.gPtr == s.gPtr && s'.drumPtr == s.drumPtr &&
            s'.fatal == s.fatal && |s'.queue| >= |s.queue|
    decreases xs
  {
    if xs != [] {
      SaveNotesKeeps(c, SaveNote(c, s, num, denom, xs[0]), num, denom, xs[1..]);
    }
  }

  lemma DoGchordsKeeps(c: Settings, s: State, i: int)
    ensures var s' := DoGchords(c, s, i);
            Now(s') == Now(s) && s'.fatal == s.fatal && |s'.queue| >= |s.queue| &&
            (s' == s || StepsLeft(c, s') < StepsLeft(c, s))
  {
    if s.gPtr < |c.gchordSeq| {
      var b := c.gchordSeq[s.gPtr];
      SaveNotesKeeps(c, s, StepLength(c.gNum, b.len), c.gDenom, BeatNotes(c, b.action));
    }
  }

  lemma DoDrumsKeeps(c: Settings, s: State, i: int)
    ensures var s' := DoDrums(c, s, i);
            Now(s') == Now(s) && s'.fatal == s.fatal && |s'.queue| >= |s.queue| &&
            (s' == s || StepsLeft(c, s') < StepsLeft(c, s))
  {
    if s.drumPtr < |c.drumSeq| {
      var h := c.drumSeq[s.drumPtr];
      SaveNotesKeeps(c, s, StepLength(c.drumNum, h.len), c.drumDenom, HitNotes(c, h));
    }
  }

  /** The accompaniment takes no time, and either plays a pattern step or does nothing. */
  lemma ProgressKeeps(c: Settings, s: State, i: int)
    ensures var s' := ProgressSequence(c, s, i);
            Now(s') == Now(s) && s'.fatal == s.fatal && |s'.queue| >= |s.queue| &&
            (s' == s || StepsLeft(c, s') < StepsLeft(c, s))
  {
    hide DoGchords, DoDrums, StepsLeft, Now;
    var s1 := if c.gchordson then DoGchords(c, s, i) else s;
    DoGchordsKeeps(c, s, i);
    DoDrumsKeeps(c, s1, i);
  }

  lemma ServeProgress(c: Settings, s: State, atEnd: bool)
    requires s.queue != []
    ensures var s1 := Serve(c, s, atEnd);
            Now(s1) == Now(s) + s.queue[0].delay &&
            (s1.fatal || StepsLeft(c, s1) < StepsLeft(c, s) ||
             (StepsLeft(c, s1) == StepsLeft(c, s) && |s1.queue| < |s.queue|))
  {
    hide ProgressSequence;
    var head := s.queue[0];
    var s1 := OnToHead(s);
    ProgressKeeps(c, s1, head.chan);
  }

  /** `timestep` conserves time: the track grows by exactly t, less the time that a chord
      being built has already used, whatever the accompaniment does on the way. */
  lemma {:induction false} TimeStepConservesTime(c: Settings, s: State, t: int, atEnd: bool)
    ensures var s' := TimeStep(c, s, t, atEnd);
            !s'.fatal ==> Now(s') == Now(s) + t - c.totalnotedelay
    decreases StepsLeft(c, s), |s.queue|
  {
    if s.queue != [] && s.queue[0].delay < t {
      ServeProgress(c, s, atEnd);
      hide Serve, StepsLeft;
      if !Serve(c, s, atEnd).fatal {
        TimeStepConservesTime(c, Serve(c, s, atEnd), t - s.queue[0].delay, atEnd);
      }
    }
  }

  function SumDeltas(out: seq<Midi>): int {
    if out == [] then 0 else SumDeltas(out[..|out| - 1]) + out[|out| - 1].delta
  }

  /** The note-offs written so far, each with its absolute time. */
  function Offs(out: seq<Midi>): seq<Timed> {
    if out == [] then []
    else
      var e, before := out[|out| - 1], Offs(out[..|out| - 1]);
      if e.NoteOff? then before + [Timed(SumDeltas(out), e.pitch, e.chan)] else before
  }

  /** The pending note-offs, without the requests of the accompaniment. */
  function Pending(s: seq<Timed>): seq<Timed> {
    if s == [] then [] else (if s[0].pitch == -1 then [] else [s[0]]) + Pending(s[1..])
  }

  /** Every note-off ever booked is either written, at exactly the time it was booked for,
      or still pending for that time. */
  ghost predicate Ledger(s: State) {
    multiset(s.booked) == multiset(Offs(s.out)) + multiset(Pending(Schedule(s.queue, Now(s))))
  }

  /** The state of a track that is being written as it should: no event goes back in time,
      nothing pending is overdue, no note-off is written at `limit` or later, and without
      a chord delay the ledger is in balance. */
  ghost predicate OnTime(c: Settings, s: State, limit: int) {
    && !s.fatal && s.deltaTime >= 0 && s.tracklen == SumDeltas(s.out)
    && (forall k :: 0 <= k < |s.out| ==> s.out[k].delta >= 0)
    && (forall k :: 0 <= k < |s.queue| ==> s.queue[k].delay >= 0)
    && (forall x :: x in Offs(s.out) ==> x.at < limit)
    && (c.notedelay == 0 ==> Ledger(s))
  }

  lemma PendingCons(x: Timed, s: seq<Timed>)
    ensures Pending([x] + s) == (if x.pitch == -1 then [] else [x]) + Pending(s)
  {
    assert ([x] + s)[1..] == s;
  }

  lemma {:induction false} StableInsertPending(s: seq<Timed>, new_: Timed)
    ensures multiset(Pending(StableInsert(s, new_, 0))) ==
            multiset(Pending(s)) + multiset(if new_.pitch == -1 then [] else [new_])
  {
    hide *;
    StableInsertCons(s, new_);
    if s == [] || s[0].at > new_.at {
      PendingCons(new_, s);
    } else {
      assert s == [s[0]] + s[1..];
      StableInsertPending(s[1..], new_);
      PendingStep(s[0], s[1..], StableInsert(s[1..], new_, 0), if new_.pitch == -1 then [] else [new_]);
    }
  }

  lemma StableInsertCons(s: seq<Timed>, new_: Timed)
    ensures StableInsert(s, new_, 0) ==
            if s == [] || s[0].at > new_.at then [new_] + s else [s[0]] + StableInsert(s[1..], new_, 0)
  {
    if s != [] {
      assert Earlier(s, 0) == s;
    }
  }

  lemma PendingStep(x: Timed, s: seq<Timed>, r: seq<Timed>, more: seq<Timed>)
    requires multiset(Pending(r)) == multiset(Pending(s)) + multiset(more)
    ensures multiset(Pending([x] + r)) == multiset(Pending([x] + s)) + multiset(more)
  {
    hide *;
    PendingCons(x, s);
    PendingCons(x, r);
    Regroup(if x.pitch == -1 then [] else [x], Pending(s), Pending(r), more);
  }

  lemma Regroup(x: seq<Timed>, p: seq<Timed>, r: seq<Timed>, more: seq<Timed>)
    requires multiset(r) == multiset(p) + multiset(more)
    ensures multiset(x + r) == multiset(x + p) + multiset(more)
  {
    assert multiset(x + r) == multiset(x) + multiset(r);
    assert multiset(x + p) == multiset(x) + multiset(p);
  }

  lemma Balance(booked: multiset<Timed>, done: multiset<Timed>, left: multiset<Timed>, more: multiset<Timed>)
    requires booked == done + left
    ensures booked + more == done + (left + more)
  {
  }

  lemma LedgerStep(booked: seq<Timed>, done: multiset<Timed>, q: seq<Entry>, now: int,
                   wait: int, pitch: int, chan: int, more: seq<Timed>)
    requires multiset(booked) == done + multiset(Pending(Schedule(q, now)))
    requires more == if pitch == -1 then [] else [Timed(now + wait, pitch, chan)]
    ensures multiset(booked + more) == done + multiset(Pending(Schedule(Insert(q, wait, pitch, chan, 0), now)))
  {
    InsertIsStable(q, wait, pitch, chan, 0, now);
    var left, new_ := Schedule(q, now), Timed(now + wait, pitch, chan);
    hide *;
    StableInsertPending(left, new_);
    Balance(multiset(booked), done, multiset(Pending(left)), multiset(more));
    assert multiset(booked + more) == multiset(booked) + multiset(more);
  }

  lemma EnqueueKeepsLedger(c: Settings, s: State, wait: int, pitch: int, chan: int)
    requires Ledger(s) && c.notedelay == 0
    ensures Ledger(Enqueue(c, s, wait, pitch, chan))
  {
    hide Insert, Schedule, Pending, Offs;
    var more := if pitch == -1 then [] else [Timed(Now(s) + wait, pitch, chan)];
    LedgerStep(s.booked, multiset(Offs(s.out)), s.queue, Now(s), wait, pitch, chan, more);
  }

  lemma EnqueueKeepsOnTime(c: Settings, s: State, wait: nat, pitch: int, chan: int, limit: int)
    requires OnTime(c, s, limit)
    ensures OnTime(c, Enqueue(c, s, wait, pitch, chan), limit)
    ensures SameHead(s, Enqueue(c, s, wait, pitch, chan))
  {
    if c.notedelay == 0 {
      EnqueueKeepsLedger(c, s, wait, pitch, chan);
    }
    hide Ledger, Offs, SumDeltas;
    InsertNonNegative(s.queue, wait, pitch, chan, c.notedelay);
  }

  /** An item that is being served now is still the first one. */
  predicate SameHead(s: State, s': State) {
    s.queue != [] && s.queue[0].delay == 0 ==> s'.queue != [] && s'.queue[0] == s.queue[0]
  }

  lemma WriteOffs(s: State, e: Midi)
    ensures Offs(Write(s, e).out) ==
            Offs(s.out) + if e.NoteOff? then [Timed(SumDeltas(s.out) + e.delta, e.pitch, e.chan)] else []
    ensures SumDeltas(Write(s, e).out) == SumDeltas(s.out) + e.delta
  {
    assert (s.out + [e])[..|s.out|] == s.out;
  }

  lemma WriteOnKeepsOnTime(c: Settings, s: State, y: Sound, limit: int)
    requires OnTime(c, s, limit)
    ensures OnTime(c, Write(s, NoteOn(s.deltaTime, y.pitch, y.chan, y.vel)), limit)
  {
    WriteOffs(s, NoteOn(s.deltaTime, y.pitch, y.chan, y.vel));
    hide Offs, SumDeltas, Pending, Schedule;
  }

  lemma SaveNoteKeepsOnTime(c: Settings, s: State, num: nat, denom: Positive, x: Sound, limit: int)
    requires OnTime(c, s, limit) && Ticks(c, num, denom) >= 1
    ensures OnTime(c, SaveNote(c, s, num, denom, x), limit)
    ensures SameHead(s, SaveNote(c, s, num, denom, x))
  {
    hide OnTime, Enqueue, Ticks;
    var y := Transposed(c, x);
    WriteOnKeepsOnTime(c, s, y, limit);
    EnqueueKeepsOnTime(c, Write(s, NoteOn(s.deltaTime, y.pitch, y.chan, y.vel)),
                       Ticks(c, num, denom) - 1, y.pitch, y.chan, limit);
  }

  /** No step of either pattern that starts notes is shorter than one tick. */
  ghost predicate PlayableSteps(c: Settings) {
    && (forall k :: 0 <= k < |c.gchordSeq| && BeatNotes(c, c.gchordSeq[k].action) != [] ==>
                      Ticks(c, StepLength(c.gNum, c.gchordSeq[k].len), c.gDenom) >= 1)
    && (forall k :: 0 <= k < |c.drumSeq| && HitNotes(c, c.drumSeq[k]) != [] ==>
                      Ticks(c, StepLength(c.drumNum, c.drumSeq[k].len), c.drumDenom) >= 1)
  }

  lemma {:induction false} SaveNotesKeepsOnTime(c: Settings, s: State, num: nat, denom: Positive, xs: seq<Sound>, limit: int)
    requires OnTime(c, s, limit) && (xs != [] ==> Ticks(c, num, denom) >= 1)
    ensures OnTime(c, SaveNotes(c, s, num, denom, xs), limit)
    ensures SameHead(s, SaveNotes(c, s, num, denom, xs))
    decreases xs
  {
    hide OnTime, SaveNote, Ticks;
    if xs != [] {
      SaveNoteKeepsOnTime(c, s, num, denom, xs[0], limit);
      SaveNotesKeepsOnTime(c, SaveNote(c, s, num, denom, xs[0]), num, denom, xs[1..], limit);
    }
  }

  lemma ProgressKeepsOnTime(c: Settings, s: State, i: int, limit: int)
    requires OnTime(c, s, limit) && PlayableSteps(c)
    ensures OnTime(c, ProgressSequence(c, s, i), limit)
    ensures SameHead(s, ProgressSequence(c, s, i))
  {
    var s1 := if c.gchordson then DoGchords(c, s, i) else s;
    GchordsKeepOnTime(c, s, i, limit);
    DrumsKeepOnTime(c, s1, i, limit);
  }

  lemma MovePointers(c: Settings, s: State, g: nat, d: nat, limit: int)
    requires OnTime(c, s, limit)
    ensures OnTime(c, s.(gPtr := g, drumPtr := d), limit)
  {
    hide Offs, SumDeltas, Pending, Schedule;
  }

  /** The common part of both patterns: start the notes of a step, then ask for the next. */
  lemma StepKeepsOnTime(c: Settings, s: State, num: nat, denom: Positive, xs: seq<Sound>, g: nat, d: nat, next: int, limit: int)
    requires OnTime(c, s, limit) && (xs != [] ==> Ticks(c, num, denom) >= 1)
    ensures var s' := AddToQ(c, SaveNotes(c, s, num, denom, xs).(gPtr := g, drumPtr := d), num, denom, -1, next, 0);
            OnTime(c, s', limit) && SameHead(s, s')
  {
    hide SaveNotes, Enqueue, Ticks, OnTime;
    SaveNotesKeepsOnTime(c, s, num, denom, xs, limit);
    MovePointers(c, SaveNotes(c, s, num, denom, xs), g, d, limit);
    EnqueueKeepsOnTime(c, SaveNotes(c, s, num, denom, xs).(gPtr := g, drumPtr := d), Ticks(c, num, denom), -1, next, limit);
  }

  lemma GchordsKeepOnTime(c: Settings, s: State, i: int, limit: int)
    requires OnTime(c, s, limit) && PlayableSteps(c)
    ensures OnTime(c, DoGchords(c, s, i), limit) && SameHead(s, DoGchords(c, s, i))
  {
    hide Now, StepsLeft, StepLength, BeatNotes, HitNotes, SaveNotes, AddToQ, Ticks, OnTime;
    if i == s.gPtr && s.gPtr < |c.gchordSeq| {
      var b := c.gchordSeq[s.gPtr];
      SaveNotesKeeps(c, s, StepLength(c.gNum, b.len), c.gDenom, BeatNotes(c, b.action));
      StepKeepsOnTime(c, s, StepLength(c.gNum, b.len), c.gDenom, BeatNotes(c, b.action), s.gPtr + 1, s.drumPtr, s.gPtr + 1, limit);
    }
  }

  lemma DrumsKeepOnTime(c: Settings, s: State, i: int, limit: int)
    requires OnTime(c, s, limit) && PlayableSteps(c)
    ensures OnTime(c, DoDrums(c, s, i), limit) && SameHead(s, DoDrums(c, s, i))
  {
    hide Now, StepsLeft, StepLength, BeatNotes, HitNotes, SaveNotes, AddToQ, Ticks, OnTime;
    if i == s.drumPtr && s.drumPtr < |c.drumSeq| {
      var h := c.drumSeq[s.drumPtr];
      SaveNotesKeeps(c, s, StepLength(c.drumNum, h.len), c.drumDenom, HitNotes(c, h));
      StepKeepsOnTime(c, s, StepLength(c.drumNum, h.len), c.drumDenom, HitNotes(c, h), s.gPtr, s.drumPtr + 1, s.drumPtr + 1, limit);
    }
  }

  /** A track as `starttrack` leaves it: nothing is written, and the first step of the
      gchord pattern is asked for. */
  function StartTrack(c: Settings): State {
    var s := State([], 0, 0, 0, 0, [], [], false);
    if c.gchordson then AddToQ(c, s, 0, c.gDenom, -1, s.gPtr, 0) else s
  }

  /** What `checkbar` does at every bar line: both patterns start again. The request that
      was waiting stays in the queue. */
  function BarLine(c: Settings, s: State): State {
    var s1 := if c.gchordson then AddToQ(c, s.(gPtr := 0), 0, c.gDenom, -1, 0, 0) else s;
    if c.drumson then AddToQ(c, s1.(drumPtr := 0), 0, c.drumDenom, -1, 0, 0) else s1
  }

  lemma StartOnTime(c: Settings)
    ensures OnTime(c, StartTrack(c), 0) && Now(StartTrack(c)) == 0
  {
    hide Ticks, Insert;
    var s := State([], 0, 0, 0, 0, [], [], false);
    assert OnTime(c, s, 0);
    if c.gchordson {
      EnqueueKeepsOnTime(c, s, Ticks(c, 0, c.gDenom), -1, 0, 0);
    }
  }

  lemma BarLineOnTime(c: Settings, s: State, limit: int)
    requires OnTime(c, s, limit)
    ensures OnTime(c, BarLine(c, s), limit) && Now(BarLine(c, s)) == Now(s)
  {
    hide OnTime, Ticks, Insert;
    var s1 := if c.gchordson then AddToQ(c, s.(gPtr := 0), 0, c.gDenom, -1, 0, 0) else s;
    if c.gchordson {
      MovePointers(c, s, 0, s.drumPtr, limit);
      EnqueueKeepsOnTime(c, s.(gPtr := 0), Ticks(c, 0, c.gDenom), -1, 0, limit);
    }
    if c.drumson {
      MovePointers(c, s1, s1.gPtr, 0, limit);
      EnqueueKeepsOnTime(c, s1.(drumPtr := 0), Ticks(c, 0, c.drumDenom), -1, 0, limit);
    }
  }

  /** Letting time pass for the first item leaves every absolute time as it was. */
  lemma AdvanceSchedule(q: seq<Entry>, t: int, now: int)
    ensures Schedule(Advance(q, t), now + t) == Schedule(q, now)
  {
    if q != [] {
      ScheduleCons(q[0].(delay := q[0].delay - t), q[1..], now + t);
    }
  }

  lemma AdvanceKeepsOnTime(c: Settings, s: State, t: nat, limit: int)
    requires OnTime(c, s, limit) && (s.queue != [] ==> t <= s.queue[0].delay)
    ensures OnTime(c, Later(s, t), limit)
  {
    AdvanceSchedule(s.queue, t, Now(s));
    hide Schedule, Offs, SumDeltas, Pending;
  }

  lemma DropRequest(c: Settings, s: State, limit: int)
    requires OnTime(c, s, limit) && s.queue != [] && s.queue[0].delay == 0 && s.queue[0].pitch == -1
    ensures OnTime(c, s.(queue := s.queue[1..]), limit)
  {
    assert Schedule(s.queue, Now(s))[1..] == Schedule(s.queue[1..], Now(s));
  }

  lemma HeadIsPending(q: seq<Entry>, now: int)
    requires q != [] && q[0].delay == 0 && q[0].pitch != -1
    ensures Pending(Schedule(q, now)) == [Timed(now, q[0].pitch, q[0].chan)] + Pending(Schedule(q[1..], now))
  {
    assert Schedule(q, now)[1..] == Schedule(q[1..], now);
  }

  lemma WriteOffKeepsOnTime(c: Settings, s: State, limit: int)
    requires OnTime(c, s, limit) && Now(s) < limit
    requires s.queue != [] && s.queue[0].delay == 0 && s.queue[0].pitch != -1
    ensures OnTime(c, Write(s, NoteOff(s.deltaTime, s.queue[0].pitch, s.queue[0].chan)).(queue := s.queue[1..]), limit)
  {
    hide Ledger, Offs, SumDeltas;
    WriteOffs(s, NoteOff(s.deltaTime, s.queue[0].pitch, s.queue[0].chan));
    if c.notedelay == 0 {
      WriteOffKeepsLedger(s);
    }
  }

  lemma WriteOffKeepsLedger(s: State)
    requires Ledger(s) && s.tracklen == SumDeltas(s.out)
    requires s.queue != [] && s.queue[0].delay == 0 && s.queue[0].pitch != -1
    ensures Ledger(Write(s, NoteOff(s.deltaTime, s.queue[0].pitch, s.queue[0].chan)).(queue := s.queue[1..]))
  {
    hide Schedule, Offs, SumDeltas, Pending;
    var e := NoteOff(s.deltaTime, s.queue[0].pitch, s.queue[0].chan);
    WriteOffs(s, e);
    HeadIsPending(s.queue, Now(s));
    SwapSides(multiset(s.booked), Offs(s.out), Pending(Schedule(s.queue[1..], Now(s))),
              Timed(Now(s), e.pitch, e.chan));
  }

  lemma SwapSides(booked: multiset<Timed>, done: seq<Timed>, left: seq<Timed>, off: Timed)
    requires booked == multiset(done) + multiset([off] + left)
    ensures booked == multiset(done + [off]) + multiset(left)
  {
  }

  lemma ServeKeepsOnTime(c: Settings, s: State, atEnd: bool, limit: int)
    requires OnTime(c, s, limit) && PlayableSteps(c)
    requires s.queue != [] && Now(s) + s.queue[0].delay < limit
    ensures OnTime(c, Serve(c, s, atEnd), limit)
  {
    hide OnTime, ProgressSequence, PlayableSteps;
    var head := s.queue[0];
    var s1 := OnToHead(s);
    OnTimeHead(c, s, limit);
    AdvanceKeepsOnTime(c, s, head.delay, limit);
    if head.pitch != -1 {
      WriteOffKeepsOnTime(c, s1, limit);
    } else if atEnd {
      DropRequest(c, s1, limit);
    } else {
      ProgressKeepsOnTime(c, s1, head.chan, limit);
      DropRequest(c, ProgressSequence(c, s1, head.chan), limit);
    }
  }

  lemma TimeStepDone(c: Settings, s: State, t: nat, atEnd: bool)
    requires OnTime(c, s, Now(s) + t) && c.totalnotedelay == 0
    requires s.queue == [] || s.queue[0].delay >= t
    ensures var s' := TimeStep(c, s, t, atEnd);
            OnTime(c, s', Now(s) + t) && Now(s') == Now(s) + t
  {
    hide OnTime, StepsLeft, Serve, Advance;
    AdvanceKeepsOnTime(c, s, t, Now(s) + t);
  }

  lemma TimeStepRound(c: Settings, s: State, t: int, atEnd: bool)
    requires s.queue != [] && s.queue[0].delay < t && !Serve(c, s, atEnd).fatal
    ensures TimeStep(c, s, t, atEnd) == TimeStep(c, Serve(c, s, atEnd), t - s.queue[0].delay, atEnd)
  {
    hide Serve;
  }

  /** `timestep` keeps a track on time. The program does not stop, the track grows by
      exactly t, no event is written with a negative delta, and every note-off booked for
      an earlier time, those booked on the way included, is written at its time and
      every other one is still to come. */
  lemma {:induction false} TimeStepOnTime(c: Settings, s: State, t: nat, atEnd: bool)
    requires OnTime(c, s, Now(s) + t) && PlayableSteps(c) && c.totalnotedelay == 0
    ensures var s' := TimeStep(c, s, t, atEnd);
            OnTime(c, s', Now(s')) && Now(s') == Now(s) + t
    decreases StepsLeft(c, s), |s.queue|
  {
    hide *;
    OnTimeHead(c, s, Now(s) + t);
    if s.queue == [] || s.queue[0].delay >= t {
      TimeStepDone(c, s, t, atEnd);
    } else {
      var s1 := Serve(c, s, atEnd);
      ServeProgress(c, s, atEnd);
      ServeKeepsOnTime(c, s, atEnd, Now(s) + t);
      OnTimeHead(c, s1, Now(s) + t);
      TimeStepRound(c, s, t, atEnd);
      TimeStepOnTime(c, s1, t - s.queue[0].delay, atEnd);
    }
  }

  lemma OnTimeHead(c: Settings, s: State, limit: int)
    requires OnTime(c, s, limit)
    ensures !s.fatal && (s.queue != [] ==> s.queue[0].delay >= 0)
  {
    hide Offs, SumDeltas, Ledger;
  }

  lemma InsertHead(q: seq<Entry>, wait: int, pitch: int, chan: int, lag: int)
    requires q != []
    ensures Insert(q, wait, pitch, chan, lag)[0].delay == if wait < q[0].delay then wait else q[0].delay
  {
  }

  lemma {:induction false} SaveNotesHead(c: Settings, s: State, num: nat, denom: Positive, xs: seq<Sound>)
    requires s.queue != []
    ensures var s' := SaveNotes(c, s, num, denom, xs);
            s'.queue != [] && s'.fatal == s.fatal && s'.queue[0].delay ==
            if xs != [] && |s.queue| < QSIZE && Ticks(c, num, denom) - 1 < s.queue[0].delay
            then Ticks(c, num, denom) - 1 else s.queue[0].delay
    decreases xs
  {
    hide Insert, Ticks;
    if xs != [] {
      var y := Transposed(c, xs[0]);
      InsertHead(s.queue, Ticks(c, num, denom) - 1, y.pitch, y.chan, c.notedelay);
      SaveNotesHead(c, SaveNote(c, s, num, denom, xs[0]), num, denom, xs[1..]);
    }
  }

  /** The pattern step asked for starts notes that last no tick at all, and the first of
      them finds a free cell. */
  predicate GchordTooShort(c: Settings, s: State, i: int) {
    && c.gchordson && i == s.gPtr < |c.gchordSeq| && |s.queue| < QSIZE
    && BeatNotes(c, c.gchordSeq[i].action) != []
    && Ticks(c, StepLength(c.gNum, c.gchordSeq[i].len), c.gDenom) == 0
  }

  predicate DrumTooShort(c: Settings, s: State, i: int) {
    && c.drumson && i == s.drumPtr < |c.drumSeq| && |s.queue| < QSIZE
    && HitNotes(c, c.drumSeq[i]) != []
    && Ticks(c, StepLength(c.drumNum, c.drumSeq[i].len), c.drumDenom) == 0
  }

  predicate TooShort(c: Settings, s: State, i: int) {
    GchordTooShort(c, s, i) || DrumTooShort(c, if c.gchordson then DoGchords(c, s, i) else s, i)
  }

  lemma StepHead(c: Settings, s: State, num: nat, denom: Positive, xs: seq<Sound>, g: nat, d: nat, next: int)
    requires s.queue != [] && s.queue[0].delay <= 0
    ensures var s' := AddToQ(c, SaveNotes(c, s, num, denom, xs).(gPtr := g, drumPtr := d), num, denom, -1, next, 0);
            s'.queue != [] && s'.queue[0].delay <= 0 && s'.fatal == s.fatal &&
            (s'.queue[0].delay == 0 <==>
             s.queue[0].delay == 0 && !(xs != [] && |s.queue| < QSIZE && Ticks(c, num, denom) == 0))
  {
    hide SaveNotes, Insert, Ticks;
    SaveNotesHead(c, s, num, denom, xs);
    InsertHead(SaveNotes(c, s, num, denom, xs).queue, Ticks(c, num, denom), -1, next, c.notedelay);
  }

  lemma GchordsHead(c: Settings, s: State, i: int)
    requires c.gchordson && s.queue != [] && s.queue[0].delay <= 0
    ensures var s' := DoGchords(c, s, i);
            s'.queue != [] && s'.queue[0].delay <= 0 && s'.fatal == s.fatal && s'.drumPtr == s.drumPtr &&
            (s'.queue[0].delay == 0 <==> s.queue[0].delay == 0 && !GchordTooShort(c, s, i))
  {
    hide AddToQ, SaveNotes, BeatNotes, Ticks, StepLength;
    if i == s.gPtr && s.gPtr < |c.gchordSeq| {
      var b := c.gchordSeq[s.gPtr];
      SaveNotesKeeps(c, s, StepLength(c.gNum, b.len), c.gDenom, BeatNotes(c, b.action));
      StepHead(c, s, StepLength(c.gNum, b.len), c.gDenom, BeatNotes(c, b.action), s.gPtr + 1, s.drumPtr, s.gPtr + 1);
      SameDrums(c, s, i);
    }
  }

  lemma SameDrums(c: Settings, s: State, i: int)
    ensures DoGchords(c, s, i).drumPtr == s.drumPtr
  {
    hide SaveNotes, BeatNotes, Ticks, StepLength;
    if i == s.gPtr && s.gPtr < |c.gchordSeq| {
      var b := c.gchordSeq[s.gPtr];
      SaveNotesKeeps(c, s, StepLength(c.gNum, b.len), c.gDenom, BeatNotes(c, b.action));
    }
  }

  lemma DrumsHead(c: Settings, s: State, i: int)
    requires c.drumson && s.queue != [] && s.queue[0].delay <= 0
    ensures var s' := DoDrums(c, s, i);
            s'.queue != [] && s'.fatal == s.fatal &&
            (s'.queue[0].delay == 0 <==> s.queue[0].delay == 0 && !DrumTooShort(c, s, i))
  {
    hide AddToQ, SaveNotes, HitNotes, Ticks, StepLength;
    if i == s.drumPtr && s.drumPtr < |c.drumSeq| {
      var h := c.drumSeq[s.drumPtr];
      SaveNotesKeeps(c, s, StepLength(c.drumNum, h.len), c.drumDenom, HitNotes(c, h));
      StepHead(c, s, StepLength(c.drumNum, h.len), c.drumDenom, HitNotes(c, h), s.gPtr, s.drumPtr + 1, s.drumPtr + 1);
    }
  }

  /** Exactly when serving an item stops the program with "queue head has non-zero time":
      when it asks for a pattern step whose notes last less than a tick, because such a
      note is queued in front of the item being served. */
  lemma FatalExactly(c: Settings, s: State, atEnd: bool)
    requires s.queue != [] && !s.fatal
    ensures var head := s.queue[0];
            Serve(c, s, atEnd).fatal <==>
            head.pitch == -1 && !atEnd &&
            TooShort(c, OnToHead(s), head.chan)
  {
    var head := s.queue[0];
    var s1 := OnToHead(s);
    hide *;
    if head.pitch != -1 || atEnd {
      ServeOther(c, s, atEnd);
    } else {
      ServeRequest(c, s);
      AdvanceHead(s.queue);
      ProgressHead(c, s1, head.chan);
    }
  }

  lemma AdvanceHead(q: seq<Entry>)
    requires q != []
    ensures Advance(q, q[0].delay) == [q[0].(delay := 0)] + q[1..]
  {
  }

  lemma ServeOther(c: Settings, s: State, atEnd: bool)
    requires s.queue != [] && !s.fatal && (s.queue[0].pitch != -1 || atEnd)
    ensures !Serve(c, s, atEnd).fatal
  {
    hide ProgressSequence;
  }

  lemma ServeRequest(c: Settings, s: State)
    requires s.queue != [] && s.queue[0].pitch == -1 && !s.fatal
    ensures var s1 := OnToHead(s);
            var s2 := ProgressSequence(c, s1, s.queue[0].chan);
            Serve(c, s, false).fatal <==> s2.fatal || s2.queue == [] || s2.queue[0].delay != 0
  {
    hide ProgressSequence, Advance;
  }

  lemma ProgressHead(c: Settings, s: State, i: int)
    requires s.queue != [] && s.queue[0].delay == 0
    ensures var s' := ProgressSequence(c, s, i);
            s'.queue != [] && s'.fatal == s.fatal && (s'.queue[0].delay == 0 <==> !TooShort(c, s, i))
  {
    hide DoGchords, DoDrums, GchordTooShort, DrumTooShort;
    var s1 := if c.gchordson then DoGchords(c, s, i) else s;
    if c.gchordson {
      GchordsHead(c, s, i);
    } else {
      NoGchords(c, s, i);
    }
    if c.drumson {
      DrumsHead(c, s1, i);
    } else {
      NoDrums(c, s1, i);
    }
  }

  lemma NoGchords(c: Settings, s: State, i: int)
    requires !c.gchordson
    ensures !GchordTooShort(c, s, i)
  {
  }

  lemma NoDrums(c: Settings, s: State, i: int)
    requires !c.drumson
    ensures !DrumTooShort(c, s, i)
  {
  }

  /** Time that the accompaniment's requests at the head of the queue still had to wait. */
  function LeadTime(q: seq<Entry>): int {
    if q == [] || q[0].pitch != -1 then 0 else q[0].delay + LeadTime(q[1..])
  }

  function AfterRequests(q: seq<Entry>): seq<Entry> {
    if q == [] || q[0].pitch != -1 then q else AfterRequests(q[1..])
  }

  lemma {:induction false} AtEndShortens(c: Settings, s: State, t: int)
    ensures |TimeStep(c, s, t, true).queue| <= |s.queue|
    ensures s.queue != [] && s.queue[0].delay < t ==> |TimeStep(c, s, t, true).queue| < |s.queue|
    decreases |s.queue|
  {
    if s.queue != [] && s.queue[0].delay < t {
      var s1 := Serve(c, s, true);
      assert s1.queue == s.queue[1..];
      ServeProgress(c, s, true);
      hide Serve, StepsLeft;
      if !s1.fatal {
        AtEndShortens(c, s1, t - s.queue[0].delay);
      }
    }
  }

  /** The last loop of `clearQ`. */
  function Flush(c: Settings, s: State): State
    decreases |s.queue|
  {
    if s.queue == [] then s
    else
      AtEndShortens(c, s, s.queue[0].delay + 1);
      Flush(c, TimeStep(c, s, s.queue[0].delay + 1, true))
  }

  /** `clearQ` */
  function ClearQ(c: Settings, s: State): State {
    var s1 := s.(queue := AfterRequests(s.queue));
    var s2 := if s1.queue == [] then s1 else TimeStep(c, s1, LeadTime(s.queue), true);
    TimeStep(c, Flush(c, s2), 25, false)
  }

  /** Everything that is or will be written: the note-offs done and the ones pending. */
  function AllOffs(s: State): seq<Timed> {
    Offs(s.out) + Pending(Schedule(s.queue, Now(s)))
  }

  /** Serving the queue at the end of the track never stops the program, and writes the
      first pending note-off at its time or drops a request. */
  lemma ServeAtEnd(c: Settings, s: State)
    requires s.queue != [] && s.tracklen == SumDeltas(s.out) && !s.fatal
    ensures var s1 := Serve(c, s, true);
            !s1.fatal && s1.queue == s.queue[1..] && AllOffs(s1) == AllOffs(s) &&
            s1.tracklen == SumDeltas(s1.out) && StepsLeft(c, s1) == StepsLeft(c, s) &&
            Now(s1) == Now(s) + s.queue[0].delay
  {
    var head := s.queue[0];
    var s0 := OnToHead(s);
    AdvanceSchedule(s.queue, head.delay, Now(s));
    var q := s0.queue;
    assert q[1..] == s.queue[1..];
    if head.pitch == -1 {
      assert Schedule(q, Now(s0))[1..] == Schedule(q[1..], Now(s0));
    } else {
      hide Pending, Schedule, Offs, SumDeltas;
      HeadIsPending(q, Now(s0));
      WriteOffs(s0, NoteOff(s0.deltaTime, head.pitch, head.chan));
    }
  }

  lemma {:induction false} AtEndKeepsOffs(c: Settings, s: State, t: int)
    requires s.tracklen == SumDeltas(s.out) && !s.fatal && c.totalnotedelay == 0
    ensures var s' := TimeStep(c, s, t, true);
            !s'.fatal && AllOffs(s') == AllOffs(s) && s'.tracklen == SumDeltas(s'.out) &&
            Now(s') == Now(s) + t && |s'.queue| <= |s.queue| &&
            (s.queue != [] && s.queue[0].delay < t ==> |s'.queue| < |s.queue|)
    decreases |s.queue|
  {
    hide SumDeltas, Pending, Schedule, Offs, Serve, StepsLeft;
    if s.queue == [] || s.queue[0].delay >= t {
      AdvanceSchedule(s.queue, t, Now(s));
    } else {
      ServeAtEnd(c, s);
      TimeStepRound(c, s, t, true);
      AtEndKeepsOffs(c, Serve(c, s, true), t - s.queue[0].delay);
    }
  }

  lemma {:induction false} PendingEarlier(s: seq<Timed>, gap: int)
    ensures Pending(Earlier(s, gap)) == Earlier(Pending(s), gap)
  {
    if s != [] {
      assert Earlier(s, gap)[1..] == Earlier(s[1..], gap);
      PendingEarlier(s[1..], gap);
    }
  }

  lemma {:induction false} RequestsDropped(q: seq<Entry>, now: int)
    ensures Pending(Schedule(AfterRequests(q), now)) == Earlier(Pending(Schedule(q, now)), LeadTime(q))
  {
    hide Pending, Schedule;
    if q != [] && q[0].pitch == -1 {
      var rest, d := q[1..], q[0].delay;
      RequestsDropped(rest, now);
      ScheduleShift(rest, now + d, d);
      PendingEarlier(Schedule(rest, now + d), d);
      assert q == [q[0]] + rest;
      ScheduleCons(q[0], rest, now);
      PendingCons(Timed(now + d, -1, q[0].chan), Schedule(rest, now + d));
      EarlierTwice(Pending(Schedule(rest, now + d)), d, LeadTime(rest));
    }
  }

  lemma EarlierTwice(s: seq<Timed>, a: int, b: int)
    ensures Earlier(Earlier(s, a), b) == Earlier(s, a + b)
  {
  }

  lemma {:induction false} FlushWritesAll(c: Settings, s: State)
    requires s.tracklen == SumDeltas(s.out) && !s.fatal && c.totalnotedelay == 0
    ensures var s' := Flush(c, s);
            !s'.fatal && s'.queue == [] && AllOffs(s') == AllOffs(s) && s'.tracklen == SumDeltas(s'.out)
    decreases |s.queue|
  {
    hide TimeStep, AllOffs, SumDeltas;
    if s.queue != [] {
      AtEndKeepsOffs(c, s, s.queue[0].delay + 1);
      FlushWritesAll(c, TimeStep(c, s, s.queue[0].delay + 1, true));
    }
  }

  /** `clearQ` empties the queue, so that every cell is free again, and writes each pending
      note-off once, in order, each of them earlier than booked by the time that the
      requests it threw away at the head of the queue still had to wait. */
  lemma ClearQWritesAll(c: Settings, s: State)
    requires s.tracklen == SumDeltas(s.out) && !s.fatal && c.totalnotedelay == 0
    ensures var s' := ClearQ(c, s);
            !s'.fatal && s'.queue == [] &&
            Offs(s'.out) == Offs(s.out) + Earlier(Pending(Schedule(s.queue, Now(s))), LeadTime(s.queue))
  {
    hide TimeStep, Flush, SumDeltas, Offs, Pending, Schedule;
    var s1 := s.(queue := AfterRequests(s.queue));
    RequestsDropped(s.queue, Now(s));
    AtEndKeepsOffs(c, s1, LeadTime(s.queue));
    var s2 := if s1.queue == [] then s1 else TimeStep(c, s1, LeadTime(s.queue), true);
    FlushWritesAll(c, s2);
    EmptyTimeStep(c, Flush(c, s2));
    NothingPending();
  }

  lemma NothingPending()
    ensures forall now :: Pending(Schedule([], now)) == []
  {
  }

  lemma EmptyTimeStep(c: Settings, s: State)
    requires s.queue == []
    ensures TimeStep(c, s, 25, false) == s.(deltaTime := s.deltaTime + 25 - c.totalnotedelay)
  {
  }

  /** Serving the queue at the end of the track books nothing more. */
  lemma {:induction false} AtEndBooksNothing(c: Settings, s: State, t: int)
    ensures TimeStep(c, s, t, true).booked == s.booked
    decreases |s.queue|
  {
    hide StepsLeft;
    if s.queue != [] && s.queue[0].delay < t && !Serve(c, s, true).fatal {
      TimeStepRound(c, s, t, true);
      AtEndBooksNothing(c, Serve(c, s, true), t - s.queue[0].delay);
    }
  }

  lemma {:induction false} FlushBooksNothing(c: Settings, s: State)
    ensures Flush(c, s).booked == s.booked
    decreases |s.queue|
  {
    hide TimeStep;
    if s.queue != [] {
      AtEndBooksNothing(c, s, s.queue[0].delay + 1);
      AtEndShortens(c, s, s.queue[0].delay + 1);
      FlushBooksNothing(c, TimeStep(c, s, s.queue[0].delay + 1, true));
    }
  }

  /** No event goes back in time, and nothing pending makes one. */
  ghost predicate Forwards(s: State) {
    && s.deltaTime >= 0
    && (forall k :: 0 <= k < |s.out| ==> s.out[k].delta >= 0)
    && (forall k :: 0 <= k < |s.queue| ==> s.queue[k].delay >= 0)
  }

  lemma ServeForwards(c: Settings, s: State)
    requires Forwards(s) && s.queue != []
    ensures Forwards(Serve(c, s, true))
  {
  }

  lemma {:induction false} AtEndForwards(c: Settings, s: State, t: nat)
    requires Forwards(s) && c.totalnotedelay == 0
    ensures Forwards(TimeStep(c, s, t, true))
    decreases |s.queue|
  {
    hide StepsLeft, Serve;
    if s.queue != [] && s.queue[0].delay < t {
      ServeForwards(c, s);
      ServeShortens(c, s);
      if !Serve(c, s, true).fatal {
        AtEndForwards(c, Serve(c, s, true), t - s.queue[0].delay);
      }
    }
  }

  lemma ServeShortens(c: Settings, s: State)
    requires s.queue != []
    ensures |Serve(c, s, true).queue| <= |s.queue| && (!Serve(c, s, true).fatal ==> |Serve(c, s, true).queue| < |s.queue|)
  {
  }

  lemma {:induction false} FlushForwards(c: Settings, s: State)
    requires Forwards(s) && c.totalnotedelay == 0
    ensures Forwards(Flush(c, s))
    decreases |s.queue|
  {
    hide TimeStep;
    if s.queue != [] {
      AtEndForwards(c, s, s.queue[0].delay + 1);
      AtEndShortens(c, s, s.queue[0].delay + 1);
      FlushForwards(c, TimeStep(c, s, s.queue[0].delay + 1, true));
    }
  }

  lemma {:induction false} AfterRequestsForwards(q: seq<Entry>)
    requires forall k :: 0 <= k < |q| ==> q[k].delay >= 0
    ensures LeadTime(q) >= 0 && forall k :: 0 <= k < |AfterRequests(q)| ==> AfterRequests(q)[k].delay >= 0
  {
    if q != [] && q[0].pitch == -1 {
      AfterRequestsForwards(q[1..]);
    }
  }

  /** `clearQ` writes only what was booked before, and no event with a negative delta. */
  lemma ClearQForwards(c: Settings, s: State)
    requires Forwards(s) && !s.fatal && c.totalnotedelay == 0 && s.tracklen == SumDeltas(s.out)
    ensures var s' := ClearQ(c, s);
            s'.booked == s.booked && forall k :: 0 <= k < |s'.out| ==> s'.out[k].delta >= 0
    ensures LeadTime(s.queue) >= 0
  {
    hide TimeStep, Flush, SumDeltas, LeadTime, AfterRequests;
    AfterRequestsForwards(s.queue);
    var s1 := s.(queue := AfterRequests(s.queue));
    AtEndForwards(c, s1, LeadTime(s.queue));
    AtEndBooksNothing(c, s1, LeadTime(s.queue));
    AtEndKeepsOffs(c, s1, LeadTime(s.queue));
    var s2 := if s1.queue == [] then s1 else TimeStep(c, s1, LeadTime(s.queue), true);
    FlushForwards(c, s2);
    FlushBooksNothing(c, s2);
    FlushWritesAll(c, s2);
    EmptyTimeStep(c, Flush(c, s2));
  }

  /** So the note-offs left over at the end of a track come out when they are due if and
      only if no accompaniment request was waiting ahead of them. */
  lemma ClearQOnTimeExactly(c: Settings, s: State)
    requires s.tracklen == SumDeltas(s.out) && !s.fatal && c.totalnotedelay == 0
    ensures Offs(ClearQ(c, s).out) == AllOffs(s) <==>
            LeadTime(s.queue) == 0 || Pending(Schedule(s.queue, Now(s))) == []
  {
    ClearQWritesAll(c, s);
    hide ClearQ, Pending, Schedule, Offs;
    var left, done := Pending(Schedule(s.queue, Now(s))), Offs(s.out);
    var early := Earlier(left, LeadTime(s.queue));
    if left == early && left != [] {
      assert early[0].at == left[0].at - LeadTime(s.queue);
    }
    if done + left == done + early {
      assert left == (done + left)[|done|..] == early;
    }
  }

  lemma {:induction false} EarliestOf(s: seq<Timed>) returns (k: nat)
    requires s != []
    ensures k < |s| && forall j :: 0 <= j < |s| ==> s[k].at <= s[j].at
  {
    k := 0;
    if |s| > 1 {
      k := EarliestOf(s[1..]);
      k := if s[0].at <= s[1..][k].at then 0 else k + 1;
    }
  }

  /** Shifted in time, they are not the same note-offs any more. */
  lemma EarlierDiffers(s: seq<Timed>, gap: nat)
    ensures multiset(Earlier(s, gap)) == multiset(s) <==> gap == 0 || s == []
  {
    if gap == 0 {
      assert Earlier(s, 0) == s;
    } else if s != [] {
      var k := EarliestOf(s);
      assert Earlier(s, gap)[k] in multiset(Earlier(s, gap));
      assert Earlier(s, gap)[k] !in s;
    }
  }

  /** At the end of a track that was on time, every note-off ever booked has been written
      once, and each of them at its time if and only if no request was waiting in front of
      those still pending. */
  lemma ClearQBalance(c: Settings, s: State)
    requires OnTime(c, s, Now(s)) && c.totalnotedelay == 0 && c.notedelay == 0
    ensures multiset(Offs(ClearQ(c, s).out)) == multiset(s.booked) <==>
            LeadTime(s.queue) == 0 || Pending(Schedule(s.queue, Now(s))) == []
    ensures |Offs(ClearQ(c, s).out)| == |s.booked|
  {
    hide ClearQ, Pending, Schedule, Offs, SumDeltas, LeadTime;
    ClearQWritesAll(c, s);
    AfterRequestsForwards(s.queue);
    var left, done := Pending(Schedule(s.queue, Now(s))), Offs(s.out);
    var early := Earlier(left, LeadTime(s.queue));
    EarlierDiffers(left, LeadTime(s.queue));
    SameSize(s.booked, done + left);
    Cancel(done, left, early);
  }

  lemma Cancel(done: seq<Timed>, a: seq<Timed>, b: seq<Timed>)
    ensures multiset(done + b) == multiset(done + a) <==> multiset(b) == multiset(a)
  {
    assert multiset(done + a) == multiset(done) + multiset(a);
    assert multiset(done + b) == multiset(done) + multiset(b);
    if multiset(done + b) == multiset(done + a) {
      assert multiset(a) == multiset(done + a) - multiset(done);
      assert multiset(b) == multiset(done + b) - multiset(done);
    }
  }

  lemma SameSize(a: seq<Timed>, b: seq<Timed>)
    requires multiset(a) == multiset(b)
    ensures |a| == |b|
  {
    assert |multiset(a)| == |a| && |multiset(b)| == |b|;
  }
}
