/** Matching note-offs with note-ons (midi2abc.c): the list of notes still sounding serves
    each pitch and channel first come, first served. */
module Pairing {
  import opened NoteLists

  datatype Key = Key(pitch: int, chan: int)

  /** A note of the track. While it sounds, `tplay` holds the time it started; after that,
      how long it lasted. */
  datatype Played = Played(key: Key, vel: int, time: int, tplay: int)

  /** The notes of the track in order, the places in it of those still sounding in the
      order of the playing list, and the number of note-offs that matched nothing. */
  datatype Tracked = Tracked(notes: seq<Played>, open: seq<nat>, misses: nat)

  ghost predicate WellFormed(t: Tracked) {
    forall k :: 0 <= k < |t.open| ==> t.open[k] < |t.notes|
  }

  /** `addnote` */
  function NoteStarted(t: Tracked, key: Key, vel: int, now: int): Tracked {
    Tracked(t.notes + [Played(key, vel, now, now)], t.open + [|t.notes|], t.misses)
  }

  /** The first item of the playing list with a given pitch and channel, or its length. */
  function FirstMatch(notes: seq<Played>, open: seq<nat>, key: Key): (k: nat)
    requires forall k :: 0 <= k < |open| ==> open[k] < |notes|
    ensures k <= |open|
  {
    if open == [] || notes[open[0]].key == key then 0 else 1 + FirstMatch(notes, open[1..], key)
  }

  /** `notestop` */
  function NoteStopped(t: Tracked, key: Key, now: int): Tracked
    requires WellFormed(t)
  {
    var k := FirstMatch(t.notes, t.open, key);
    if k == |t.open| then t.(misses := t.misses + 1)
    else
      var n := t.open[k];
      Tracked(t.notes[n := t.notes[n].(tplay := now - t.notes[n].tplay)], t.open[..k] + t.open[k + 1..], t.misses)
  }

  datatype Event = On(key: Key, vel: int, at: int) | Off(key: Key, at: int)

  function Step(t: Tracked, e: Event): (t': Tracked)
    requires WellFormed(t)
    ensures WellFormed(t')
  {
    match e
    case On(key, vel, at) => NoteStarted(t, key, vel, at)
    case Off(key, at) => NoteStopped(t, key, at)
  }

  function Run(t: Tracked, es: seq<Event>): Tracked
    requires WellFormed(t)
    decreases es
  {
    if es == [] then t else Run(Step(t, es[0]), es[1..])
  }

  /** The reference: for one pitch and channel, a queue of starting times, and the notes
      finished so far as start and length. */
  datatype Fifo = Fifo(closed: seq<(int, int)>, waiting: seq<int>)

  function FifoStep(f: Fifo, key: Key, e: Event): Fifo {
    if e.key != key then f
    else match e
         case On(_, _, at) => f.(waiting := f.waiting + [at])
         case Off(_, at) =>
           if f.waiting == [] then f
           else Fifo(f.closed + [(f.waiting[0], at - f.waiting[0])], f.waiting[1..])
  }

  function FifoRun(f: Fifo, key: Key, es: seq<Event>): Fifo
    decreases es
  {
    if es == [] then f else FifoRun(FifoStep(f, key, es[0]), key, es[1..])
  }

  /** The places of the notes of one pitch and channel among the first n of the track. */
  function Places(notes: seq<Played>, n: nat, key: Key): (s: seq<nat>)
    requires n <= |notes|
    ensures forall k :: 0 <= k < |s| ==> s[k] < n
  {
    if n == 0 then []
    else Places(notes, n - 1, key) + if notes[n - 1].key == key then [n - 1] else []
  }

  /** Those of them that still sound, in the order of the playing list. */
  function Sounding(notes: seq<Played>, open: seq<nat>, key: Key): (s: seq<nat>)
    requires forall k :: 0 <= k < |open| ==> open[k] < |notes|
  {
    if open == [] then []
    else (if notes[open[0]].key == key then [open[0]] else []) + Sounding(notes, open[1..], key)
  }

  /** Time and tplay of the notes at the given places. */
  ghost function Spans(notes: seq<Played>, s: seq<nat>): (r: seq<(int, int)>)
    requires forall k :: 0 <= k < |s| ==> s[k] < |notes|
    ensures |r| == |s| && forall k {:trigger r[k]} :: 0 <= k < |s| ==> r[k] == (notes[s[k]].time, notes[s[k]].tplay)
  {
    seq(|s|, k requires 0 <= k < |s| && s[k] < |notes| => (notes[s[k]].time, notes[s[k]].tplay))
  }

  /** What waiting notes look like: tplay is still the time they started. */
  ghost function Begun(waiting: seq<int>): (r: seq<(int, int)>)
    ensures |r| == |waiting| && forall k {:trigger r[k]} :: 0 <= k < |r| ==> r[k] == (waiting[k], waiting[k])
  {
    seq(|waiting|, k requires 0 <= k < |waiting| => (waiting[k], waiting[k]))
  }

  /** The track agrees with the reference queue of one pitch and channel: its notes of that
      key are first the finished ones, with their lengths, and then the waiting ones. */
  ghost predicate Agrees(t: Tracked, f: Fifo, key: Key) {
    && WellFormed(t)
    && var s := Places(t.notes, |t.notes|, key);
    && Spans(t.notes, s) == f.closed + Begun(f.waiting)
    && Sounding(t.notes, t.open, key) == s[|f.closed|..]
  }

  lemma {:induction false} PlacesFrame(notes: seq<Played>, notes': seq<Played>, n: nat, key: Key)
    requires n <= |notes| && n <= |notes'| && forall k :: 0 <= k < n ==> notes'[k].key == notes[k].key
    ensures Places(notes', n, key) == Places(notes, n, key)
  {
    if n > 0 {
      PlacesFrame(notes, notes', n - 1, key);
    }
  }

  lemma {:induction false} PlacesDistinct(notes: seq<Played>, n: nat, key: Key)
    requires n <= |notes|
    ensures forall i, j :: 0 <= i < j < |Places(notes, n, key)| ==> Places(notes, n, key)[i] < Places(notes, n, key)[j]
  {
    if n > 0 {
      PlacesDistinct(notes, n - 1, key);
    }
  }

  lemma {:induction false} SoundingFrame(notes: seq<Played>, notes': seq<Played>, open: seq<nat>, key: Key)
    requires forall k :: 0 <= k < |open| ==> open[k] < |notes| && open[k] < |notes'|
    requires forall k :: 0 <= k < |open| ==> notes'[open[k]].key == notes[open[k]].key
    ensures Sounding(notes', open, key) == Sounding(notes, open, key)
  {
    if open != [] {
      SoundingFrame(notes, notes', open[1..], key);
    }
  }

  lemma {:induction false} SoundingSnoc(notes: seq<Played>, open: seq<nat>, n: nat, key: Key)
    requires n < |notes| && forall k :: 0 <= k < |open| ==> open[k] < |notes|
    ensures Sounding(notes, open + [n], key) ==
            Sounding(notes, open, key) + if notes[n].key == key then [n] else []
  {
    if open == [] {
      assert [n][1..] == [];
    } else {
      assert (open + [n])[1..] == open[1..] + [n];
      SoundingSnoc(notes, open[1..], n, key);
    }
  }

  lemma SoundingCons(notes: seq<Played>, n: nat, rest: seq<nat>, key: Key)
    requires n < |notes| && forall k :: 0 <= k < |rest| ==> rest[k] < |notes|
    ensures Sounding(notes, [n] + rest, key) ==
            (if notes[n].key == key then [n] else []) + Sounding(notes, rest, key)
  {
    assert ([n] + rest)[1..] == rest;
  }

  /** The first match is the first sounding note of its key. */
  lemma {:induction false} SoundingFirst(notes: seq<Played>, open: seq<nat>, key: Key)
    requires forall k :: 0 <= k < |open| ==> open[k] < |notes|
    ensures var k := FirstMatch(notes, open, key);
            if k == |open| then Sounding(notes, open, key) == []
            else notes[open[k]].key == key && Sounding(notes, open, key) != [] &&
                 Sounding(notes, open, key)[0] == open[k]
  {
    if open != [] && notes[open[0]].key != key {
      SoundingFirst(notes, open[1..], key);
    }
  }

  /** Taking it out takes out the first sounding note of its key, and nothing of any other. */
  lemma {:induction false} SoundingRemove(notes: seq<Played>, open: seq<nat>, key: Key, other: Key)
    requires forall k :: 0 <= k < |open| ==> open[k] < |notes|
    requires FirstMatch(notes, open, key) < |open|
    ensures var k := FirstMatch(notes, open, key);
            var s := Sounding(notes, open, other);
            Sounding(notes, open[..k] + open[k + 1..], other) ==
            if other == key then (if s == [] then [] else s[1..]) else s
  {
    hide *;
    var k, n, tail := FirstMatch(notes, open, key), open[0], open[1..];
    assert open == [n] + tail;
    FirstMatchCons(notes, open, key);
    SoundingCons(notes, n, tail, other);
    if k == 0 {
      assert open[..0] + open[1..] == tail;
    } else {
      SoundingRemove(notes, tail, key, other);
      var rest := tail[..k - 1] + tail[k..];
      assert open[..k] + open[k + 1..] == [n] + rest;
      SoundingCons(notes, n, rest, other);
      Onwards(if notes[n].key == other then [n] else [], Sounding(notes, tail, other), Sounding(notes, rest, other),
              key == other);
    }
  }

  lemma FirstMatchCons(notes: seq<Played>, open: seq<nat>, key: Key)
    requires open != [] && forall k :: 0 <= k < |open| ==> open[k] < |notes|
    ensures FirstMatch(notes, open, key) ==
            if notes[open[0]].key == key then 0 else 1 + FirstMatch(notes, open[1..], key)
  {
  }

  lemma Onwards(first: seq<nat>, s: seq<nat>, rest: seq<nat>, same: bool)
    requires rest == (if same then (if s == [] then [] else s[1..]) else s) && (same ==> first == [])
    ensures first + rest == if same then (if first + s == [] then [] else (first + s)[1..]) else first + s
  {
  }

  lemma SpansFrame(notes: seq<Played>, notes': seq<Played>, s: seq<nat>)
    requires forall k :: 0 <= k < |s| ==> s[k] < |notes| && s[k] < |notes'| && notes'[s[k]] == notes[s[k]]
    ensures Spans(notes', s) == Spans(notes, s)
  {
  }

  lemma OnAgrees(t: Tracked, f: Fifo, key: Key, e: Event)
    requires Agrees(t, f, key) && e.On?
    ensures Agrees(Step(t, e), FifoStep(f, key, e), key)
  {
    hide Sounding, Spans, Begun;
    var t', n := Step(t, e), |t.notes|;
    var s := Places(t.notes, n, key);
    PlacesFrame(t.notes, t'.notes, n, key);
    SoundingFrame(t.notes, t'.notes, t.open, key);
    SoundingSnoc(t'.notes, t.open, n, key);
    SpansFrame(t.notes, t'.notes, s);
    assert t'.notes[n].key == e.key;
    if e.key == key {
      assert Places(t'.notes, n + 1, key) == s + [n];
      assert Spans(t'.notes, s + [n]) == Spans(t'.notes, s) + [(e.at, e.at)];
      assert Begun(f.waiting + [e.at]) == Begun(f.waiting) + [(e.at, e.at)];
    } else {
      assert Places(t'.notes, n + 1, key) == s + [] == s;
    }
  }

  lemma MissAgrees(t: Tracked, f: Fifo, key: Key, e: Event)
    requires Agrees(t, f, key) && e.Off? && FirstMatch(t.notes, t.open, e.key) == |t.open|
    ensures Agrees(Step(t, e), FifoStep(f, key, e), key)
  {
    SoundingFirst(t.notes, t.open, e.key);
  }

  /** What does not touch the notes of a key leaves its queue alone. */
  lemma UntouchedAgrees(t: Tracked, t': Tracked, f: Fifo, key: Key)
    requires Agrees(t, f, key) && WellFormed(t') && |t'.notes| == |t.notes|
    requires forall k :: 0 <= k < |t.notes| ==> t'.notes[k].key == t.notes[k].key
    requires forall k :: 0 <= k < |t.notes| && t.notes[k].key == key ==> t'.notes[k] == t.notes[k]
    requires Sounding(t.notes, t'.open, key) == Sounding(t.notes, t.open, key)
    ensures Agrees(t', f, key)
  {
    hide Sounding, Spans, Begun, Places;
    PlacesFrame(t.notes, t'.notes, |t.notes|, key);
    SoundingFrame(t.notes, t'.notes, t'.open, key);
    PlacesKey(t.notes, |t.notes|, key);
    SpansFrame(t.notes, t'.notes, Places(t.notes, |t.notes|, key));
  }

  lemma OtherAgrees(t: Tracked, f: Fifo, key: Key, e: Event)
    requires Agrees(t, f, key) && e.Off? && e.key != key && FirstMatch(t.notes, t.open, e.key) < |t.open|
    ensures Agrees(Step(t, e), FifoStep(f, key, e), key)
  {
    hide Agrees, Sounding, FirstMatch;
    AgreesWellFormed(t, f, key);
    SoundingFirst(t.notes, t.open, e.key);
    SoundingRemove(t.notes, t.open, e.key, key);
    UntouchedAgrees(t, Step(t, e), f, key);
  }

  /** The first of the waiting notes is finished. */
  lemma Finished(closed: seq<(int, int)>, waiting: seq<int>, x: (int, int))
    requires waiting != []
    ensures (closed + Begun(waiting))[|closed|] == (waiting[0], waiting[0])
    ensures (closed + Begun(waiting))[|closed| := x] == closed + [x] + Begun(waiting[1..])
  {
    assert Begun(waiting) == [(waiting[0], waiting[0])] + Begun(waiting[1..]);
  }

  lemma HitStep(t: Tracked, e: Event)
    requires WellFormed(t) && e.Off? && FirstMatch(t.notes, t.open, e.key) < |t.open|
    ensures var k, t' := FirstMatch(t.notes, t.open, e.key), Step(t, e);
            var n := t.open[k];
            && t'.notes == t.notes[n := t.notes[n].(tplay := e.at - t.notes[n].tplay)]
            && t'.open == t.open[..k] + t.open[k + 1..]
  {
    hide FirstMatch;
  }

  lemma FifoHit(f: Fifo, key: Key, e: Event)
    requires e.Off? && e.key == key && f.waiting != []
    ensures FifoStep(f, key, e) == Fifo(f.closed + [(f.waiting[0], e.at - f.waiting[0])], f.waiting[1..])
  {
  }

  /** What agreement says of the first sounding note of a key. */
  lemma AgreesFirst(t: Tracked, f: Fifo, key: Key, n: nat)
    requires Agrees(t, f, key) && Sounding(t.notes, t.open, key) != [] && Sounding(t.notes, t.open, key)[0] == n
    ensures var s, c := Places(t.notes, |t.notes|, key), |f.closed|;
            && Spans(t.notes, s) == f.closed + Begun(f.waiting) && f.waiting != []
            && c < |s| && s[c] == n < |t.notes| && t.notes[n].time == t.notes[n].tplay == f.waiting[0]
            && Sounding(t.notes, t.open, key)[1..] == s[c + 1..]
  {
    hide Sounding, Places;
    var s, c := Places(t.notes, |t.notes|, key), |f.closed|;
    assert s[c..][0] == s[c] && s[c..][1..] == s[c + 1..];
    assert Spans(t.notes, s)[c] == (f.closed + Begun(f.waiting))[c];
  }

  lemma AgreesFrom(t: Tracked, f: Fifo, key: Key, s: seq<nat>)
    requires WellFormed(t) && s == Places(t.notes, |t.notes|, key)
    requires Spans(t.notes, s) == f.closed + Begun(f.waiting) && Sounding(t.notes, t.open, key) == s[|f.closed|..]
    ensures Agrees(t, f, key)
  {
    hide Sounding, Places, Spans, Begun;
  }

  /** The places of its key stay, and the first of them is not sounding any more. */
  lemma HitPlaces(t: Tracked, e: Event)
    requires WellFormed(t) && e.Off? && FirstMatch(t.notes, t.open, e.key) < |t.open|
    ensures var t', key := Step(t, e), e.key;
            && |t'.notes| == |t.notes| && Places(t'.notes, |t'.notes|, key) == Places(t.notes, |t.notes|, key)
            && Sounding(t.notes, t.open, key) != []
            && Sounding(t.notes, t.open, key)[0] == t.open[FirstMatch(t.notes, t.open, key)]
            && Sounding(t'.notes, t'.open, key) == Sounding(t.notes, t.open, key)[1..]
  {
    hide Sounding, Places, FirstMatch, Step;
    var t' := Step(t, e);
    HitStep(t, e);
    SoundingFirst(t.notes, t.open, e.key);
    SoundingRemove(t.notes, t.open, e.key, e.key);
    PlacesFrame(t.notes, t'.notes, |t.notes|, e.key);
    SoundingFrame(t.notes, t'.notes, t'.open, e.key);
  }

  /** Its length is filled in, and nothing else is changed. */
  lemma HitSpans(t: Tracked, e: Event, c: nat)
    requires WellFormed(t) && e.Off? && FirstMatch(t.notes, t.open, e.key) < |t.open|
    requires var s := Places(t.notes, |t.notes|, e.key);
             c < |s| && s[c] == t.open[FirstMatch(t.notes, t.open, e.key)]
    ensures var t', s := Step(t, e), Places(t.notes, |t.notes|, e.key);
            && |t'.notes| == |t.notes|
            && Spans(t'.notes, s) == Spans(t.notes, s)[c := (t.notes[s[c]].time, e.at - t.notes[s[c]].tplay)]
  {
    hide Sounding, Spans, Places, FirstMatch, Step;
    var t', s := Step(t, e), Places(t.notes, |t.notes|, e.key);
    HitStep(t, e);
    PlacesDistinct(t.notes, |t.notes|, e.key);
    OneChanged(t.notes, t'.notes, s, c);
  }

  lemma HitAgrees(t: Tracked, f: Fifo, e: Event)
    requires Agrees(t, f, e.key) && e.Off? && FirstMatch(t.notes, t.open, e.key) < |t.open|
    ensures Agrees(Step(t, e), FifoStep(f, e.key, e), e.key)
  {
    AgreesWellFormed(t, f, e.key);
    var n := t.open[FirstMatch(t.notes, t.open, e.key)];
    hide *;
    HitPlaces(t, e);
    AgreesFirst(t, f, e.key, n);
    HitSpans(t, e, |f.closed|);
    FifoHit(f, e.key, e);
    Finished(f.closed, f.waiting, (f.waiting[0], e.at - f.waiting[0]));
    AgreesFrom(Step(t, e), FifoStep(f, e.key, e), e.key, Places(t.notes, |t.notes|, e.key));
  }

  lemma OneChanged(notes: seq<Played>, notes': seq<Played>, s: seq<nat>, c: nat)
    requires (forall k :: 0 <= k < |s| ==> s[k] < |notes|) && |notes'| == |notes| && c < |s|
    requires forall i, j :: 0 <= i < j < |s| ==> s[i] < s[j]
    requires notes' == notes[s[c] := notes'[s[c]]]
    ensures Spans(notes', s) == Spans(notes, s)[c := (notes'[s[c]].time, notes'[s[c]].tplay)]
  {
    assert forall k :: 0 <= k < |s| && k != c ==> s[k] != s[c];
  }

  lemma OffAgrees(t: Tracked, f: Fifo, key: Key, e: Event)
    requires Agrees(t, f, key) && e.Off?
    ensures Agrees(Step(t, e), FifoStep(f, key, e), key)
  {
    hide Agrees, Step, FifoStep;
    AgreesWellFormed(t, f, key);
    if FirstMatch(t.notes, t.open, e.key) == |t.open| {
      MissAgrees(t, f, key, e);
    } else if e.key == key {
      HitAgrees(t, f, e);
    } else {
      OtherAgrees(t, f, key, e);
    }
  }

  lemma AgreesWellFormed(t: Tracked, f: Fifo, key: Key)
    requires Agrees(t, f, key)
    ensures WellFormed(t)
  {
  }

  lemma {:induction false} PlacesKey(notes: seq<Played>, n: nat, key: Key)
    requires n <= |notes|
    ensures forall k :: 0 <= k < |Places(notes, n, key)| ==> notes[Places(notes, n, key)[k]].key == key
  {
    if n > 0 {
      PlacesKey(notes, n - 1, key);
    }
  }

  /** For every pitch and channel and every run of events, the n-th note-off that finds a
      note sounding ends the n-th note-on, whatever happens to other pitches and channels
      in between, and the note gets the time between the two as its length. */
  lemma {:induction false} RunIsFifo(t: Tracked, f: Fifo, key: Key, es: seq<Event>)
    requires WellFormed(t) && Agrees(t, f, key)
    ensures Agrees(Run(t, es), FifoRun(f, key, es), key)
    decreases es
  {
    hide Agrees, Step, FifoStep;
    AgreesWellFormed(t, f, key);
    if es != [] {
      if es[0].On? {
        OnAgrees(t, f, key, es[0]);
      } else {
        OffAgrees(t, f, key, es[0]);
      }
      RunIsFifo(Step(t, es[0]), FifoStep(f, key, es[0]), key, es[1..]);
    }
  }

  /** From an empty track. */
  lemma TrackIsFifo(key: Key, es: seq<Event>)
    ensures Agrees(Run(Tracked([], [], 0), es), FifoRun(Fifo([], []), key, es), key)
  {
    var t, f := Tracked([], [], 0), Fifo([], []);
    assert Spans([], []) == [] + Begun([]);
    RunIsFifo(t, f, key, es);
  }

  lemma StoppedMeans(t: Tracked, key: Key, now: int, k: nat, t': Tracked)
    requires WellFormed(t) && k == FirstMatch(t.notes, t.open, key)
    requires if k == |t.open| then t' == t.(misses := t.misses + 1)
             else var n := t.open[k];
                  t' == Tracked(t.notes[n := t.notes[n].(tplay := now - t.notes[n].tplay)],
                                t.open[..k] + t.open[k + 1..], t.misses)
    ensures t' == NoteStopped(t, key, now)
  {
    hide FirstMatch;
  }

  /** The note-ons among events. */
  function Starts(es: seq<Event>): seq<Event> {
    if es == [] then [] else Starts(es[..|es| - 1]) + if es[|es| - 1].On? then [es[|es| - 1]] else []
  }

  lemma RunSnoc(t: Tracked, es: seq<Event>)
    requires WellFormed(t) && es != []
    ensures WellFormed(Run(t, es[..|es| - 1])) && Run(t, es) == Step(Run(t, es[..|es| - 1]), es[|es| - 1])
    decreases es
  {
    hide Step;
    if |es| == 1 {
      assert es[1..] == [] && es[..0] == [];
      assert Run(t, es) == Run(Step(t, es[0]), []);
    } else {
      var rest := es[1..];
      RunSnoc(Step(t, es[0]), rest);
      assert es[..|es| - 1][1..] == rest[..|rest| - 1] && es[..|es| - 1] != [];
    }
  }

  /** The track holds the note-ons in order, with their velocities and times; of the note-offs,
      those that missed are counted, and each of the others has ended one note. */
  lemma {:induction false} TrackHolds(es: seq<Event>)
    ensures var t := Run(Tracked([], [], 0), es);
            && WellFormed(t) && |t.notes| == |Starts(es)|
            && (forall k :: 0 <= k < |t.notes| ==>
                  var n, e := t.notes[k], Starts(es)[k];
                  e.On? && n.key == e.key && n.vel == e.vel && n.time == e.at)
            && |t.open| + (|es| - |Starts(es)|) == |Starts(es)| + t.misses
    decreases |es|
  {
    if es != [] {
      TrackHolds(es[..|es| - 1]);
      RunSnoc(Tracked([], [], 0), es);
      hide FirstMatch, Run, Starts;
      StartsSnoc(es);
    }
  }

  lemma StartsSnoc(es: seq<Event>)
    requires es != []
    ensures Starts(es) == Starts(es[..|es| - 1]) + if es[|es| - 1].On? then [es[|es| - 1]] else []
  {
  }

  ghost function PlayedOf(n: Note): Played
    reads n
  {
    Played(Key(n.pitch, n.chan), n.vel, n.time, n.tplay)
  }

  /** The globals of the first stage of midi2abc.c: the notes of the current track, and the
      list behind playinghead and playingtail. */
  class Recorder {
    const playing: NoteList
    var notes: seq<Note>
    var misses: nat
    ghost var open: seq<nat>

    ghost predicate Valid()
      reads this, playing, playing.nodes
    {
      && playing.Valid()
      && (forall i, j :: 0 <= i < j < |notes| ==> notes[i] != notes[j])
      && |playing.nodes| == |open|
      && (forall k :: 0 <= k < |open| ==> open[k] < |notes|)
      && (forall k {:trigger playing.nodes[k]} :: 0 <= k < |open| ==> playing.nodes[k].note == notes[open[k]])
    }

    ghost function State(): (t: Tracked)
      reads this, playing, playing.nodes, notes
      requires Valid()
      ensures WellFormed(t) && t.open == open && t.misses == misses && |t.notes| == |notes|
      ensures forall k {:trigger t.notes[k]} :: 0 <= k < |notes| ==> t.notes[k] == PlayedOf(notes[k])
    {
      Tracked(seq(|notes|, k requires 0 <= k < |notes| reads this, notes => PlayedOf(notes[k])), open, misses)
    }

    constructor ()
      ensures Valid() && State() == Tracked([], [], 0) && fresh(playing) && fresh(playing.nodes)
    {
      playing := new NoteList();
      notes, misses, open := [], 0, [];
    }

    /** `addnote`, with `noteplaying` at its end. */
    method AddNote(p: int, ch: int, v: int, currtime: int)
      requires Valid()
      modifies this, playing, playing.nodes
      ensures Valid() && State() == NoteStarted(old(State()), Key(p, ch), v, currtime)
    {
      var newnote := new Note(p, ch, v, currtime);
      hide Link;
      hide NoteList.Valid;
      ghost var before := playing.Contents();
      playing.Append(newnote);
      assert forall k :: 0 <= k < |open| ==> playing.nodes[k].note == before[k] by {
        assert forall k :: 0 <= k < |open| ==> playing.Contents()[k] == before[k];
      }
      assert playing.Contents()[|open|] == newnote;
      open := open + [|notes|];
      notes := notes + [newnote];
    }

    /** The search of `notestop`. */
    method Find(p: int, ch: int) returns (i: Node?, ghost k: nat)
      requires Valid()
      ensures k == FirstMatch(State().notes, open, Key(p, ch))
      ensures if k < |open| then open[k] < |notes| && i == playing.nodes[k] && i.note == notes[open[k]] else i == null
    {
      i := playing.head;
      k := 0;
      assert open[0..] == open;
      while i != null && !(i.note.pitch == p && i.note.chan == ch)
        invariant k <= |open| && (if k < |open| then i == playing.nodes[k] else i == null)
        invariant FirstMatch(State().notes, open, Key(p, ch)) ==
                  k + FirstMatch(State().notes, open[k..], Key(p, ch))
        decreases |open| - k
      {
        assert open[k..][1..] == open[k + 1..];
        assert i == playing.nodes[k] && i.next == Link(playing.nodes, k + 1);
        i := i.next;
        k := k + 1;
      }
    }

    /** Filling in the length of a note that stops. */
    method FillIn(note: Note, currtime: int, ghost n: nat)
      requires Valid() && n < |notes| && notes[n] == note
      modifies note`tplay
      ensures Valid()
      ensures var t := old(State());
              State() == t.(notes := t.notes[n := t.notes[n].(tplay := currtime - t.notes[n].tplay)])
    {
      note.tplay := currtime - note.tplay;
      assert forall j :: 0 <= j < |notes| && j != n ==> notes[j] != note;
    }

    /** Taking a note off the playing list. */
    method Forget(i: Node, ghost k: nat)
      requires Valid() && k < |open| && playing.nodes[k] == i
      modifies this`open, playing, playing.nodes
      ensures Valid()
      ensures State() == old(State()).(open := old(State()).open[..k] + old(State()).open[k + 1..])
    {
      hide NoteList.Valid, Chained, NoRepeats;
      ghost var before := playing.nodes;
      playing.Unlink(i, k);
      open := open[..k] + open[k + 1..];
      forall j {:trigger playing.nodes[j]} | 0 <= j < |open|
        ensures playing.nodes[j].note == notes[open[j]]
      {
        assert playing.nodes[j] == before[if j < k then j else j + 1];
      }
    }

    /** Counting a note-off that matches nothing. */
    method Miss()
      requires Valid()
      modifies this`misses
      ensures Valid() && State() == old(State()).(misses := old(misses) + 1)
    {
      misses := misses + 1;
    }

    /** `notestop` */
    method NoteStop(p: int, ch: int, currtime: int)
      requires Valid()
      modifies this, playing, playing.nodes, notes
      ensures Valid() && State() == NoteStopped(old(State()), Key(p, ch), currtime)
    {
      hide *;
      var i, k := Find(p, ch);
      ghost var t := State();
      if i == null {
        Miss();
        StoppedMeans(t, Key(p, ch), currtime, k, State());
        return;
      }
      FillIn(i.note, currtime, open[k]);
      Forget(i, k);
      StoppedMeans(t, Key(p, ch), currtime, k, State());
    }
  }
}
