/** Sharing out the notes of a track between voices (midi2abc.c, `label_split_voices`), so
    that in one voice notes that overlap start and stop together. */
module Splits {
  import opened NoteLists

  /** When a note starts (posnum) and how long it lasts (playnum). */
  datatype Timed = Timed(pos: int, len: int)

  function End(t: Timed): int {
    t.pos + t.len
  }

  /** A voice may have b after a: at the same time exactly, or when a is over. */
  predicate Together(a: Timed, b: Timed) {
    a == b || b.pos >= End(a)
  }

  /** The last note so far in voice k, or -1. */
  function LastIn(voices: seq<nat>, k: nat): (m: int)
    ensures -1 <= m < |voices| && (m >= 0 ==> voices[m] == k)
    ensures forall i :: m < i < |voices| ==> voices[i] != k
  {
    if voices == [] then -1
    else if voices[|voices| - 1] == k then |voices| - 1
    else LastIn(voices[..|voices| - 1], k)
  }

  /** How many voices are in use. */
  function Used(voices: seq<nat>): (c: nat)
    ensures forall i :: 0 <= i < |voices| ==> voices[i] < c
  {
    if voices == [] then 0
    else
      var before := Used(voices[..|voices| - 1]);
      if voices[|voices| - 1] < before then before else voices[|voices| - 1] + 1
  }

  predicate Fits(ts: seq<Timed>, voices: seq<nat>, k: nat)
    requires |voices| < |ts|
  {
    LastIn(voices, k) < 0 || Together(ts[LastIn(voices, k)], ts[|voices|])
  }

  function FirstFit(ts: seq<Timed>, voices: seq<nat>, k: nat): (r: nat)
    requires |voices| < |ts| && k <= Used(voices)
    ensures k <= r <= Used(voices) && (forall j :: k <= j < r ==> !Fits(ts, voices, j))
    ensures r < Used(voices) ==> Fits(ts, voices, r)
    decreases Used(voices) - k
  {
    if k == Used(voices) || Fits(ts, voices, k) then k else FirstFit(ts, voices, k + 1)
  }

  /** The voice for the next note: that of the note before, or the first where it fits, or a
      new one. */
  function Choice(ts: seq<Timed>, voices: seq<nat>): (k: nat)
    requires |voices| < |ts|
    ensures k <= Used(voices)
  {
    if voices == [] then 0
    else if Fits(ts, voices, voices[|voices| - 1]) then voices[|voices| - 1]
    else FirstFit(ts, voices, 0)
  }

  /** The voices of the first n notes, if there were no limit to their number. */
  function Assigned(ts: seq<Timed>, n: nat): (voices: seq<nat>)
    requires n <= |ts|
    ensures |voices| == n
  {
    if n == 0 then [] else Assigned(ts, n - 1) + [Choice(ts, Assigned(ts, n - 1))]
  }

  /** A sharing out that keeps the rule within each voice. */
  ghost predicate Proper(ts: seq<Timed>, voices: seq<nat>) {
    && |voices| <= |ts|
    && forall i, j :: 0 <= i < j < |voices| && voices[i] == voices[j] ==> Together(ts[i], ts[j])
  }

  ghost predicate Lasting(ts: seq<Timed>) {
    forall i :: 0 <= i < |ts| ==> ts[i].len >= 0
  }

  lemma TogetherChain(a: Timed, b: Timed, c: Timed)
    requires Together(a, b) && Together(b, c) && b.len >= 0
    ensures Together(a, c)
  {
  }

  lemma ChoiceFits(ts: seq<Timed>, voices: seq<nat>)
    requires |voices| < |ts|
    ensures Fits(ts, voices, Choice(ts, voices))
  {
    hide Fits, FirstFit;
    NewVoiceFits(ts, voices);
  }

  lemma NewVoiceFits(ts: seq<Timed>, voices: seq<nat>)
    requires |voices| < |ts|
    ensures Fits(ts, voices, Used(voices))
  {
  }

  lemma ProperSnoc(ts: seq<Timed>, voices: seq<nat>, k: nat)
    requires |voices| < |ts| && Lasting(ts) && Proper(ts, voices) && Fits(ts, voices, k)
    ensures Proper(ts, voices + [k])
  {
    hide Together, LastIn;
    var m, n := LastIn(voices, k), |voices|;
    forall i | 0 <= i < n && voices[i] == k
      ensures Together(ts[i], ts[n])
    {
      assert i <= m;
      if i < m {
        TogetherChain(ts[i], ts[m], ts[n]);
      }
    }
  }

  lemma NoneProper(ts: seq<Timed>)
    ensures Proper(ts, Assigned(ts, 0))
  {
  }

  /** In every voice, notes either coincide or follow one another. */
  lemma {:induction false} AssignedProper(ts: seq<Timed>, n: nat)
    requires n <= |ts| && Lasting(ts)
    ensures Proper(ts, Assigned(ts, n))
  {
    hide *;
    if n == 0 {
      NoneProper(ts);
    } else {
      AssignedProper(ts, n - 1);
      AssignedNext(ts, n - 1);
      ChoiceFits(ts, Assigned(ts, n - 1));
      ProperSnoc(ts, Assigned(ts, n - 1), Choice(ts, Assigned(ts, n - 1)));
    }
  }

  lemma AssignedNext(ts: seq<Timed>, n: nat)
    requires n < |ts|
    ensures Assigned(ts, n + 1) == Assigned(ts, n) + [Choice(ts, Assigned(ts, n))]
  {
  }

  /** The notes before note n that it cannot share a voice with: they still sound when it
      starts, and do not coincide with it. */
  ghost function Blocking(ts: seq<Timed>, n: nat): set<nat>
    requires n < |ts|
  {
    set m: nat | m < n && !Together(ts[m], ts[n])
  }

  lemma {:induction false} DistinctInSet(s: seq<nat>, all: set<nat>)
    requires (forall i :: 0 <= i < |s| ==> s[i] in all) && forall i, j :: 0 <= i < j < |s| ==> s[i] != s[j]
    ensures |s| <= |all|
  {
    if s != [] {
      var last := s[|s| - 1];
      DistinctInSet(s[..|s| - 1], all - {last});
    }
  }

  lemma {:induction false} VoicesUsed(ts: seq<Timed>, n: nat, k: nat)
    requires n <= |ts| && k < Used(Assigned(ts, n))
    ensures LastIn(Assigned(ts, n), k) >= 0
  {
    hide Choice;
    var before := Assigned(ts, n - 1);
    AssignedNext(ts, n - 1);
    assert Assigned(ts, n)[..n - 1] == before;
    if k != Choice(ts, before) {
      VoicesUsed(ts, n - 1, k);
    }
  }

  /** The last notes of the first c voices. */
  ghost function Lasts(voices: seq<nat>, c: nat): (s: seq<nat>)
    requires forall k: nat :: k < c ==> LastIn(voices, k) >= 0
    ensures |s| == c && forall k: nat :: k < c ==> s[k] == LastIn(voices, k)
  {
    seq(c, k requires 0 <= k < c => LastIn(voices, k))
  }

  lemma LastsDistinct(voices: seq<nat>, c: nat)
    requires forall k: nat :: k < c ==> LastIn(voices, k) >= 0
    ensures forall i, j :: 0 <= i < j < c ==> Lasts(voices, c)[i] != Lasts(voices, c)[j]
  {
    forall i: nat, j: nat | i < j < c
      ensures LastIn(voices, i) != LastIn(voices, j)
    {
    }
  }

  lemma LastBlocks(ts: seq<Timed>, voices: seq<nat>, k: nat)
    requires |voices| < |ts| && !Fits(ts, voices, k)
    ensures LastIn(voices, k) >= 0 && LastIn(voices, k) in Blocking(ts, |voices|)
  {
    hide LastIn;
  }

  lemma NewVoiceBlocked(ts: seq<Timed>, voices: seq<nat>, k: nat)
    requires |voices| < |ts| && Choice(ts, voices) == Used(voices) && k < Used(voices)
    ensures !Fits(ts, voices, k)
  {
    hide Fits;
  }

  /** A new voice is opened only when at least as many notes as there are voices are in the way. */
  lemma VoicesBlock(ts: seq<Timed>, n: nat)
    requires n < |ts| && Choice(ts, Assigned(ts, n)) == Used(Assigned(ts, n))
    ensures Used(Assigned(ts, n)) <= |Blocking(ts, n)|
  {
    hide *;
    var voices := Assigned(ts, n);
    var c := Used(voices);
    forall k: nat | k < c
      ensures LastIn(voices, k) >= 0 && LastIn(voices, k) in Blocking(ts, n)
    {
      NewVoiceBlocked(ts, voices, k);
      LastBlocks(ts, voices, k);
    }
    LastsDistinct(voices, c);
    DistinctInSet(Lasts(voices, c), Blocking(ts, n));
  }

  /** With fewer than `limit` notes in the way of any note, `limit` voices do. */
  lemma {:induction false} EnoughVoices(ts: seq<Timed>, n: nat, limit: nat)
    requires n <= |ts| && forall m: nat :: m < n ==> |Blocking(ts, m)| < limit
    ensures Used(Assigned(ts, n)) <= limit
  {
    if n > 0 {
      EnoughVoices(ts, n - 1, limit);
      AssignedNext(ts, n - 1);
      var before := Assigned(ts, n - 1);
      assert Assigned(ts, n)[..n - 1] == before;
      hide Choice, Assigned, Blocking;
      if Choice(ts, before) == Used(before) {
        VoicesBlock(ts, n - 1);
      }
    }
  }

  /** The start of the next note of voice k, from note j on; of none, the end of the track. */
  function NextStart(ts: seq<Timed>, end: int, voices: seq<nat>, k: nat, j: nat): int
    requires |voices| <= |ts| && j <= |voices|
    decreases |voices| - j
  {
    if j == |voices| then end
    else if voices[j] == k then ts[j].pos
    else NextStart(ts, end, voices, k, j + 1)
  }

  /** The gap from note i to the next one of its voice. */
  function Gap(ts: seq<Timed>, end: int, voices: seq<nat>, i: nat): int
    requires i < |voices| <= |ts|
  {
    NextStart(ts, end, voices, voices[i], i + 1) - ts[i].pos
  }

  /** The sum of the gaps of the notes of voice k, from note j on. */
  function GapSum(ts: seq<Timed>, end: int, voices: seq<nat>, k: nat, j: nat): int
    requires |voices| <= |ts| && j <= |voices|
    decreases |voices| - j
  {
    if j == |voices| then 0
    else (if voices[j] == k then Gap(ts, end, voices, j) else 0) + GapSum(ts, end, voices, k, j + 1)
  }

  /** The gaps lead from the first note of a voice to the end of the track. */
  lemma {:induction false} GapsTelescope(ts: seq<Timed>, end: int, voices: seq<nat>, k: nat, j: nat)
    requires |voices| <= |ts| && j <= |voices|
    ensures NextStart(ts, end, voices, k, j) + GapSum(ts, end, voices, k, j) == end
    decreases |voices| - j
  {
    if j < |voices| {
      GapsTelescope(ts, end, voices, k, j + 1);
    }
  }

  /** What one more note changes: only where the last note of its voice leads. */
  lemma {:induction false} NextStartSnoc(ts: seq<Timed>, end: int, voices: seq<nat>, v: nat, k: nat, j: nat)
    requires |voices| < |ts| && j <= |voices|
    ensures NextStart(ts, end, voices + [v], k, j) ==
            if k == v && LastIn(voices, k) < j then ts[|voices|].pos else NextStart(ts, end, voices, k, j)
    decreases |voices| - j
  {
    if j < |voices| {
      NextStartSnoc(ts, end, voices, v, k, j + 1);
    } else {
      assert NextStart(ts, end, voices + [v], k, j + 1) == end;
    }
  }

  /** The size of the arrays: voices there is room for. */
  const VOICES: nat := 10

  ghost function Times(notes: seq<Note>): (r: seq<Timed>)
    reads notes
    ensures |r| == |notes| && forall k :: 0 <= k < |notes| ==> r[k] == Timed(notes[k].posnum, notes[k].playnum)
  {
    seq(|notes|, k requires 0 <= k < |notes| reads notes => Timed(notes[k].posnum, notes[k].playnum))
  }

  ghost predicate DistinctNotes(notes: seq<Note>) {
    forall i, j :: 0 <= i < j < |notes| ==> notes[i] != notes[j]
  }

  /** What the arrays hold for one voice when the notes of `voices` have been labelled. */
  ghost predicate VoiceHas(ts: seq<Timed>, end: int, voices: seq<nat>, k: nat,
                           start: int, fin: int, lastpos: int, existing: int, gap: int)
    requires 0 < |voices| <= |ts|
  {
    if k >= Used(voices) then existing == 0
    else
      var m := LastIn(voices, k);
      && m >= 0 && start == ts[m].pos && fin == End(ts[m]) && lastpos == ts[m].pos && existing > 0
      && NextStart(ts, end, voices, k, 0) == ts[0].pos + gap
  }

  ghost predicate Summary(ts: seq<Timed>, end: int, voices: seq<nat>, start: seq<int>, fin: seq<int>, lastpos: seq<int>,
                          existing: seq<int>, gap: seq<int>)
  {
    && 0 < |voices| <= |ts| && |start| == |fin| == |lastpos| == |existing| == |gap| == VOICES
    && Used(voices) <= VOICES
    && forall k: nat {:trigger start[k]} {:trigger existing[k]} :: k < VOICES ==>
         VoiceHas(ts, end, voices, k, start[k], fin[k], lastpos[k], existing[k], gap[k])
  }

  /** The fields splitnum and xnum. */
  ghost function Links(notes: seq<Note>): (r: seq<(int, int)>)
    reads notes
    ensures |r| == |notes| && forall k :: 0 <= k < |notes| ==> r[k] == (notes[k].splitnum, notes[k].xnum)
  {
    seq(|notes|, k requires 0 <= k < |notes| reads notes => (notes[k].splitnum, notes[k].xnum))
  }

  /** prevnote and the fields of the notes labelled so far. */
  ghost predicate Linked(ts: seq<Timed>, end: int, voices: seq<nat>, notes: seq<Note>, prev: seq<Note?>, links: seq<(int, int)>) {
    && |voices| <= |ts| == |notes| == |links| && |prev| == VOICES
    && (forall k {:trigger prev[k]} :: 0 <= k < VOICES ==>
          prev[k] == if LastIn(voices, k) < 0 then null else notes[LastIn(voices, k)])
    && (forall i {:trigger links[i]} :: 0 <= i < |voices| ==> links[i] == (voices[i], Gap(ts, end, voices, i)))
  }

  lemma LastInSnoc(voices: seq<nat>, v: nat, k: nat)
    ensures LastIn(voices + [v], k) == if k == v then |voices| else LastIn(voices, k)
    ensures Used(voices + [v]) == if v < Used(voices) then Used(voices) else v + 1
  {
    assert (voices + [v])[..|voices|] == voices;
  }

  lemma GapSnoc(ts: seq<Timed>, end: int, voices: seq<nat>, v: nat, i: nat)
    requires |voices| < |ts| && i <= |voices|
    ensures Gap(ts, end, voices + [v], i) ==
            if i == |voices| then end - ts[i].pos
            else if i == LastIn(voices, v) then ts[|voices|].pos - ts[i].pos
            else Gap(ts, end, voices, i)
  {
    if i < |voices| {
      NextStartSnoc(ts, end, voices, v, voices[i], i + 1);
    }
  }

  /** What `label_split` does to the fields of the notes. */
  function Relinked(ts: seq<Timed>, end: int, links: seq<(int, int)>, n: nat, k: nat, m: int): seq<(int, int)>
    requires n < |ts| == |links| && m < n
    ensures |Relinked(ts, end, links, n, k, m)| == |links|
  {
    var linked := links[n := (k, end - ts[n].pos)];
    if m < 0 then linked else linked[m := (links[m].0, ts[n].pos - ts[m].pos)]
  }

  lemma RelinkedAre(ts: seq<Timed>, end: int, links: seq<(int, int)>, n: nat, k: nat, m: int)
    requires n < |ts| == |links| && m < n
    ensures forall i :: 0 <= i < |links| ==>
              Relinked(ts, end, links, n, k, m)[i] ==
              if i == n then (k, end - ts[n].pos)
              else if i == m then (links[m].0, ts[n].pos - ts[m].pos)
              else links[i]
  {
  }

  lemma LinkSnoc(ts: seq<Timed>, end: int, voices: seq<nat>, links: seq<(int, int)>, k: nat, i: nat)
    requires |voices| < |ts| == |links| && i <= |voices|
    requires forall j {:trigger links[j]} :: 0 <= j < |voices| ==> links[j] == (voices[j], Gap(ts, end, voices, j))
    ensures Relinked(ts, end, links, |voices|, k, LastIn(voices, k))[i] == ((voices + [k])[i], Gap(ts, end, voices + [k], i))
  {
    hide Gap, Relinked, LastIn;
    RelinkedAre(ts, end, links, |voices|, k, LastIn(voices, k));
    GapSnoc(ts, end, voices, k, i);
  }

  lemma LinkedSnoc(ts: seq<Timed>, end: int, voices: seq<nat>, notes: seq<Note>, prev: seq<Note?>, links: seq<(int, int)>, k: nat)
    requires Linked(ts, end, voices, notes, prev, links) && |voices| < |ts| && k < VOICES
    ensures var n := |voices|;
            Linked(ts, end, voices + [k], notes, prev[k := notes[n]], Relinked(ts, end, links, n, k, LastIn(voices, k)))
  {
    hide LastIn, Gap, Relinked;
    var prev' := prev[k := notes[|voices|]];
    forall j {:trigger prev'[j]} | 0 <= j < VOICES
      ensures prev'[j] == if LastIn(voices + [k], j) < 0 then null else notes[LastIn(voices + [k], j)]
    {
      LastInSnoc(voices, k, j);
    }
    forall i | 0 <= i < |voices + [k]|
      ensures Relinked(ts, end, links, |voices|, k, LastIn(voices, k))[i] == ((voices + [k])[i], Gap(ts, end, voices + [k], i))
    {
      LinkSnoc(ts, end, voices, links, k, i);
    }
  }

  lemma {:induction false} UnusedVoice(ts: seq<Timed>, end: int, voices: seq<nat>, k: nat, j: nat)
    requires |voices| <= |ts| && j <= |voices| && Used(voices) <= k
    ensures NextStart(ts, end, voices, k, j) == end && LastIn(voices, k) < 0
    decreases |voices| - j
  {
    if j < |voices| {
      UnusedVoice(ts, end, voices, k, j + 1);
    }
  }

  /** The arrays after one more note in voice k. */
  lemma SummarySnoc(ts: seq<Timed>, end: int, voices: seq<nat>, start: seq<int>, fin: seq<int>, lastpos: seq<int>,
                    existing: seq<int>, gap: seq<int>, k: nat)
    requires Summary(ts, end, voices, start, fin, lastpos, existing, gap)
    requires |voices| < |ts| && k < VOICES && k <= Used(voices)
    ensures var n := |voices|;
            Summary(ts, end, voices + [k], start[k := ts[n].pos], fin[k := ts[n].pos + ts[n].len], lastpos[k := ts[n].pos],
                    existing[k := existing[k] + 1], if existing[k] == 0 then gap[k := ts[n].pos - ts[0].pos] else gap)
  {
    hide LastIn, Used, VoiceHas;
    LastInSnoc(voices, k, k);
    var n, voices' := |voices|, voices + [k];
    var gap' := if existing[k] == 0 then gap[k := ts[n].pos - ts[0].pos] else gap;
    forall j: nat | j < VOICES
      ensures VoiceHas(ts, end, voices', j, start[k := ts[n].pos][j], fin[k := ts[n].pos + ts[n].len][j],
                       lastpos[k := ts[n].pos][j], existing[k := existing[k] + 1][j], gap'[j])
    {
      if j == k {
        SameVoice(ts, end, voices, k, start[k], fin[k], lastpos[k], existing[k], gap[k]);
      } else {
        OtherVoice(ts, end, voices, k, j, start[j], fin[j], lastpos[j], existing[j], gap[j]);
      }
    }
  }

  lemma SameVoice(ts: seq<Timed>, end: int, voices: seq<nat>, k: nat, start: int, fin: int, lastpos: int, existing: int, gap: int)
    requires 0 < |voices| < |ts| && VoiceHas(ts, end, voices, k, start, fin, lastpos, existing, gap) && k <= Used(voices)
    ensures var t := ts[|voices|];
            VoiceHas(ts, end, voices + [k], k, t.pos, t.pos + t.len, t.pos, existing + 1,
                     if existing == 0 then t.pos - ts[0].pos else gap)
  {
    hide LastIn, Used, NextStart;
    LastInSnoc(voices, k, k);
    NextStartSnoc(ts, end, voices, k, k, 0);
    if k == Used(voices) {
      UnusedVoice(ts, end, voices, k, 0);
    }
  }

  lemma OtherVoice(ts: seq<Timed>, end: int, voices: seq<nat>, v: nat, k: nat,
                   start: int, fin: int, lastpos: int, existing: int, gap: int)
    requires 0 < |voices| < |ts| && VoiceHas(ts, end, voices, k, start, fin, lastpos, existing, gap)
    requires v <= Used(voices) && k != v
    ensures VoiceHas(ts, end, voices + [v], k, start, fin, lastpos, existing, gap)
  {
    hide LastIn, Used, NextStart;
    LastInSnoc(voices, v, k);
    NextStartSnoc(ts, end, voices, v, k, 0);
  }

  lemma LinkedVoices(ts: seq<Timed>, end: int, voices: seq<nat>, notes: seq<Note>, prev: seq<Note?>, links: seq<(int, int)>)
    requires Linked(ts, end, voices, notes, prev, links)
    ensures forall i :: 0 <= i < |voices| ==> links[i].0 == voices[i]
  {
    hide Gap, LastIn;
  }

  /** The sum of the xnums of the notes with splitnum k, from note j on. */
  function XnumSum(links: seq<(int, int)>, k: nat, j: nat): int
    requires j <= |links|
    decreases |links| - j
  {
    if j == |links| then 0 else (if links[j].0 == k then links[j].1 else 0) + XnumSum(links, k, j + 1)
  }

  lemma {:induction false} SumOfGaps(ts: seq<Timed>, end: int, voices: seq<nat>, links: seq<(int, int)>, k: nat, j: nat)
    requires |voices| == |links| <= |ts| && j <= |voices|
    requires forall i :: 0 <= i < |links| ==> links[i] == (voices[i], Gap(ts, end, voices, i))
    ensures XnumSum(links, k, j) == GapSum(ts, end, voices, k, j)
    decreases |voices| - j
  {
    hide Gap;
    if j < |voices| {
      SumOfGaps(ts, end, voices, links, k, j + 1);
    }
  }

  /** Following the xnums of any one voice, from its entry in splitgap, takes exactly the time
      from the first note of the track to the end of the last one. */
  lemma XnumsTelescope(ts: seq<Timed>, end: int, voices: seq<nat>, notes: seq<Note>, prev: seq<Note?>, links: seq<(int, int)>,
                       start: seq<int>, fin: seq<int>, lastpos: seq<int>, existing: seq<int>, gap: seq<int>, k: nat)
    requires Linked(ts, end, voices, notes, prev, links) && |voices| == |links|
    requires Summary(ts, end, voices, start, fin, lastpos, existing, gap) && k < VOICES && existing[k] > 0
    ensures gap[k] + XnumSum(links, k, 0) == end - ts[0].pos
  {
    hide LastIn, Used, Gap, NextStart;
    SumOfGaps(ts, end, voices, links, k, 0);
    GapsTelescope(ts, end, voices, k, 0);
  }

  class Labeller {
    const notes: seq<Note>
    const splitstart: array<int>
    const splitend: array<int>
    const lastposnum: array<int>
    const existingsplits: array<int>
    const splitgap: array<int>
    const prevnote: array<Note?>
    var endposnum: int

    ghost predicate Apart() {
      && DistinctNotes(notes)
      && splitstart.Length == splitend.Length == lastposnum.Length == existingsplits.Length == splitgap.Length == VOICES
      && prevnote.Length == VOICES
      && splitstart != splitend && splitstart != lastposnum && splitstart != existingsplits && splitstart != splitgap
      && splitend != lastposnum && splitend != existingsplits && splitend != splitgap
      && lastposnum != existingsplits && lastposnum != splitgap && existingsplits != splitgap
    }

    ghost predicate Holds(voices: seq<nat>)
      reads this, notes, splitstart, splitend, lastposnum, existingsplits, splitgap, prevnote
      requires Apart()
    {
      && Summary(Times(notes), endposnum, voices, splitstart[..], splitend[..], lastposnum[..], existingsplits[..], splitgap[..])
      && Linked(Times(notes), endposnum, voices, notes, prevnote[..], Links(notes))
    }

    constructor (notes: seq<Note>)
      requires DistinctNotes(notes)
      ensures this.notes == notes && Apart()
      ensures fresh(splitstart) && fresh(splitend) && fresh(lastposnum) && fresh(existingsplits) && fresh(splitgap)
      ensures fresh(prevnote)
    {
      this.notes, endposnum := notes, 0;
      splitstart, splitend, lastposnum := new int[VOICES], new int[VOICES], new int[VOICES];
      existingsplits, splitgap, prevnote := new int[VOICES], new int[VOICES], new Note?[VOICES];
    }

    /** `label_split` */
    method LabelSplit(note: Note, activesplit: nat, ghost n: nat, ghost m: int)
      requires Apart() && activesplit < VOICES && n < |notes| && notes[n] == note && m < n
      requires prevnote[activesplit] == if m < 0 then null else notes[m]
      requires m >= 0 ==> lastposnum[activesplit] == notes[m].posnum
      modifies splitstart, splitend, lastposnum, existingsplits, prevnote, notes
      ensures Times(notes) == old(Times(notes))
      ensures splitstart[..] == old(splitstart[..])[activesplit := note.posnum]
      ensures splitend[..] == old(splitend[..])[activesplit := note.posnum + note.playnum]
      ensures lastposnum[..] == old(lastposnum[..])[activesplit := note.posnum]
      ensures existingsplits[..] == old(existingsplits[..])[activesplit := old(existingsplits[activesplit]) + 1]
      ensures prevnote[..] == old(prevnote[..])[activesplit := note]
      ensures Links(notes) == Relinked(Times(notes), endposnum, old(Links(notes)), n, activesplit, m)
    {
      hide *;
      ApartFacts();
      ghost var links, end := Links(notes), endposnum;
      note.splitnum := activesplit;
      splitstart[activesplit] := note.posnum;
      splitend[activesplit] := splitstart[activesplit] + note.playnum;
      if prevnote[activesplit] != null {
        prevnote[activesplit].xnum := note.posnum - lastposnum[activesplit];
      }
      lastposnum[activesplit] := note.posnum;
      prevnote[activesplit] := note;
      note.xnum := endposnum - note.posnum;
      existingsplits[activesplit] := existingsplits[activesplit] + 1;
      RelinkedAre(Times(notes), end, links, n, activesplit, m);
    }

    lemma ApartFacts()
      requires Apart()
      ensures VOICES == 10
      ensures splitstart.Length == splitend.Length == lastposnum.Length == existingsplits.Length == VOICES
      ensures splitgap.Length == VOICES && splitgap != splitstart && splitgap != splitend && splitgap != lastposnum
      ensures splitgap != existingsplits
      ensures prevnote.Length == VOICES
      ensures splitstart != splitend && splitstart != lastposnum && splitstart != existingsplits
      ensures splitend != lastposnum && splitend != existingsplits && lastposnum != existingsplits
      ensures forall i, j :: 0 <= i < j < |notes| ==> notes[i] != notes[j]
    {
    }

    /** Labelling the next note, with the entry in splitgap for the first note of a voice. */
    method LabelNext(n: nat, k: nat, firstposnum: int, ghost voices: seq<nat>)
      requires Apart() && |voices| == n < |notes| && Holds(voices) && k < VOICES && k <= Used(voices)
      requires firstposnum == notes[0].posnum
      modifies splitstart, splitend, lastposnum, existingsplits, splitgap, prevnote, notes
      ensures Times(notes) == old(Times(notes)) && Holds(voices + [k])
    {
      hide *;
      ApartFacts();
      HoldsMeans(voices);
      ghost var ts, links := Times(notes), Links(notes);
      VoiceFacts(voices, k);
      SummarySnoc(ts, endposnum, voices, splitstart[..], splitend[..], lastposnum[..], existingsplits[..], splitgap[..], k);
      LinkedSnoc(ts, endposnum, voices, notes, prevnote[..], links, k);
      if existingsplits[k] == 0 {
        splitgap[k] := notes[n].posnum - firstposnum;
      }
      LabelSplit(notes[n], k, n, LastIn(voices, k));
      HoldsMeans(voices + [k]);
    }

    lemma HoldsMeans(voices: seq<nat>)
      requires Apart()
      ensures Holds(voices) <==>
              Summary(Times(notes), endposnum, voices, splitstart[..], splitend[..], lastposnum[..], existingsplits[..], splitgap[..]) &&
              Linked(Times(notes), endposnum, voices, notes, prevnote[..], Links(notes))
    {
      hide Summary, Linked;
    }

    lemma VoiceFacts(voices: seq<nat>, k: nat)
      requires Apart() && Holds(voices) && k < VOICES && k <= Used(voices)
      ensures prevnote[k] == if LastIn(voices, k) < 0 then null else notes[LastIn(voices, k)]
      ensures LastIn(voices, k) >= 0 ==> lastposnum[k] == notes[LastIn(voices, k)].posnum
    {
      hide LastIn, Used, NextStart;
      assert splitstart[..][k] == splitstart[k] && prevnote[..][k] == prevnote[k] && lastposnum[..][k] == lastposnum[k];
      if k == Used(voices) {
        UnusedVoice(Times(notes), endposnum, voices, k, 0);
      }
    }

    /** The compatibility check, made first with the voice of the note before. */
    method Compatible(note: Note, k: nat, ghost n: nat, ghost voices: seq<nat>) returns (b: bool)
      requires Apart() && |voices| == n < |notes| && notes[n] == note && Holds(voices) && k < Used(voices)
      ensures b <==> Fits(Times(notes), voices, k)
    {
      hide *;
      ApartFacts();
      VoiceBounds(voices, k);
      b := (note.posnum == splitstart[k] && note.playnum == splitend[k] - splitstart[k]) || note.posnum >= splitend[k];
      FitsMeans(Times(notes), voices, k);
    }

    lemma VoiceBounds(voices: seq<nat>, k: nat)
      requires Apart() && Holds(voices) && k < Used(voices)
      ensures 0 <= LastIn(voices, k) < |voices| <= |notes| && k < Used(voices) <= VOICES
      ensures var t := Times(notes)[LastIn(voices, k)]; splitstart[k] == t.pos && splitend[k] == t.pos + t.len
    {
      hide LastIn, Used, NextStart;
      assert splitstart[..][k] == splitstart[k] && splitend[..][k] == splitend[k];
    }

    /** The search through all the voices. */
    method FindVoice(note: Note, nsplits: nat, ghost n: nat, ghost voices: seq<nat>) returns (k: nat)
      requires Apart() && |voices| == n < |notes| && notes[n] == note && Holds(voices) && nsplits == Used(voices)
      ensures k == FirstFit(Times(notes), voices, 0)
    {
      hide *;
      k := 0;
      while k < nsplits
        invariant k <= nsplits && FirstFit(Times(notes), voices, k) == FirstFit(Times(notes), voices, 0)
      {
        FitFrom(Times(notes), voices, k);
        var found := Compatible(note, k, n, voices);
        if found {
          return;
        }
        k := k + 1;
      }
      FitFrom(Times(notes), voices, k);
    }

    method Clear()
      requires Apart()
      modifies splitstart, splitend, lastposnum, existingsplits, splitgap, prevnote
      ensures forall k :: 0 <= k < VOICES ==>
                splitstart[k] == splitend[k] == lastposnum[k] == existingsplits[k] == splitgap[k] == 0 && prevnote[k] == null
    {
      hide *;
      ApartFacts();
      var k := 0;
      while k < VOICES
        invariant 0 <= k <= VOICES
        invariant forall j :: 0 <= j < k ==>
                    splitstart[j] == splitend[j] == lastposnum[j] == existingsplits[j] == splitgap[j] == 0 && prevnote[j] == null
      {
        splitstart[k], splitend[k], lastposnum[k] := 0, 0, 0;
        prevnote[k] := null;
        existingsplits[k], splitgap[k] := 0, 0;
        k := k + 1;
      }
    }

    /** The first note, which is labelled before the loop. */
    method LabelFirst()
      requires Apart() && |notes| > 0
      requires forall k :: 0 <= k < VOICES ==> existingsplits[k] == splitgap[k] == 0 && prevnote[k] == null
      modifies splitstart, splitend, lastposnum, existingsplits, prevnote, notes
      ensures Times(notes) == old(Times(notes)) && Holds([0])
    {
      hide *;
      ApartFacts();
      ghost var links := Links(notes);
      LabelSplit(notes[0], 0, 0, -1);
      FirstSummary(Times(notes), endposnum, splitstart[..], splitend[..], lastposnum[..], existingsplits[..], splitgap[..]);
      FirstLinked(Times(notes), endposnum, notes, prevnote[..], links);
      HoldsMeans([0]);
    }

    /** The branch for the first note, whose assignments its label has already made. */
    method StartSplits(note: Note) returns (firstposnum: int)
      requires Apart() && |notes| > 0 && note == notes[0] && Holds([0])
      modifies splitstart, splitend, note
      ensures Times(notes) == old(Times(notes)) && Holds([0]) && firstposnum == note.posnum
    {
      hide *;
      ApartFacts();
      FirstUsed();
      VoiceBounds([0], 0);
      FirstLabel();
      HoldsMeans([0]);
      ghost var links := Links(notes);
      note.splitnum := 0;
      splitstart[0] := note.posnum;
      splitend[0] := splitstart[0] + note.playnum;
      firstposnum := splitstart[0];
      assert Links(notes) == links;
      assert splitstart[..] == old(splitstart[..]) && splitend[..] == old(splitend[..]);
      HoldsMeans([0]);
    }

    lemma FirstUsed()
      ensures Used([0]) == 1 && LastIn([0], 0) == 0
    {
      FirstVoice(1);
    }

    lemma FirstLabel()
      requires Apart() && Holds([0])
      ensures |notes| > 0 && notes[0].splitnum == 0
    {
      assert Links(notes)[0].0 == [0][0];
    }

    /** The voice for note n, as `label_split_voices` finds it; VOICES when there is no room. */
    method ChooseVoice(n: nat, activesplit: nat, nsplits: nat, ghost voices: seq<nat>) returns (k: nat)
      requires Apart() && 0 < n == |voices| < |notes| && Holds(voices)
      requires activesplit == voices[n - 1] && nsplits == Used(voices)
      ensures k == Choice(Times(notes), voices) && k <= VOICES
    {
      hide *;
      ActiveBounds(voices);
      var compatible := Compatible(notes[n], activesplit, n, voices);
      ChoiceMeans(Times(notes), voices);
      if compatible {
        k := activesplit;
      } else {
        k := FindVoice(notes[n], nsplits, n, voices);
      }
    }

    lemma ActiveBounds(voices: seq<nat>)
      requires Apart() && Holds(voices)
      ensures 0 < |voices| <= |notes| && Used(voices) <= VOICES && voices[|voices| - 1] < Used(voices)
    {
    }

    /** Every note after the first: it gets a voice, unless that would be one too many. */
    method LabelLater(n: nat, activesplit: nat, nsplits: nat, firstposnum: int, ghost voices: seq<nat>)
      returns (k: nat, used: nat, ok: bool)
      requires Apart() && 0 < n == |voices| < |notes| && Holds(voices) && firstposnum == notes[0].posnum
      requires activesplit == voices[n - 1] && nsplits == Used(voices)
      modifies splitstart, splitend, lastposnum, existingsplits, splitgap, prevnote, notes
      ensures Times(notes) == old(Times(notes))
      ensures k == Choice(Times(notes), voices) && (ok <==> Used(voices + [k]) <= VOICES)
      ensures ok ==> Holds(voices + [k]) && used == Used(voices + [k])
    {
      hide *;
      k := ChooseVoice(n, activesplit, nsplits, voices);
      ActiveBounds(voices);
      UsedNext(Times(notes), voices);
      used := nsplits;
      if k == nsplits {
        if nsplits == VOICES {
          return k, used, false;
        }
        used := nsplits + 1;
      }
      LabelNext(n, k, firstposnum, voices);
      ok := true;
    }

    /** `label_split_voices`; the answer false stands for going past the end of the arrays. */
    method LabelSplitVoices() returns (ok: bool)
      requires Apart()
      modifies this`endposnum, splitstart, splitend, lastposnum, existingsplits, splitgap, prevnote, notes
      ensures Times(notes) == old(Times(notes))
      ensures ok <==> Used(Assigned(Times(notes), |notes|)) <= VOICES
      ensures ok && |notes| > 0 ==>
                endposnum == End(Times(notes)[|notes| - 1]) && Holds(Assigned(Times(notes), |notes|))
      ensures ok ==> forall i :: 0 <= i < |notes| ==> notes[i].splitnum == Assigned(Times(notes), |notes|)[i]
      ensures ok ==> forall k: nat :: k < VOICES && existingsplits[k] > 0 && |notes| > 0 ==>
                splitgap[k] + XnumSum(Links(notes), k, 0) == endposnum - notes[0].posnum
    {
      hide *;
      ghost var ts := Times(notes);
      ApartFacts();
      Clear();
      FirstAssigned(ts);
      if |notes| == 0 {
        return true;
      }
      var activesplit, nsplits, firstposnum := 0, 0, 0;
      FirstUsed();
      endposnum := notes[|notes| - 1].posnum + notes[|notes| - 1].playnum;
      EndMeans(ts[|notes| - 1]);
      LabelFirst();
      ghost var voices := [0];
      var n := 0;
      while n < |notes|
        invariant n <= |notes| && Times(notes) == ts && Holds(voices) && endposnum == End(ts[|notes| - 1])
        invariant |voices| == (if n == 0 then 1 else n) && voices == Assigned(ts, |voices|)
        invariant n > 0 ==> nsplits == Used(voices) && activesplit == voices[n - 1] && firstposnum == ts[0].pos
        invariant n == 0 ==> nsplits == 0 && voices == [0]
      {
        if nsplits == 0 {
          activesplit := 0;
          nsplits := nsplits + 1;
          firstposnum := StartSplits(notes[n]);
        } else {
          AssignedNext(ts, n);
          activesplit, nsplits, ok := LabelLater(n, activesplit, nsplits, firstposnum, voices);
          if !ok {
            UsedGrows(ts, n + 1, |notes|);
            return;
          }
          voices := voices + [activesplit];
        }
        n := n + 1;
      }
      ActiveBounds(voices);
      Labelled(voices);
      return true;
    }

    lemma Labelled(voices: seq<nat>)
      requires Apart() && Holds(voices) && |voices| == |notes| > 0
      ensures forall i :: 0 <= i < |notes| ==> notes[i].splitnum == voices[i]
      ensures forall k: nat :: k < VOICES && existingsplits[k] > 0 ==>
                splitgap[k] + XnumSum(Links(notes), k, 0) == endposnum - notes[0].posnum
    {
      hide *;
      HoldsMeans(voices);
      ApartFacts();
      forall k: nat | k < VOICES && existingsplits[k] > 0
        ensures splitgap[k] + XnumSum(Links(notes), k, 0) == endposnum - notes[0].posnum
      {
        XnumsTelescope(Times(notes), endposnum, voices, notes, prevnote[..], Links(notes), splitstart[..], splitend[..],
                       lastposnum[..], existingsplits[..], splitgap[..], k);
      }
      LinkedVoices(Times(notes), endposnum, voices, notes, prevnote[..], Links(notes));
    }
  }

  lemma ChoiceMeans(ts: seq<Timed>, voices: seq<nat>)
    requires 0 < |voices| < |ts|
    ensures Choice(ts, voices) == if Fits(ts, voices, voices[|voices| - 1]) then voices[|voices| - 1] else FirstFit(ts, voices, 0)
  {
    hide Fits, FirstFit;
  }

  lemma FirstAssigned(ts: seq<Timed>)
    ensures Assigned(ts, 0) == [] && Used([]) == 0
    ensures ts != [] ==> Assigned(ts, 1) == [0]
  {
    hide Fits, FirstFit;
  }

  lemma EndMeans(t: Timed)
    ensures End(t) == t.pos + t.len
  {
  }

  lemma UsedNext(ts: seq<Timed>, voices: seq<nat>)
    requires |voices| < |ts|
    ensures var k := Choice(ts, voices);
            k <= Used(voices) && Used(voices + [k]) == if k == Used(voices) then k + 1 else Used(voices)
  {
    LastInSnoc(voices, Choice(ts, voices), 0);
  }

  lemma {:induction false} UsedGrows(ts: seq<Timed>, m: nat, n: nat)
    requires m <= n <= |ts|
    ensures Used(Assigned(ts, m)) <= Used(Assigned(ts, n))
  {
    hide *;
    if m < n {
      UsedGrows(ts, m, n - 1);
      AssignedNext(ts, n - 1);
      UsedNext(ts, Assigned(ts, n - 1));
    }
  }

  lemma FirstVoice(k: nat)
    ensures Used([0]) == 1 && LastIn([0], 0) == 0
    ensures k != 0 ==> LastIn([0], k) == -1
  {
    assert [0][..0] == [];
  }

  lemma FirstSummary(ts: seq<Timed>, end: int, start: seq<int>, fin: seq<int>, lastpos: seq<int>,
                     existing: seq<int>, gap: seq<int>)
    requires |ts| > 0 && |start| == |fin| == |lastpos| == |existing| == |gap| == VOICES
    requires start[0] == ts[0].pos == lastpos[0] && fin[0] == ts[0].pos + ts[0].len && existing[0] == 1 && gap[0] == 0
    requires forall k {:trigger existing[k]} :: 1 <= k < VOICES ==> existing[k] == 0
    ensures Summary(ts, end, [0], start, fin, lastpos, existing, gap)
  {
    hide LastIn, Used;
    FirstVoice(1);
  }

  lemma FirstLinked(ts: seq<Timed>, end: int, notes: seq<Note>, prev: seq<Note?>, links: seq<(int, int)>)
    requires |ts| == |notes| == |links| > 0 && |prev| == VOICES
    requires prev[0] == notes[0] && forall k {:trigger prev[k]} :: 1 <= k < VOICES ==> prev[k] == null
    ensures Linked(ts, end, [0], notes, prev, Relinked(ts, end, links, 0, 0, -1))
  {
    hide LastIn;
    forall k: nat {:trigger prev[k]} | k < VOICES
      ensures prev[k] == if LastIn([0], k) < 0 then null else notes[LastIn([0], k)]
    {
      FirstVoice(k);
    }
    assert NextStart(ts, end, [0], 0, 1) == end;
  }

  lemma FitsMeans(ts: seq<Timed>, voices: seq<nat>, k: nat)
    requires |voices| < |ts| && LastIn(voices, k) >= 0
    ensures var m, t := ts[LastIn(voices, k)], ts[|voices|];
            Fits(ts, voices, k) <==> (t.pos == m.pos && t.len == m.len) || t.pos >= m.pos + m.len
  {
    hide LastIn;
  }

  lemma FitFrom(ts: seq<Timed>, voices: seq<nat>, k: nat)
    requires |voices| < |ts| && k <= Used(voices)
    ensures FirstFit(ts, voices, k) ==
            if k == Used(voices) || Fits(ts, voices, k) then k else FirstFit(ts, voices, k + 1)
  {
    hide Fits, Used;
  }

  /** That is not necessary: when notes coincide, any number of them is in the way of a later
      one, and yet two voices do. */
  function ChordAndNote(count: nat): (ts: seq<Timed>)
    ensures |ts| == count + 1 && ts[count] == Timed(1, 4) && forall i :: 0 <= i < count ==> ts[i] == Timed(0, 4)
  {
    seq(count, _ => Timed(0, 4)) + [Timed(1, 4)]
  }

  function Zeros(n: nat): (v: seq<nat>)
    ensures |v| == n && forall i :: 0 <= i < n ==> v[i] == 0
  {
    seq(n, _ => 0)
  }

  lemma {:induction false} ChordTogether(count: nat, n: nat)
    requires n <= count
    ensures Assigned(ChordAndNote(count), n) == Zeros(n)
  {
    hide *;
    if n == 0 {
      FirstAssigned(ChordAndNote(count));
    } else {
      ChordTogether(count, n - 1);
      AssignedNext(ChordAndNote(count), n - 1);
      EqualChoice(count, n - 1);
    }
  }

  lemma EqualChoice(count: nat, n: nat)
    requires n < count
    ensures Choice(ChordAndNote(count), Zeros(n)) == 0
  {
    hide LastIn, FirstFit, Used;
    if n > 0 {
      OneVoice(Zeros(n));
      ChoiceMeans(ChordAndNote(count), Zeros(n));
    }
  }

  lemma OneVoice(voices: seq<nat>)
    requires |voices| > 0 && forall i :: 0 <= i < |voices| ==> voices[i] == 0
    ensures Used(voices) == 1 && LastIn(voices, 0) == |voices| - 1
  {
    FewUsed(voices, 1);
    assert voices[0] < Used(voices);
  }

  lemma ManyInTheWay(count: nat)
    requires count > 0
    ensures |Blocking(ChordAndNote(count), count)| >= count && Used(Assigned(ChordAndNote(count), count + 1)) <= 2
  {
    hide Assigned, Used, LastIn, Choice;
    var ts: seq<Timed>, all: seq<nat> := ChordAndNote(count), seq(count, i => i);
    ChordTogether(count, count);
    OneVoice(Zeros(count));
    AssignedNext(ts, count);
    UsedNext(ts, Zeros(count));
    DistinctInSet(all, Blocking(ts, count));
  }

  /** Ten notes that are over before the next eleven start: of those, the first and the
      third are the same, and the others are shorter and all different. */
  function CrowdAt(i: nat): Timed {
    if i < 10 then Timed(0, i + 1)
    else if i == 10 || i == 12 then Timed(10, 20)
    else if i == 11 then Timed(10, 1)
    else Timed(10, i - 11)
  }

  function Crowd(): (ts: seq<Timed>)
    ensures |ts| == 21 && forall i :: 0 <= i < 21 ==> ts[i] == CrowdAt(i)
  {
    seq(21, i requires 0 <= i < 21 => CrowdAt(i))
  }

  /** Where the greedy choice puts them. */
  function GreedyAt(i: nat): nat {
    if i < 10 then i else if i == 10 then 9 else if i == 20 then 10 else i - 11
  }

  function Greedy(n: nat): (v: seq<nat>)
    requires n <= 21
    ensures |v| == n && forall i :: 0 <= i < n ==> v[i] == GreedyAt(i)
  {
    seq(n, i requires 0 <= i < n => GreedyAt(i))
  }

  /** Where they also fit. */
  function ElsewhereAt(i: nat): nat {
    if i < 10 then i else if i == 11 then 0 else if i <= 12 then 9 else i - 12
  }

  function Elsewhere(): (v: seq<nat>)
    ensures |v| == 21 && forall i :: 0 <= i < 21 ==> v[i] == ElsewhereAt(i)
  {
    seq(21, i requires 0 <= i < 21 => ElsewhereAt(i))
  }

  lemma {:induction false} GreedyUsed(n: nat)
    requires n <= 20
    ensures Used(Greedy(n)) == if n < 10 then n else 10
  {
    if n > 0 {
      GreedyUsed(n - 1);
      assert Greedy(n) == Greedy(n - 1) + [GreedyAt(n - 1)];
      LastInSnoc(Greedy(n - 1), GreedyAt(n - 1), 0);
    }
  }

  lemma GreedyLast(n: nat, k: nat)
    requires 0 < n <= 20 && k < 10 && k < n
    ensures LastIn(Greedy(n), k) == if n >= 11 && k == 9 then 10 else if k + 11 < n then k + 11 else k
  {
    hide LastIn;
    var v, m := Greedy(n), if n >= 11 && k == 9 then 10 else if k + 11 < n then k + 11 else k;
    assert v[m] == k;
    assert forall i :: m < i < n ==> v[i] != k;
  }

  lemma GreedyFits(n: nat, k: nat)
    requires 0 < n <= 20 && k < 10 && k < n
    ensures Fits(Crowd(), Greedy(n), k) <==> n >= 10 && k + 11 >= n && (k == 9 ==> n <= 10 || n == 12)
  {
    hide LastIn, Crowd, Greedy;
    GreedyLast(n, k);
  }

  lemma GreedyChoice(n: nat)
    requires n <= 20
    ensures Choice(Crowd(), Greedy(n)) == GreedyAt(n)
  {
    hide Fits, FirstFit, LastIn, Used;
    GreedyUsed(n);
    if n > 0 {
      ChoiceMeans(Crowd(), Greedy(n));
      GreedyFits(n, GreedyAt(n - 1));
      var g, r := GreedyAt(n), FirstFit(Crowd(), Greedy(n), 0);
      if g < 10 && g < n {
        GreedyFits(n, g);
      }
      if r < Used(Greedy(n)) {
        GreedyFits(n, r);
      }
    }
  }

  lemma {:induction false} GreedyAssigned(n: nat)
    requires n <= 21
    ensures Assigned(Crowd(), n) == Greedy(n)
  {
    hide *;
    if n == 0 {
      FirstAssigned(Crowd());
    } else {
      GreedyAssigned(n - 1);
      GreedyChoice(n - 1);
      AssignedNext(Crowd(), n - 1);
    }
  }

  /** The greedy choice can need more voices than there have to be, even though every note
      has some length: here ten would do, and `label_split_voices` runs out of arrays. */
  lemma TenWouldDo()
    ensures Lasting(Crowd()) && Proper(Crowd(), Elsewhere()) && Used(Elsewhere()) <= VOICES
    ensures Used(Assigned(Crowd(), 21)) > VOICES
  {
    hide Assigned, Used;
    GreedyAssigned(21);
    GreedyUsed(20);
    assert Greedy(21) == Greedy(20) + [10];
    LastInSnoc(Greedy(20), 10, 0);
    FewUsed(Elsewhere(), 10);
  }

  lemma {:induction false} FewUsed(voices: seq<nat>, c: nat)
    requires forall i :: 0 <= i < |voices| ==> voices[i] < c
    ensures Used(voices) <= c
  {
    if voices != [] {
      FewUsed(voices[..|voices| - 1], c);
    }
  }
}
