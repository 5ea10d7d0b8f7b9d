/** Slicing overlapping notes into chords that fit the bars (midi2abc.c): `testtrack`, which
    only counts the bar lines that notes are held across, and `printtrack`, which prints. */
module ChordSlicer {
  import opened NoteLists

  /** A quantized track: what comes before the first note, then for each note the gap to the
      next one (xnum), its length (playnum) and its pitch. */
  datatype Score = Score(lead: nat, gaps: seq<nat>, lens: seq<int>, pitches: seq<int>) {
    ghost predicate Valid() {
      |gaps| == |lens| == |pitches|
    }
  }

  function Onset(s: Score, n: nat): nat
    requires n <= |s.gaps|
  {
    if n == 0 then s.lead else Onset(s, n - 1) + s.gaps[n - 1]
  }

  ghost function End(s: Score, n: nat): int
    requires s.Valid() && n < |s.gaps|
  {
    Onset(s, n) + s.lens[n]
  }

  ghost predicate SoundsAt(s: Score, n: nat, u: int)
    requires s.Valid() && n < |s.gaps|
  {
    Onset(s, n) <= u < End(s, n)
  }

  /** The chord list is kept with the highest pitch first, later notes first among equals. */
  predicate Above(pitches: seq<int>, a: nat, b: nat)
    requires a < |pitches| && b < |pitches|
  {
    pitches[a] > pitches[b] || (pitches[a] == pitches[b] && a > b)
  }

  ghost predicate Sorted(pitches: seq<int>, held: seq<nat>) {
    && (forall k :: 0 <= k < |held| ==> held[k] < |pitches|)
    && (forall j, k :: 0 <= j < k < |held| ==> Above(pitches, held[j], held[k]))
  }

  /** Where `addtochord` puts a note of pitch p: before the first one that is not higher. */
  function Place(pitches: seq<int>, held: seq<nat>, p: int): (k: nat)
    requires forall k :: 0 <= k < |held| ==> held[k] < |pitches|
    ensures k <= |held|
    ensures forall j :: 0 <= j < k ==> pitches[held[j]] > p
    ensures k < |held| ==> pitches[held[k]] <= p
  {
    if held == [] || pitches[held[0]] <= p then 0 else 1 + Place(pitches, held[1..], p)
  }

  lemma PlaceFrom(pitches: seq<int>, held: seq<nat>, k: nat, p: int)
    requires k <= |held| && forall k :: 0 <= k < |held| ==> held[k] < |pitches|
    ensures held[0..] == held
    ensures Place(pitches, held[k..], p) ==
            if k == |held| || pitches[held[k]] <= p then 0 else 1 + Place(pitches, held[k + 1..], p)
  {
    if k < |held| {
      assert held[k..][1..] == held[k + 1..];
    }
  }

  lemma AddedIs(pitches: seq<int>, held: seq<nat>, n: nat, k: nat)
    requires n < |pitches| && (forall k :: 0 <= k < |held| ==> held[k] < |pitches|) && k == Place(pitches, held, pitches[n])
    ensures Added(pitches, held, n) == held[..k] + [n] + held[k..]
  {
  }

  function Added(pitches: seq<int>, held: seq<nat>, n: nat): seq<nat>
    requires n < |pitches| && forall k :: 0 <= k < |held| ==> held[k] < |pitches|
  {
    var k := Place(pitches, held, pitches[n]);
    held[..k] + [n] + held[k..]
  }

  lemma NothingSorted(pitches: seq<int>)
    ensures Sorted(pitches, [])
  {
  }

  lemma SortedBounds(pitches: seq<int>, held: seq<nat>)
    requires Sorted(pitches, held)
    ensures forall k :: 0 <= k < |held| ==> held[k] < |pitches|
  {
  }

  lemma AddedAt(pitches: seq<int>, held: seq<nat>, n: nat, j: nat)
    requires n < |pitches| && (forall k :: 0 <= k < |held| ==> held[k] < |pitches|) && j <= |held|
    ensures var k := Place(pitches, held, pitches[n]);
            Added(pitches, held, n)[j] == if j < k then held[j] else if j == k then n else held[j - 1]
  {
  }

  lemma AboveAdded(pitches: seq<int>, held: seq<nat>, n: nat, j: nat)
    requires n < |pitches| && Sorted(pitches, held) && (forall m: nat :: m in held ==> m < n) && j < |held|
    ensures if j < Place(pitches, held, pitches[n]) then Above(pitches, held[j], n) else Above(pitches, n, held[j])
  {
    var k := Place(pitches, held, pitches[n]);
    assert held[j] in held;
    if j > k {
      assert Above(pitches, held[k], held[j]);
    }
  }

  lemma AddedMembers(pitches: seq<int>, held: seq<nat>, n: nat)
    requires n < |pitches| && forall k :: 0 <= k < |held| ==> held[k] < |pitches|
    ensures |Added(pitches, held, n)| == |held| + 1
    ensures forall m: nat :: m in Added(pitches, held, n) <==> m == n || m in held
  {
    hide Place;
    var p := Place(pitches, held, pitches[n]);
    assert held == held[..p] + held[p..];
  }

  lemma AddedSorted(pitches: seq<int>, held: seq<nat>, n: nat)
    requires n < |pitches| && Sorted(pitches, held) && forall m: nat :: m in held ==> m < n
    ensures Sorted(pitches, Added(pitches, held, n))
    ensures forall m: nat :: m in Added(pitches, held, n) <==> m == n || m in held
  {
    hide Place, Added, Above;
    var r, p := Added(pitches, held, n), Place(pitches, held, pitches[n]);
    AddedMembers(pitches, held, n);
    forall k | 0 <= k < |r|
      ensures r[k] < |pitches|
    {
      AddedAt(pitches, held, n, k);
    }
    forall j, k | 0 <= j < k < |r|
      ensures Above(pitches, r[j], r[k])
    {
      AddedAt(pitches, held, n, j);
      AddedAt(pitches, held, n, k);
      if j == p {
        AboveAdded(pitches, held, n, k - 1);
      } else if k == p {
        AboveAdded(pitches, held, n, j);
      }
    }
  }

  /** The notes that sound at time u, among the first n of the track. */
  ghost function ChordUpTo(s: Score, u: int, n: nat): (held: seq<nat>)
    requires s.Valid() && n <= |s.gaps|
    ensures forall m: nat :: m in held <==> m < n && SoundsAt(s, m, u)
    ensures Sorted(s.pitches, held)
  {
    hide Place, Added, Above, SoundsAt, Sorted;
    if n == 0 then NothingSorted(s.pitches); []
    else
      var held := ChordUpTo(s, u, n - 1);
      if SoundsAt(s, n - 1, u) then
        SortedBounds(s.pitches, held);
        AddedSorted(s.pitches, held, n - 1);
        Added(s.pitches, held, n - 1)
      else held
  }

  ghost function Chord(s: Score, u: int): seq<nat>
    requires s.Valid()
  {
    ChordUpTo(s, u, |s.gaps|)
  }

  /** Sorting leaves only one order for the same notes. */
  lemma {:induction false} SortedUnique(pitches: seq<int>, a: seq<nat>, b: seq<nat>)
    requires Sorted(pitches, a) && Sorted(pitches, b)
    requires forall n: nat :: n in a <==> n in b
    ensures a == b
  {
    assert a == [] || a[0] in a;
    assert b == [] || b[0] in b;
    if a != [] {
      SameHead(pitches, a, b);
      TailMembers(pitches, a);
      TailMembers(pitches, b);
      SortedUnique(pitches, a[1..], b[1..]);
      assert a == [a[0]] + a[1..] && b == [b[0]] + b[1..];
    }
  }

  lemma SameHead(pitches: seq<int>, a: seq<nat>, b: seq<nat>)
    requires Sorted(pitches, a) && Sorted(pitches, b) && a != [] && b != []
    requires a[0] in b && b[0] in a
    ensures a[0] == b[0]
  {
    var i :| 0 <= i < |b| && b[i] == a[0];
    var j :| 0 <= j < |a| && a[j] == b[0];
    assert i > 0 ==> Above(pitches, b[0], b[i]);
    assert j > 0 ==> Above(pitches, a[0], a[j]);
  }

  lemma TailMembers(pitches: seq<int>, a: seq<nat>)
    requires Sorted(pitches, a) && a != []
    ensures Sorted(pitches, a[1..])
    ensures forall n: nat :: n in a[1..] <==> n in a && n != a[0]
  {
    assert forall k :: 0 < k < |a| ==> Above(pitches, a[0], a[k]) && a[1..][k - 1] == a[k];
  }

  /** One printed note: its pitch, and whether it is tied to the next slice. */
  datatype Tone = Tone(pitch: int, tied: bool)

  /** What is printed: a chord of some length (a rest, when there are no tones), or a bar line. */
  datatype Token = Slice(len: int, tones: seq<Tone>) | Bar

  ghost function Tones(s: Score, held: seq<nat>, until: int): (r: seq<Tone>)
    requires s.Valid() && forall k :: 0 <= k < |held| ==> held[k] < |s.gaps|
    ensures |r| == |held|
    ensures forall k {:trigger r[k]} :: 0 <= k < |r| ==> r[k] == Tone(s.pitches[held[k]], SoundsAt(s, held[k], until))
  {
    seq(|held|, k requires 0 <= k < |held| => Tone(s.pitches[held[k]], SoundsAt(s, held[k], until)))
  }

  function Length(out: seq<Token>): int {
    if out == [] then 0
    else Length(out[..|out| - 1]) + if out[|out| - 1].Slice? then out[|out| - 1].len else 0
  }

  /** The notes that sound are the same all through a slice; they are the tones printed, and
      those are tied that still sound when the slice ends. */
  ghost predicate Faithful(s: Score, out: seq<Token>)
    requires s.Valid()
  {
    out != [] ==>
      var before, last := out[..|out| - 1], out[|out| - 1];
      && Faithful(s, before)
      && (last.Slice? ==>
            var t := Length(before);
            && last.tones == Tones(s, Chord(s, t), t + last.len)
            && forall u {:trigger Chord(s, u)} :: t <= u < t + last.len ==> Chord(s, u) == Chord(s, t))
  }

  /** What is left of the current bar. */
  function Room(out: seq<Token>, first: int, bar: int): int {
    if out == [] then first
    else if out[|out| - 1].Bar? then bar
    else Room(out[..|out| - 1], first, bar) - out[|out| - 1].len
  }

  /** Bar lines stand exactly where a bar is full: the first one after `first` units, the
      others `bar` units after the one before; no slice reaches across. */
  ghost predicate Barred(out: seq<Token>, first: int, bar: int) {
    out != [] ==>
      var before, last := out[..|out| - 1], out[|out| - 1];
      Barred(before, first, bar) &&
      if last.Bar? then Room(before, first, bar) == 0 else 0 < last.len <= Room(before, first, bar)
  }

  /** The total of the slices that note n sounds in. */
  ghost function Heard(s: Score, out: seq<Token>, n: nat): int
    requires s.Valid() && n < |s.gaps|
  {
    if out == [] then 0
    else
      var before, last := out[..|out| - 1], out[|out| - 1];
      Heard(s, before, n) + if last.Slice? && n in Chord(s, Length(before)) then last.len else 0
  }

  function Clip(x: int, lo: int, hi: int): int {
    if x < lo then lo else if x > hi then hi else x
  }

  ghost predicate Positive(out: seq<Token>) {
    forall k :: 0 <= k < |out| && out[k].Slice? ==> out[k].len > 0
  }

  lemma {:induction false} BarredPositive(out: seq<Token>, first: int, bar: int)
    requires Barred(out, first, bar)
    ensures Positive(out) && Length(out) >= 0
  {
    if out != [] {
      var before := out[..|out| - 1];
      BarredPositive(before, first, bar);
      assert out == before + [out[|out| - 1]];
    }
  }

  /** No note is lost, cut short or repeated: what is heard of a note is all of it, but for
      what it may last beyond the end of the track. */
  lemma {:induction false} HeardInFull(s: Score, out: seq<Token>, n: nat)
    requires s.Valid() && n < |s.gaps| && s.lens[n] >= 0 && Faithful(s, out) && Positive(out)
    ensures Heard(s, out, n) == Clip(Length(out) - Onset(s, n), 0, s.lens[n])
  {
    hide Chord, Onset, Clip;
    OnsetNotNegative(s, n);
    NothingYet(Onset(s, n), s.lens[n]);
    if out != [] {
      var before, last := out[..|out| - 1], out[|out| - 1];
      assert out == before + [last];
      HeardInFull(s, before, n);
      if last.Slice? {
        HeardInSlice(s, n, Length(before), last.len);
      }
    }
  }

  lemma NothingYet(onset: nat, len: nat)
    ensures Clip(0 - onset, 0, len) == 0
  {
  }

  lemma HeardInSlice(s: Score, n: nat, t: int, len: int)
    requires s.Valid() && n < |s.gaps| && s.lens[n] >= 0 && len > 0
    requires forall u {:trigger Chord(s, u)} :: t <= u < t + len ==> Chord(s, u) == Chord(s, t)
    ensures Clip(t + len - Onset(s, n), 0, s.lens[n]) ==
            Clip(t - Onset(s, n), 0, s.lens[n]) + if n in Chord(s, t) then len else 0
  {
    hide Chord, Onset;
    ChordHas(s, n, t);
    ChordHas(s, n, t + len - 1);
    ChordHas(s, n, Clip(Onset(s, n), t, t + len - 1));
  }

  lemma ChordHas(s: Score, n: nat, u: int)
    requires s.Valid() && n < |s.gaps|
    ensures n in Chord(s, u) <==> SoundsAt(s, n, u)
  {
  }

  lemma {:induction false} OnsetNotNegative(s: Score, n: nat)
    requires n <= |s.gaps|
    ensures Onset(s, n) >= 0
  {
    if n > 0 {
      OnsetNotNegative(s, n - 1);
    }
  }

  lemma {:induction false} OnsetsInOrder(s: Score, m: nat, n: nat)
    requires m <= n <= |s.gaps|
    ensures Onset(s, m) <= Onset(s, n)
  {
    if m < n {
      OnsetsInOrder(s, m, n - 1);
    }
  }

  /** At time T, with i notes added: the chord list holds those that go on after T, in
      order, and playnum is what is left of them. */
  ghost predicate Holds(s: Score, i: nat, now: int, held: seq<nat>, left: seq<int>)
    requires s.Valid()
  {
    && i <= |s.gaps| && |left| == |s.gaps| && now <= Onset(s, i)
    && Sorted(s.pitches, held)
    && (forall n: nat :: n in held ==> n < i && End(s, n) > now && left[n] == End(s, n) - now)
    && (forall n :: 0 <= n < i && n !in held ==> End(s, n) <= now)
    && (forall n :: 0 <= n < i ==> Onset(s, n) <= now)
    && (forall n :: i <= n < |left| ==> left[n] == s.lens[n])
  }

  /** The notes that `advancechord` leaves in the list. */
  function Kept(held: seq<nat>, left: seq<int>, len: int): seq<nat>
    requires forall k :: 0 <= k < |held| ==> held[k] < |left|
  {
    if held == [] then []
    else
      var before, n := held[..|held| - 1], held[|held| - 1];
      Kept(before, left, len) + if left[n] > len then [n] else []
  }

  lemma {:induction false} KeptFacts(pitches: seq<int>, held: seq<nat>, left: seq<int>, len: int)
    requires Sorted(pitches, held) && |left| == |pitches|
    ensures Sorted(pitches, Kept(held, left, len))
    ensures forall n: nat :: n in Kept(held, left, len) <==> n in held && left[n] > len
  {
    if held != [] {
      var before, last := held[..|held| - 1], held[|held| - 1];
      assert held == before + [last];
      KeptFacts(pitches, before, left, len);
      assert forall n: nat :: n in before ==> Above(pitches, n, last);
      var r := Kept(before, left, len);
      assert Kept(held, left, len) == r + if left[last] > len then [last] else [];
      hide Kept, Above;
      assert forall k :: 0 <= k < |r| ==> r[k] in before;
    }
  }

  /** What is left of every note when the chord has been advanced. */
  ghost function Shortened(held: seq<nat>, left: seq<int>, len: int): (r: seq<int>)
    ensures |r| == |left|
    ensures forall n: nat {:trigger r[n]} :: n < |left| ==>
              r[n] == if n in held && left[n] > len then left[n] - len else left[n]
  {
    seq(|left|, n requires 0 <= n < |left| => if n in held && left[n] > len then left[n] - len else left[n])
  }

  lemma AddKeepsHolds(s: Score, i: nat, now: int, held: seq<nat>, left: seq<int>)
    requires s.Valid() && Holds(s, i, now, held, left) && i < |s.gaps| && now == Onset(s, i) && s.lens[i] >= 0
    ensures Sorted(s.pitches, held)
    ensures var r := Added(s.pitches, held, i);
            && (forall n: nat :: n in r ==> n < |left| && left[n] >= 0)
            && Sorted(s.pitches, r)
            && Holds(s, i + 1, now, Kept(r, left, 0), Shortened(r, left, 0))
  {
    hide Added, Kept, Sorted;
    SortedBounds(s.pitches, held);
    AddedSorted(s.pitches, held, i);
    var r := Added(s.pitches, held, i);
    SortedBounds(s.pitches, r);
    KeptFacts(s.pitches, r, left, 0);
  }

  lemma AdvanceKeepsHolds(s: Score, i: nat, now: int, held: seq<nat>, left: seq<int>, step: int)
    requires s.Valid() && Holds(s, i, now, held, left) && 0 < step <= Onset(s, i) - now
    requires forall n: nat :: n in held ==> left[n] >= step
    ensures (forall n: nat :: n in held ==> n < |left|)
    ensures Sorted(s.pitches, held)
    ensures Holds(s, i, now + step, Kept(held, left, step), Shortened(held, left, step))
  {
    hide Kept, Sorted;
    SortedBounds(s.pitches, held);
    KeptFacts(s.pitches, held, left, step);
  }

  /** The chord list is the chord that sounds, until the next note comes or one ends. */
  lemma HeldSounds(s: Score, i: nat, now: int, held: seq<nat>, left: seq<int>, u: int)
    requires s.Valid() && Holds(s, i, now, held, left) && now <= u < Onset(s, i)
    requires forall n: nat :: n in held ==> now + left[n] > u
    ensures Chord(s, u) == held
  {
    hide Sorted, Onset;
    forall n: nat | n < |s.gaps|
      ensures n in held <==> n in Chord(s, u)
    {
      if n >= i {
        OnsetsInOrder(s, i, n);
      }
      ChordHas(s, n, u);
    }
    SortedUnique(s.pitches, Chord(s, u), held);
  }

  /** The lengths that can be written as one note: powers of two, and three times those. */
  predicate Printable(n: int) {
    if n <= 4 then n > 0 else n % 2 == 0 && Printable(n / 2)
  }

  function Doubled(n: int, k: nat): int {
    if k == 0 then n else 2 * Doubled(n, k - 1)
  }

  /** A power of two, or three times one. */
  ghost predicate IsDoubled(n: int, k: nat) {
    n == Doubled(1, k) || n == Doubled(3, k)
  }

  lemma {:induction false} PrintableMeans(n: int)
    ensures Printable(n) <==> exists k: nat :: IsDoubled(n, k)
    decreases if n < 0 then 0 else n
  {
    if n <= 4 {
      assert IsDoubled(1, 0) && IsDoubled(2, 1) && IsDoubled(4, 2) && IsDoubled(3, 0) by {
        assert Doubled(1, 1) == 2;
      }
      forall k: nat
        ensures IsDoubled(n, k) ==> n > 0
      {
        DoubledFacts(k);
      }
    } else {
      PrintableMeans(n / 2);
      if Printable(n) {
        var k: nat :| IsDoubled(n / 2, k);
        assert IsDoubled(n, k + 1);
      }
      if k: nat :| IsDoubled(n, k) {
        DoubledFacts(k);
        var h: nat := k - 1;
        assert n % 2 == 0 && IsDoubled(n / 2, h);
      }
    }
  }

  lemma {:induction false} DoubledFacts(k: nat)
    ensures Doubled(1, k) > 0 && Doubled(3, k) > 0
    ensures Doubled(1, k) == 1 || Doubled(1, k) % 2 == 0
    ensures Doubled(3, k) == 3 || Doubled(3, k) % 2 == 0
  {
    if k > 0 {
      DoubledFacts(k - 1);
    }
  }

  predicate PowerFromFour(n: int) {
    n == 4 || (n > 4 && n % 2 == 0 && PowerFromFour(n / 2))
  }

  lemma {:induction false} PowerPrintable(v: int)
    requires PowerFromFour(v)
    ensures v % 2 == 0 && Printable(v) && Printable(v + v / 2)
  {
    hide Printable;
    PrintableFourSix();
    if v > 4 {
      var h := v / 2;
      PowerPrintable(h);
      var q := h / 2;
      assert v == 4 * q && h == 2 * q;
      TwicePrintable(h);
      TwicePrintable(h + q);
    }
  }

  lemma PrintableFourSix()
    ensures Printable(4) && Printable(6)
  {
    assert Printable(3);
  }

  lemma TwicePrintable(n: int)
    requires Printable(n)
    ensures Printable(2 * n)
  {
    assert 2 * n / 2 == n;
  }

  /** Between a power of two and the next one, only the dotted length can be printed. */
  lemma {:induction false} DottedIsNext(v: int, w: int)
    requires PowerFromFour(v) && v < w < 2 * v && Printable(w)
    ensures w == v + v / 2
  {
    if v > 4 {
      DottedIsNext(v / 2, w / 2);
    }
  }

  /** `validnote`: the greatest printable length up to n. */
  method ValidNote(n: int) returns (v: int)
    ensures n <= 0 ==> v == n
    ensures n > 0 ==> 0 < v <= n && Printable(v) && forall w :: v < w <= n ==> !Printable(w)
  {
    if n <= 4 {
      v := n;
    } else {
      v := 4;
      while v * 2 <= n
        invariant PowerFromFour(v) && 4 <= v <= n
        decreases n - v
      {
        v := v * 2;
      }
      PowerPrintable(v);
      forall w | v < w <= n && Printable(w)
        ensures w == v + v / 2
      {
        DottedIsNext(v, w);
      }
      if v + v / 2 <= n {
        v := v + v / 2;
      }
    }
  }

  ghost function Lefts(notes: seq<Note>): (r: seq<int>)
    reads notes
    ensures |r| == |notes| && forall k :: 0 <= k < |notes| ==> r[k] == notes[k].playnum
  {
    seq(|notes|, k requires 0 <= k < |notes| reads notes => notes[k].playnum)
  }

  ghost function Gaps(notes: seq<Note>): (r: seq<int>)
    reads notes
    ensures |r| == |notes| && forall k :: 0 <= k < |notes| ==> r[k] == notes[k].xnum
  {
    seq(|notes|, k requires 0 <= k < |notes| reads notes => notes[k].xnum)
  }

  ghost function Pitches(notes: seq<Note>): (r: seq<int>)
    ensures |r| == |notes| && forall k :: 0 <= k < |notes| ==> r[k] == notes[k].pitch
  {
    seq(|notes|, k requires 0 <= k < |notes| => notes[k].pitch)
  }

  lemma InsertedNotes(notes: seq<Note>, held: seq<nat>, c: seq<Note>, k: nat, n: nat)
    requires |held| == |c| && k <= |c| && n < |notes| && n !in held
    requires forall j :: 0 <= j < |held| ==> held[j] < |notes| && c[j] == notes[held[j]]
    requires forall i, j :: 0 <= i < j < |held| ==> held[i] != held[j]
    ensures var h := held[..k] + [n] + held[k..];
            && (forall j :: 0 <= j < |h| ==> h[j] < |notes| && (c[..k] + [notes[n]] + c[k..])[j] == notes[h[j]])
            && (forall i, j :: 0 <= i < j < |h| ==> h[i] != h[j])
  {
  }

  /** The first j notes of a list h0 have been dealt with in `advancechord`, k of them kept. */
  ghost predicate Advanced(h0: seq<nat>, l0: seq<int>, len: int, j: nat, k: nat, held: seq<nat>, left: seq<int>) {
    && (forall i :: 0 <= i < |h0| ==> h0[i] < |l0|)
    && j <= |h0| && k == |Kept(h0[..j], l0, len)| && held == Kept(h0[..j], l0, len) + h0[j..]
    && left == Shortened(h0[..j], l0, len)
  }

  lemma NothingAdvanced(h0: seq<nat>, l0: seq<int>, len: int)
    requires forall i :: 0 <= i < |h0| ==> h0[i] < |l0|
    ensures Advanced(h0, l0, len, 0, 0, h0, l0)
  {
    assert h0[..0] == [] && h0[0..] == h0;
  }

  lemma NoteRemoved(h0: seq<nat>, l0: seq<int>, len: int, j: nat, k: nat, held: seq<nat>, left: seq<int>)
    requires Distinct(h0, |l0|) && j < |h0| && Advanced(h0, l0, len, j, k, held, left) && l0[h0[j]] == len
    ensures k < |held| && Advanced(h0, l0, len, j + 1, k, held[..k] + held[k + 1..], left)
  {
    hide Kept, Shortened;
    AdvanceRound(h0, l0, len, j);
  }

  lemma NoteShortened(h0: seq<nat>, l0: seq<int>, len: int, j: nat, k: nat, held: seq<nat>, left: seq<int>)
    requires Distinct(h0, |l0|) && j < |h0| && Advanced(h0, l0, len, j, k, held, left) && l0[h0[j]] > len
    requires h0[j] < |left|
    ensures Advanced(h0, l0, len, j + 1, k + 1, held, left[h0[j] := left[h0[j]] - len])
  {
    hide Kept, Shortened;
    AdvanceRound(h0, l0, len, j);
  }

  ghost predicate Within(s: seq<Node>, t: seq<Node>) {
    forall i :: 0 <= i < |s| ==> s[i] in t
  }

  lemma WithinSelf(s: seq<Node>)
    ensures Within(s, s)
  {
  }

  lemma WithinMeans(s: seq<Node>, t: seq<Node>)
    requires Within(s, t)
    ensures (forall i :: 0 <= i < |s| ==> s[i] in t) && forall x :: x in s ==> x in t
  {
  }

  lemma WithinOn(s: seq<Node>, t: seq<Node>, u: seq<Node>)
    requires (forall i :: 0 <= i < |s| ==> s[i] in t) && Within(t, u)
    ensures Within(s, u)
  {
  }

  /** The globals chordhead and chordtail, and the track whose notes are being added. */
  class Slicer {
    const notes: seq<Note>
    const chord: NoteList
    ghost var held: seq<nat>

    ghost predicate Valid()
      reads this, chord, chord.nodes
    {
      && chord.Valid()
      && Track(notes)
      && |chord.nodes| == |held|
      && Distinct(held, |notes|)
      && (forall k {:trigger chord.nodes[k]} :: 0 <= k < |held| ==> chord.nodes[k].note == notes[held[k]])
    }

    constructor (notes: seq<Note>)
      requires Track(notes)
      ensures Valid() && this.notes == notes && held == [] && fresh(chord) && chord.nodes == []
    {
      this.notes := notes;
      chord := new NoteList();
      held := [];
    }

    /** The loop of `addtochord`. */
    method FindPlace(p: Note, ghost n: nat) returns (place: Node?, ghost k: nat)
      requires Valid() && n < |notes| && notes[n] == p
      ensures k <= |held| && place == Link(chord.nodes, k)
      ensures k == Place(Pitches(notes), held, p.pitch)
    {
      hide *;
      place := chord.head;
      k := 0;
      ghost var pitches := Pitches(notes);
      HeldFacts();
      PlaceFrom(pitches, held, 0, p.pitch);
      while place != null && place.note.pitch > p.pitch
        invariant k <= |held| && place == Link(chord.nodes, k)
        invariant Place(pitches, held, p.pitch) == k + Place(pitches, held[k..], p.pitch)
        decreases |held| - k
      {
        NodeAt(place, k);
        PlaceFrom(pitches, held, k, p.pitch);
        place := place.next;
        k := k + 1;
      }
      PlaceHere(place, k, p.pitch);
    }

    /** `addtochord` */
    method AddToChord(p: Note, ghost n: nat)
      requires Valid() && n < |notes| && notes[n] == p && n !in held
      modifies this`held, chord, chord.nodes
      ensures Valid() && held == Added(Pitches(notes), old(held), n)
      ensures fresh(set x | x in chord.nodes && x !in old(chord.nodes))
    {
      hide *;
      HeldFacts();
      var place, k := FindPlace(p, n);
      Insert(p, place, k, n);
      AddedIs(Pitches(notes), old(held), n, k);
    }

    lemma NodeAt(place: Node, k: nat)
      requires Valid() && place == Link(chord.nodes, k)
      ensures k < |held| && held[k] < |notes| && place.note == notes[held[k]] && place.next == Link(chord.nodes, k + 1)
    {
    }

    lemma PlaceHere(place: Node?, k: nat, p: int)
      requires Valid() && k <= |held| && place == Link(chord.nodes, k) && !(place != null && place.note.pitch > p)
      ensures Place(Pitches(notes), held[k..], p) == 0
    {
      hide Place;
      PlaceFrom(Pitches(notes), held, k, p);
    }

    method Insert(p: Note, place: Node?, ghost k: nat, ghost n: nat)
      requires Valid() && n < |notes| && notes[n] == p && n !in held
      requires k <= |held| && place == Link(chord.nodes, k)
      modifies this`held, chord, chord.nodes
      ensures Valid() && held == old(held)[..k] + [n] + old(held)[k..]
      ensures fresh(set x | x in chord.nodes && x !in old(chord.nodes))
    {
      ghost var before := chord.Contents();
      chord.InsertBefore(p, place, k);
      ghost var was := held;
      held := held[..k] + [n] + held[k..];
      assert forall j {:trigger chord.nodes[j]} :: 0 <= j < |chord.nodes| ==> chord.nodes[j].note == chord.Contents()[j];
      InsertedNotes(notes, was, before, k, n);
    }

    /** `removefromchord` */
    method RemoveFromChord(i: Node, ghost k: nat) returns (newi: Node?)
      requires Valid() && k < |held| && chord.nodes[k] == i
      modifies this`held, chord, chord.nodes
      ensures Valid() && held == old(held)[..k] + old(held)[k + 1..]
      ensures newi == Link(chord.nodes, k)
      ensures forall i :: 0 <= i < |chord.nodes| ==> chord.nodes[i] in old(chord.nodes)
    {
      hide NoteList.Valid;
      ghost var before := chord.nodes;
      NodeAt(i, k);
      newi := i.next;
      chord.Unlink(i, k);
      held := held[..k] + held[k + 1..];
      forall j {:trigger chord.nodes[j]} | 0 <= j < |held|
        ensures chord.nodes[j].note == notes[held[j]]
      {
        assert chord.nodes[j] == before[if j < k then j else j + 1];
      }
    }

    /** `findshortest` */
    method FindShortest(gap: int) returns (min: int)
      requires Valid()
      ensures min <= gap && forall n: nat :: n in held ==> min <= Lefts(notes)[n]
      ensures min == gap || exists n: nat :: n in held && min == Lefts(notes)[n]
    {
      var p := chord.head;
      min := gap;
      ghost var k := 0;
      while p != null
        invariant k <= |held| && p == Link(chord.nodes, k)
        invariant min <= gap && forall j :: 0 <= j < k ==> min <= Lefts(notes)[held[j]]
        invariant min == gap || exists n: nat :: n in held && min == Lefts(notes)[n]
        decreases |held| - k
      {
        assert p == chord.nodes[k] && p.next == Link(chord.nodes, k + 1) && p.note == notes[held[k]];
        var v := p.note.playnum;
        assert held[k] in held && v == Lefts(notes)[held[k]];
        if v < min {
          min := v;
        }
        p := p.next;
        k := k + 1;
      }
    }

    method Shorten(note: Note, len: int, ghost n: nat)
      requires Valid() && n < |notes| && notes[n] == note
      modifies note`playnum
      ensures Valid() && Gaps(notes) == old(Gaps(notes))
      ensures Lefts(notes) == old(Lefts(notes))[n := old(Lefts(notes))[n] - len]
    {
      note.playnum := note.playnum - len;
      assert forall j :: 0 <= j < |notes| && j != n ==> notes[j] != note;
    }

    /** One round of the loop in `advancechord`. */
    method AdvanceNote(p: Node, len: int, ghost h0: seq<nat>, ghost l0: seq<int>, ghost j: nat, ghost k: nat)
      returns (next: Node?, ok: bool, ghost k': nat)
      requires Valid() && |l0| == |notes| && Distinct(h0, |notes|) && j < |h0| && Advanced(h0, l0, len, j, k, held, Lefts(notes))
      requires p == Link(chord.nodes, k)
      modifies this`held, chord, chord.nodes, p.note
      ensures Valid() && Gaps(notes) == old(Gaps(notes))
      ensures forall i :: 0 <= i < |chord.nodes| ==> chord.nodes[i] in old(chord.nodes)
      ensures ok <==> l0[h0[j]] >= len
      ensures ok ==> Advanced(h0, l0, len, j + 1, k', held, Lefts(notes)) && next == Link(chord.nodes, k')
    {
      hide *;
      AtNote(p, h0, l0, len, j, k);
      ghost var h, l := held, Lefts(notes);
      k' := k;
      ok := p.note.playnum >= len;
      if p.note.playnum <= len {
        if p.note.playnum < len {
          return null, false, k;
        }
        next := RemoveFromChord(p, k);
        NoteRemoved(h0, l0, len, j, k, h, l);
      } else {
        next := p.next;
        k' := k + 1;
        Shorten(p.note, len, h0[j]);
        NoteShortened(h0, l0, len, j, k, h, l);
      }
    }

    lemma AtNote(p: Node, h0: seq<nat>, l0: seq<int>, len: int, j: nat, k: nat)
      requires Valid() && |l0| == |notes| && Distinct(h0, |notes|) && j < |h0| && Advanced(h0, l0, len, j, k, held, Lefts(notes))
      requires p == Link(chord.nodes, k)
      ensures k < |held| && held[k] == h0[j] && h0[j] < |notes| && k < |chord.nodes| && chord.nodes[k] == p
      ensures p.note == notes[h0[j]] && p.next == Link(chord.nodes, k + 1) && p.note.playnum == l0[h0[j]]
    {
      hide Kept;
      AdvanceRound(h0, l0, len, j);
    }

    /** `advancechord`; the fatal error "note too short" is the answer false. */
    method AdvanceChord(len: int) returns (ok: bool)
      requires Valid()
      modifies this`held, chord, chord.nodes, notes
      ensures Valid() && Gaps(notes) == old(Gaps(notes))
      ensures forall i :: 0 <= i < |chord.nodes| ==> chord.nodes[i] in old(chord.nodes)
      ensures ok <==> forall k :: 0 <= k < |old(held)| ==> old(Lefts(notes))[old(held)[k]] >= len
      ensures ok ==> held == Kept(old(held), old(Lefts(notes)), len)
      ensures ok ==> Lefts(notes) == Shortened(old(held), old(Lefts(notes)), len)
    {
      hide *;
      ghost var h0, l0, g0 := held, Lefts(notes), Gaps(notes);
      ghost var j, k, nodes := 0, 0, chord.nodes;
      WithinSelf(nodes);
      var p := chord.head;
      HeldFacts();
      NothingAdvanced(h0, l0, len);
      while p != null
        invariant Valid() && Gaps(notes) == g0
        invariant Within(chord.nodes, nodes)
        invariant j <= |h0| && Advanced(h0, l0, len, j, k, held, Lefts(notes)) && p == Link(chord.nodes, k)
        invariant forall m :: 0 <= m < j ==> l0[h0[m]] >= len
        decreases |h0| - j
      {
        NoteThere(p, h0, l0, len, j, k);
        WithinMeans(chord.nodes, nodes);
        ghost var before := chord.nodes;
        p, ok, k := AdvanceNote(p, len, h0, l0, j, k);
        WithinOn(chord.nodes, before, nodes);
        if !ok {
          WithinMeans(chord.nodes, nodes);
          return;
        }
        j := j + 1;
      }
      AllAdvanced(h0, l0, len, j, k);
      WithinMeans(chord.nodes, nodes);
      return true;
    }

    lemma HeldFacts()
      requires Valid()
      ensures Distinct(held, |notes|) && (forall k :: 0 <= k < |held| ==> held[k] < |notes|)
      ensures chord.head == Link(chord.nodes, 0) && (held == [] <==> chord.head == null)
    {
    }

    lemma AllAdvanced(h0: seq<nat>, l0: seq<int>, len: int, j: nat, k: nat)
      requires Valid() && Advanced(h0, l0, len, j, k, held, Lefts(notes)) && null == Link(chord.nodes, k)
      ensures j == |h0| && held == Kept(h0, l0, len) && Lefts(notes) == Shortened(h0, l0, len)
    {
      hide Kept, Shortened;
      assert h0[..|h0|] == h0;
    }

    lemma NoteThere(p: Node, h0: seq<nat>, l0: seq<int>, len: int, j: nat, k: nat)
      requires Valid() && |l0| == |notes| && forall i :: 0 <= i < |h0| ==> h0[i] < |notes|
      requires Advanced(h0, l0, len, j, k, held, Lefts(notes)) && p == Link(chord.nodes, k)
      ensures j < |h0| && k < |chord.nodes| && p == chord.nodes[k] && p.note in notes
    {
    }

    /** Adding note i to the chord: `addtochord`, then `advancechord(0)`. */
    method AddNext(i: nat, ghost s: Score, ghost now: int) returns (ok: bool)
      requires Valid() && s.Valid() && i < |notes| && Gaps(notes) == s.gaps && Pitches(notes) == s.pitches
      requires Holds(s, i, now, held, Lefts(notes)) && now == Onset(s, i)
      modifies this`held, chord, chord.nodes, notes
      ensures Valid() && Gaps(notes) == s.gaps
      ensures forall k :: 0 <= k < |chord.nodes| ==> chord.nodes[k] in old(chord.nodes) || fresh(chord.nodes[k])
      ensures ok <==> s.lens[i] >= 0
      ensures ok ==> Holds(s, i + 1, now, held, Lefts(notes))
    {
      hide *;
      ghost var h, l := held, Lefts(notes);
      BeforeAdding(s, i, now, h, l);
      AddToChord(notes[i], i);
      ghost var h', nodes := held, chord.nodes;
      ok := AdvanceChord(0);
      AfterAdding(s, i, now, h, l, h');
    }

    /** Going on by one step. */
    method Advance(step: int, ghost s: Score, ghost i: nat, ghost now: int) returns (ok: bool)
      requires Valid() && s.Valid() && i <= |notes| && Gaps(notes) == s.gaps && |s.gaps| == |notes|
      requires Holds(s, i, now, held, Lefts(notes)) && 0 < step <= Onset(s, i) - now
      requires forall n: nat :: n in held ==> step <= Lefts(notes)[n]
      modifies this`held, chord, chord.nodes, notes
      ensures Valid() && Gaps(notes) == s.gaps && ok
      ensures forall i :: 0 <= i < |chord.nodes| ==> chord.nodes[i] in old(chord.nodes)
      ensures Holds(s, i, now + step, held, Lefts(notes))
    {
      hide *;
      AdvanceKeepsHolds(s, i, now, held, Lefts(notes), step);
      ok := AdvanceChord(step);
    }

    /** A step of `testtrack`, as far as the next note, the next end of one, or the bar line. */
    method TestStep(gap: int, barnotes: int, ghost s: Score, ghost i: nat, ghost now: int) returns (step: int)
      requires Valid() && s.Valid() && i <= |notes| && Gaps(notes) == s.gaps && |s.gaps| == |notes|
      requires Holds(s, i, now, held, Lefts(notes)) && gap > 0 && now + gap == Onset(s, i) && barnotes > 0
      modifies this`held, chord, chord.nodes, notes
      ensures Valid() && Gaps(notes) == s.gaps && 0 < step <= gap && step <= barnotes
      ensures forall i :: 0 <= i < |chord.nodes| ==> chord.nodes[i] in old(chord.nodes)
      ensures Holds(s, i, now + step, held, Lefts(notes))
      ensures Crossed(s, now + step) <==> chord.head != null
    {
      hide *;
      AddedBefore(s, i, now, held, Lefts(notes));
      step := FindShortest(gap);
      if step > barnotes {
        step := barnotes;
      }
      var ok := Advance(step, s, i, now);
      HeldCrosses(s, i, now, step, held, Lefts(notes));
      HeldFacts();
    }

    /** `printchord` */
    method PrintChord(len: int) returns (tones: seq<Tone>)
      requires Valid()
      ensures |tones| == |held|
      ensures forall k {:trigger tones[k]} :: 0 <= k < |held| ==>
                tones[k] == Tone(notes[held[k]].pitch, len < Lefts(notes)[held[k]])
    {
      var i := chord.head;
      tones := [];
      ghost var k := 0;
      while i != null
        invariant k <= |held| && i == Link(chord.nodes, k) && |tones| == k
        invariant forall j {:trigger tones[j]} :: 0 <= j < k ==>
                    tones[j] == Tone(notes[held[j]].pitch, len < Lefts(notes)[held[j]])
        decreases |held| - k
      {
        assert i == chord.nodes[k] && i.next == Link(chord.nodes, k + 1) && i.note == notes[held[k]];
        tones := tones + [Tone(i.note.pitch, len < i.note.playnum)];
        i := i.next;
        k := k + 1;
      }
    }

    /** A step of `printtrack`: the chord is printed, and time goes on. */
    method PrintStep(gap: int, barnotes: int, ghost s: Score, ghost i: nat, ghost now: int,
                     ghost out: seq<Token>, ghost first: int, ghost bar: int) returns (step: int, tones: seq<Tone>)
      requires Valid() && s.Valid() && i <= |notes| && Gaps(notes) == s.gaps && Pitches(notes) == s.pitches
      requires Holds(s, i, now, held, Lefts(notes)) && gap > 0 && now + gap == Onset(s, i) && barnotes > 0
      requires Printed(s, out, first, bar, now, barnotes)
      modifies this`held, chord, chord.nodes, notes
      ensures Valid() && Gaps(notes) == s.gaps && 0 < step <= gap && step <= barnotes
      ensures forall i :: 0 <= i < |chord.nodes| ==> chord.nodes[i] in old(chord.nodes)
      ensures Holds(s, i, now + step, held, Lefts(notes))
      ensures Printed(s, out + [Slice(step, tones)], first, bar, now + step, barnotes - step)
    {
      hide *;
      AddedBefore(s, i, now, held, Lefts(notes));
      HeldFacts();
      step := FindShortest(gap);
      ghost var shortest := step;
      if step > barnotes {
        step := barnotes;
      }
      step := ValidNote(step);
      tones := PrintChord(step);
      SlicePrinted(s, out, first, bar, barnotes, i, now, held, Lefts(notes), shortest, step, tones);
      var ok := Advance(step, s, i, now);
    }
  }

  ghost predicate Distinct(held: seq<nat>, n: nat) {
    && (forall k :: 0 <= k < |held| ==> held[k] < n)
    && (forall i, j :: 0 <= i < j < |held| ==> held[i] != held[j])
  }

  /** One round of the loop in `advancechord`. */
  lemma AdvanceRound(held: seq<nat>, left: seq<int>, len: int, j: nat)
    requires j < |held| && forall k :: 0 <= k < |held| ==> held[k] < |left|
    requires forall i, j :: 0 <= i < j < |held| ==> held[i] != held[j]
    ensures var n := held[j];
            && Kept(held[..j + 1], left, len) == Kept(held[..j], left, len) + (if left[n] > len then [n] else [])
            && Shortened(held[..j], left, len)[n] == left[n]
            && Shortened(held[..j + 1], left, len) ==
               if left[n] > len then Shortened(held[..j], left, len)[n := left[n] - len] else Shortened(held[..j], left, len)
  {
    assert held[..j + 1][..j] == held[..j];
    assert held[..j + 1] == held[..j] + [held[j]];
  }

  lemma BeforeAdding(s: Score, i: nat, now: int, held: seq<nat>, left: seq<int>)
    requires s.Valid() && Holds(s, i, now, held, left) && i < |s.gaps|
    ensures i !in held && forall k :: 0 <= k < |held| ==> held[k] < |s.pitches|
  {
    hide Onset, Sorted;
    SortedBounds(s.pitches, held);
  }

  lemma AfterAdding(s: Score, i: nat, now: int, h: seq<nat>, left: seq<int>, h': seq<nat>)
    requires s.Valid() && Holds(s, i, now, h, left) && i < |s.gaps| && now == Onset(s, i)
    requires (forall k :: 0 <= k < |h| ==> h[k] < |s.pitches|) && h' == Added(s.pitches, h, i)
    ensures forall k :: 0 <= k < |h'| ==> h'[k] < |left|
    ensures s.lens[i] >= 0 <==> forall k :: 0 <= k < |h'| ==> left[h'[k]] >= 0
    ensures s.lens[i] >= 0 ==> Holds(s, i + 1, now, Kept(h', left, 0), Shortened(h', left, 0))
  {
    hide Onset, Sorted, Added, Kept;
    AddedMembers(s.pitches, h, i);
    assert i in h' && left[i] == s.lens[i];
    if s.lens[i] >= 0 {
      AddKeepsHolds(s, i, now, h, left);
    }
    forall k | 0 <= k < |h'|
      ensures h'[k] < |left| && (h'[k] == i || left[h'[k]] > 0)
    {
      assert h'[k] in h';
    }
  }

  /** A bar line, counted from 0. */
  function BarLine(first: int, bar: int, k: nat): int {
    if k == 0 then first else BarLine(first, bar, k - 1) + bar
  }

  /** Some note is held across time b. */
  ghost predicate Crossed(s: Score, b: int)
    requires s.Valid()
  {
    exists n: nat :: n < |s.gaps| && Onset(s, n) < b < End(s, n)
  }

  /** How many of the first k bar lines are. */
  ghost function Crossings(s: Score, first: int, bar: int, k: nat): nat
    requires s.Valid()
  {
    if k == 0 then 0
    else Crossings(s, first, bar, k - 1) + if Crossed(s, BarLine(first, bar, k - 1)) then 1 else 0
  }

  /** Line k is the first one after time t. */
  ghost predicate NextLine(first: int, bar: int, k: nat, t: int) {
    t < BarLine(first, bar, k) && (k > 0 ==> BarLine(first, bar, k - 1) <= t)
  }

  lemma HeldCrosses(s: Score, i: nat, now: int, step: int, held: seq<nat>, left: seq<int>)
    requires s.Valid() && 0 < step && Holds(s, i, now + step, held, left)
    requires forall n :: 0 <= n < i ==> Onset(s, n) <= now
    ensures Crossed(s, now + step) <==> held != []
  {
    hide Sorted, Onset;
    if held != [] {
      assert held[0] in held;
    }
    if Crossed(s, now + step) {
      var n: nat :| n < |s.gaps| && Onset(s, n) < now + step < End(s, n);
      if n >= i {
        OnsetsInOrder(s, i, n);
      }
    }
  }

  lemma AddedBefore(s: Score, i: nat, now: int, held: seq<nat>, left: seq<int>)
    requires s.Valid() && Holds(s, i, now, held, left)
    ensures i <= |s.gaps| && now <= Onset(s, i) && forall n :: 0 <= n < i ==> Onset(s, n) <= now
    ensures forall n: nat :: n in held ==> n < |left| && left[n] > 0
  {
    hide Sorted, Onset;
  }

  lemma NothingHeld(s: Score)
    requires s.Valid()
    ensures Holds(s, 0, 0, [], s.lens) && Onset(s, 0) == s.lead
  {
  }

  ghost predicate Track(notes: seq<Note>) {
    forall i, j :: 0 <= i < j < |notes| ==> notes[i] != notes[j]
  }

  ghost function ScoreOf(lead: nat, notes: seq<Note>): (s: Score)
    requires forall n :: 0 <= n < |notes| ==> notes[n].xnum >= 0
    reads notes
    ensures s.Valid() && s.lead == lead && s.gaps == Gaps(notes) && s.lens == Lefts(notes) && s.pitches == Pitches(notes)
  {
    Score(lead, Gaps(notes), Lefts(notes), Pitches(notes))
  }

  /** `testtrack`: the fatal errors are answered with ok false. Only a negative playnum leads
      to one; otherwise the answer is how many bar lines notes are held across. */
  method TestTrack(notes: seq<Note>, barbeats: int, anacrusis: int) returns (ok: bool, breakcount: nat, ghost k: nat)
    requires Track(notes) && barbeats > 0 && forall n :: 0 <= n < |notes| ==> notes[n].xnum >= 0
    modifies notes
    ensures Gaps(notes) == old(Gaps(notes))
    ensures ok <==> forall n :: 0 <= n < |notes| ==> old(notes[n].playnum) >= 0
    ensures var s, first := old(ScoreOf(0, notes)), if anacrusis > 0 then anacrusis else barbeats;
            ok ==> NextLine(first, barbeats, k, Onset(s, |notes|)) && breakcount == Crossings(s, first, barbeats, k)
  {
    hide *;
    ghost var s := ScoreOf(0, notes);
    var first := if anacrusis > 0 then anacrusis else barbeats;
    var slicer := new Slicer(notes);
    var i, gap, barnotes := 0, 0, first;
    ghost var now := 0;
    breakcount, k := 0, 0;
    NothingHeld(s);
    FirstLine(s, first, barbeats);
    while i < |notes| || gap != 0
      invariant slicer.Valid() && slicer.notes == notes && Gaps(notes) == s.gaps && i <= |notes| && gap >= 0
      invariant fresh(slicer) && fresh(slicer.chord)
      invariant forall j :: 0 <= j < |slicer.chord.nodes| ==> fresh(slicer.chord.nodes[j])
      invariant Holds(s, i, now, slicer.held, Lefts(notes)) && now + gap == Onset(s, i)
      invariant forall n :: 0 <= n < i ==> s.lens[n] >= 0
      invariant barnotes > 0 && now + barnotes == BarLine(first, barbeats, k) && NextLine(first, barbeats, k, now)
      invariant breakcount == Crossings(s, first, barbeats, k)
      decreases |notes| - i, gap
    {
      AddedBefore(s, i, now, slicer.held, Lefts(notes));
      if gap == 0 {
        ok := slicer.AddNext(i, s, now);
        if !ok {
          return;
        }
        NextOnset(s, i);
        gap := notes[i].xnum;
        i := i + 1;
      } else {
        var step := slicer.TestStep(gap, barnotes, s, i, now);
        gap := gap - step;
        now := now + step;
        barnotes := barnotes - step;
        StepToLine(s, first, barbeats, k, now - step, now);
        if barnotes == 0 {
          if slicer.chord.head != null {
            breakcount := breakcount + 1;
          }
          barnotes := barbeats;
          k := k + 1;
        }
      }
    }
    ok := true;
  }

  lemma FirstLine(s: Score, first: int, bar: int)
    requires s.Valid() && first > 0
    ensures BarLine(first, bar, 0) == first && NextLine(first, bar, 0, 0) && Crossings(s, first, bar, 0) == 0
  {
  }

  lemma NextOnset(s: Score, i: nat)
    requires i < |s.gaps|
    ensures Onset(s, i + 1) == Onset(s, i) + s.gaps[i]
  {
  }

  lemma StepToLine(s: Score, first: int, bar: int, k: nat, t: int, t': int)
    requires s.Valid() && bar > 0 && NextLine(first, bar, k, t) && t <= t' <= BarLine(first, bar, k)
    ensures if t' < BarLine(first, bar, k) then NextLine(first, bar, k, t') else NextLine(first, bar, k + 1, t')
    ensures BarLine(first, bar, k + 1) == BarLine(first, bar, k) + bar
    ensures Crossings(s, first, bar, k + 1) ==
            Crossings(s, first, bar, k) + if Crossed(s, BarLine(first, bar, k)) then 1 else 0
  {
    hide Crossed;
  }

  /** One more slice. */
  lemma SliceAdded(s: Score, out: seq<Token>, i: nat, now: int, held: seq<nat>, left: seq<int>, step: int, tones: seq<Tone>)
    requires s.Valid() && Faithful(s, out) && Length(out) == now && Holds(s, i, now, held, left)
    requires 0 < step <= Onset(s, i) - now && (forall n: nat :: n in held ==> n < |left| && step <= left[n])
    requires |tones| == |held| && forall k :: 0 <= k < |held| ==> held[k] < |s.gaps|
    requires forall k :: 0 <= k < |held| ==> tones[k] == Tone(s.pitches[held[k]], step < left[held[k]])
    ensures Faithful(s, out + [Slice(step, tones)]) && Length(out + [Slice(step, tones)]) == now + step
  {
    hide Sorted, Onset, Chord, Holds;
    var out' := out + [Slice(step, tones)];
    assert out'[..|out' | - 1] == out;
    forall u | now <= u < now + step
      ensures Chord(s, u) == held
    {
      HeldSounds(s, i, now, held, left, u);
    }
    assert Chord(s, now) == held;
    TonesOf(s, i, now, held, left, step, tones);
  }

  lemma TonesOf(s: Score, i: nat, now: int, held: seq<nat>, left: seq<int>, step: int, tones: seq<Tone>)
    requires s.Valid() && Holds(s, i, now, held, left) && 0 < step
    requires |tones| == |held| && forall k :: 0 <= k < |held| ==> held[k] < |s.gaps| && held[k] < |left|
    requires forall k :: 0 <= k < |held| ==> tones[k] == Tone(s.pitches[held[k]], step < left[held[k]])
    ensures tones == Tones(s, held, now + step)
  {
    hide Sorted, Onset;
    forall k | 0 <= k < |held|
      ensures SoundsAt(s, held[k], now + step) <==> step < left[held[k]]
    {
      assert held[k] in held;
    }
  }

  lemma BarAdded(s: Score, out: seq<Token>, first: int, bar: int)
    requires s.Valid() && Faithful(s, out) && Barred(out, first, bar) && Room(out, first, bar) == 0
    ensures Faithful(s, out + [Bar]) && Length(out + [Bar]) == Length(out)
    ensures Barred(out + [Bar], first, bar) && Room(out + [Bar], first, bar) == bar
  {
    assert (out + [Bar])[..|out|] == out;
  }

  lemma SliceFits(out: seq<Token>, first: int, bar: int, step: int, tones: seq<Tone>)
    requires Barred(out, first, bar) && 0 < step <= Room(out, first, bar)
    ensures Barred(out + [Slice(step, tones)], first, bar)
    ensures Room(out + [Slice(step, tones)], first, bar) == Room(out, first, bar) - step
  {
    assert (out + [Slice(step, tones)])[..|out|] == out;
  }

  lemma NothingPrinted(s: Score, first: int, bar: int)
    requires s.Valid()
    ensures Faithful(s, []) && AllPrintable([]) && Barred([], first, bar) && Room([], first, bar) == first && Length([]) == 0
  {
  }

  ghost predicate AllPrintable(out: seq<Token>) {
    forall k :: 0 <= k < |out| && out[k].Slice? ==> Printable(out[k].len)
  }

  lemma PrintableAdded(out: seq<Token>, t: Token)
    requires AllPrintable(out) && (t.Slice? ==> Printable(t.len))
    ensures AllPrintable(out + [t])
  {
    hide Printable;
  }

  /** Something happens at time x: a note begins or ends, or the track does. */
  ghost predicate CutAt(s: Score, x: int)
    requires s.Valid()
  {
    (exists n: nat :: n <= |s.gaps| && Onset(s, n) == x) || exists n: nat :: n < |s.gaps| && End(s, n) == x
  }

  /** No slice could be longer: every longer length that can be printed and fits into the bar
      goes beyond something that happens. */
  ghost predicate Longest(s: Score, out: seq<Token>, first: int, bar: int)
    requires s.Valid()
  {
    out != [] ==>
      var before, last := out[..|out| - 1], out[|out| - 1];
      && Longest(s, before, first, bar)
      && (last.Slice? ==>
            forall w {:trigger Printable(w)} :: last.len < w <= Room(before, first, bar) && Printable(w) ==>
              exists x :: Length(before) < x < Length(before) + w && CutAt(s, x))
  }

  lemma LongestNothing(s: Score, first: int, bar: int)
    requires s.Valid()
    ensures Longest(s, [], first, bar)
  {
  }

  lemma LongestBar(s: Score, out: seq<Token>, first: int, bar: int)
    requires s.Valid() && Longest(s, out, first, bar)
    ensures Longest(s, out + [Bar], first, bar)
  {
    assert (out + [Bar])[..|out|] == out;
  }

  /** `shortest` is what is left of the gap or of some note, and `len` is the greatest
      printable length up to that and to the end of the bar. */
  lemma LongestAdded(s: Score, out: seq<Token>, first: int, bar: int, i: nat, now: int, held: seq<nat>, left: seq<int>,
                     shortest: int, len: int, tones: seq<Tone>)
    requires s.Valid() && Longest(s, out, first, bar) && Holds(s, i, now, held, left) && Length(out) == now
    requires i <= |s.gaps| && 0 < shortest
    requires shortest == Onset(s, i) - now || exists n: nat :: n in held && n < |left| && shortest == left[n]
    requires forall w :: len < w <= shortest && w <= Room(out, first, bar) ==> !Printable(w)
    ensures Longest(s, out + [Slice(len, tones)], first, bar)
  {
    hide Sorted, Onset, Printable, CutAt;
    assert (out + [Slice(len, tones)])[..|out|] == out;
    ShortestCuts(s, i, now, held, left, shortest);
    forall w {:trigger Printable(w)} | len < w <= Room(out, first, bar) && Printable(w)
      ensures exists x :: now < x < now + w && CutAt(s, x)
    {
      assert now < now + shortest < now + w && CutAt(s, now + shortest);
    }
  }

  lemma ShortestCuts(s: Score, i: nat, now: int, held: seq<nat>, left: seq<int>, shortest: int)
    requires s.Valid() && Holds(s, i, now, held, left) && i <= |s.gaps|
    requires shortest == Onset(s, i) - now || exists n: nat :: n in held && n < |left| && shortest == left[n]
    ensures CutAt(s, now + shortest)
  {
    hide Sorted, Onset;
    if shortest != Onset(s, i) - now {
      var n: nat :| n in held && n < |left| && shortest == left[n];
      assert End(s, n) == now + shortest;
    }
  }

  /** What is printed up to time `now`, with so much room left in the bar. */
  ghost predicate Printed(s: Score, out: seq<Token>, first: int, bar: int, now: int, room: int)
    requires s.Valid()
  {
    && Faithful(s, out) && Length(out) == now && AllPrintable(out) && Longest(s, out, first, bar)
    && Barred(out, first, bar) && Room(out, first, bar) == room
  }

  lemma StartPrinted(s: Score, first: int, bar: int)
    requires s.Valid()
    ensures Printed(s, [], first, bar, 0, first)
  {
    NothingPrinted(s, first, bar);
    LongestNothing(s, first, bar);
  }

  lemma BarPrinted(s: Score, out: seq<Token>, first: int, bar: int, now: int)
    requires s.Valid() && Printed(s, out, first, bar, now, 0)
    ensures Printed(s, out + [Bar], first, bar, now, bar)
  {
    hide Faithful, Longest, AllPrintable, Barred, Room, Length;
    BarAdded(s, out, first, bar);
    LongestBar(s, out, first, bar);
    PrintableAdded(out, Bar);
  }

  lemma SlicePrinted(s: Score, out: seq<Token>, first: int, bar: int, room: int, i: nat, now: int, held: seq<nat>, left: seq<int>,
                     shortest: int, step: int, tones: seq<Tone>)
    requires s.Valid() && Printed(s, out, first, bar, now, room) && Holds(s, i, now, held, left) && i <= |s.gaps|
    requires 0 < shortest <= Onset(s, i) - now && forall n: nat :: n in held ==> n < |left| && shortest <= left[n]
    requires shortest == Onset(s, i) - now || exists n: nat :: n in held && n < |left| && shortest == left[n]
    requires 0 < step <= shortest && step <= room && Printable(step)
    requires forall w :: step < w <= shortest && w <= room ==> !Printable(w)
    requires |tones| == |held| && forall k :: 0 <= k < |held| ==> held[k] < |s.gaps|
    requires forall k :: 0 <= k < |held| ==> tones[k] == Tone(s.pitches[held[k]], step < left[held[k]])
    ensures Printed(s, out + [Slice(step, tones)], first, bar, now + step, room - step)
  {
    hide Faithful, Longest, AllPrintable, Barred, Room, Length, Holds, Printable;
    LongestAdded(s, out, first, bar, i, now, held, left, shortest, step, tones);
    SliceAdded(s, out, i, now, held, left, step, tones);
    SliceFits(out, first, bar, step, tones);
    PrintableAdded(out, Slice(step, tones));
  }

  lemma PrintedMeans(s: Score, out: seq<Token>, first: int, bar: int, now: int, room: int)
    requires s.Valid() && Printed(s, out, first, bar, now, room)
    ensures Faithful(s, out) && Length(out) == now && AllPrintable(out) && Longest(s, out, first, bar)
    ensures Barred(out, first, bar) && Room(out, first, bar) == room
  {
  }

  /** `printtrack`, without triplets, broken rhythm, text and changes of meter; the fatal
      errors are answered with ok false, and only a negative playnum leads to one. */
  method PrintTrack(notes: seq<Note>, startunits: nat, barsize: int, anacrusis: int) returns (ok: bool, out: seq<Token>)
    requires Track(notes) && barsize > 0 && forall n :: 0 <= n < |notes| ==> notes[n].xnum >= 0
    modifies notes
    ensures Gaps(notes) == old(Gaps(notes))
    ensures ok <==> forall n :: 0 <= n < |notes| ==> old(notes[n].playnum) >= 0
    ensures var s, first := old(ScoreOf(startunits, notes)), if anacrusis > 0 then anacrusis else barsize;
            ok ==> Faithful(s, out) && Length(out) == Onset(s, |notes|) && AllPrintable(out) &&
                   Barred(out, first, barsize) && Room(out, first, barsize) > 0 && Longest(s, out, first, barsize)
  {
    hide *;
    ghost var s := ScoreOf(startunits, notes);
    var first := if anacrusis > 0 then anacrusis else barsize;
    var slicer := new Slicer(notes);
    var i, gap, barnotes := 0, startunits, first;
    ghost var now := 0;
    out := [];
    NothingHeld(s);
    StartPrinted(s, first, barsize);
    while i < |notes| || gap != 0
      invariant slicer.Valid() && slicer.notes == notes && Gaps(notes) == s.gaps && i <= |notes| && gap >= 0
      invariant fresh(slicer) && fresh(slicer.chord)
      invariant forall j :: 0 <= j < |slicer.chord.nodes| ==> fresh(slicer.chord.nodes[j])
      invariant Holds(s, i, now, slicer.held, Lefts(notes)) && now + gap == Onset(s, i)
      invariant forall n :: 0 <= n < i ==> s.lens[n] >= 0
      invariant barnotes > 0 && Printed(s, out, first, barsize, now, barnotes)
      decreases |notes| - i, gap
    {
      AddedBefore(s, i, now, slicer.held, Lefts(notes));
      if gap == 0 {
        ok := slicer.AddNext(i, s, now);
        if !ok {
          return;
        }
        NextOnset(s, i);
        gap := notes[i].xnum;
        i := i + 1;
      } else {
        var step, tones := slicer.PrintStep(gap, barnotes, s, i, now, out, first, barsize);
        out := out + [Slice(step, tones)];
        gap := gap - step;
        now := now + step;
        barnotes := barnotes - step;
        if barnotes == 0 {
          BarPrinted(s, out, first, barsize, now);
          out := out + [Bar];
          barnotes := barsize;
        }
      }
    }
    PrintedMeans(s, out, first, barsize, now, barnotes);
    ok := true;
  }
}
