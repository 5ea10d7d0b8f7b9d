/** Turning ticks into musical units (`quantize` in midi2abc.c): each note's rounding error
    is carried into the next, and old errors are gradually forgotten. */
module Quantize {
  import opened CInt
  import opened NoteLists

  /** What `quantize` works with: pulses per unit length and parts per unit length. */
  datatype Grid = Grid(xunit: nat, parts: nat) {
    ghost predicate Usable() {
      parts > 0 && 2 * xunit >= parts
    }

    /** The variable `quantum`. */
    function Quantum(): (q: nat)
      requires Usable()
      ensures q > 0
    {
      QuotientPositive(2 * xunit, parts);
      2 * xunit / parts
    }
  }

  lemma QuotientPositive(a: nat, b: nat)
    requires a >= b > 0
    ensures a / b > 0
  {
  }

  /** xnum of note k, when the notes are `dts` pulses apart. */
  function Xnum(g: Grid, dts: seq<int>, k: nat): int
    requires g.Usable() && k < |dts|
    decreases k, 1
  {
    CDiv(2 * (dts[k] + Spare(g, dts, k) + g.Quantum() / 4), g.Quantum())
  }

  /** The variable `spare` before note k. */
  function Spare(g: Grid, dts: seq<int>, k: nat): int
    requires g.Usable() && k <= |dts|
    decreases k, 0
  {
    if k == 0 then 0 else CDiv(ErrorAt(g, dts, k - 1) * 96, 100)
  }

  /** `spare` after note k, before some of it is forgotten. */
  function ErrorAt(g: Grid, dts: seq<int>, k: nat): int
    requires g.Usable() && k < |dts|
    decreases k, 2
  {
    Spare(g, dts, k) + dts[k] - CDiv(Xnum(g, dts, k) * g.xunit, g.parts)
  }

  /** posnum of note k: the sum of the xnums before it. */
  function Posnum(g: Grid, dts: seq<int>, k: nat): int
    requires g.Usable() && k <= |dts|
  {
    if k == 0 then 0 else Posnum(g, dts, k - 1) + Xnum(g, dts, k - 1)
  }

  /** The variable `toterror` before note k. */
  function TotalError(g: Grid, dts: seq<int>, k: nat): nat
    requires g.Usable() && k <= |dts|
  {
    if k == 0 then 0 else TotalError(g, dts, k - 1) + Abs(ErrorAt(g, dts, k - 1))
  }

  ghost predicate InBounds(q: nat, spare: int) {
    -(q / 4) <= spare <= q / 4 + 1
  }

  /** The track is quantized within bounds at every note. */
  ghost predicate Bounded(g: Grid, dts: seq<int>)
    requires g.Usable()
  {
    forall k :: 0 <= k < |dts| ==>
                  InBounds(g.Quantum(), Spare(g, dts, k)) && InBounds(g.Quantum(), ErrorAt(g, dts, k)) &&
                  Xnum(g, dts, k) >= 0
  }

  ghost predicate Forward(dts: seq<int>) {
    forall k :: 0 <= k < |dts| ==> dts[k] >= 0
  }

  /** Forgetting brings a bounded error nearer to zero. */
  lemma ForgetKeepsBounds(q: nat, spare: int)
    requires InBounds(q, spare)
    ensures InBounds(q, CDiv(spare * 96, 100))
  {
  }

  /** With a whole quantum, time taken off is half a quantum for each unit. */
  lemma SameHalf(a: int, b: int, p: int)
    requires p > 0 && a >= 0 && b >= 0 && 2 * a == p * b
    ensures a / p == b / 2
  {
    var k, r := b / 2, b % 2;
    assert p * b == 2 * (p * k) + p * r;
    if r == 0 {
      QuotientIs(a, p, k, 0);
    } else {
      QuotientIs(a, p, k, a - p * k);
    }
  }

  /** One note: with v = dtnext + spare + quantum/4 not negative, what is left of v after
      x = 2v/q half quanta are taken off is less than half a quantum. */
  lemma HalfQuantumLeft(q: nat, v: nat)
    requires q > 0
    ensures var x := 2 * v / q; 0 <= v - x * q / 2 <= q / 2
  {
    var x, r := 2 * v / q, 2 * v % q;
    assert 2 * v == x * q + r by {
      assert 2 * v == q * x + r;
    }
  }

  lemma StepInBounds(q: nat, spare: int, dt: nat)
    requires q > 0 && InBounds(q, spare)
    ensures var v := dt + spare + q / 4;
            var x := CDiv(2 * v, q);
            v >= 0 && x >= 0 && x == 2 * v / q && InBounds(q, spare + dt - x * q / 2)
  {
    var v := dt + spare + q / 4;
    HalfQuantumLeft(q, v);
    NonNegativeQuotient(2 * v, q);
  }

  lemma NonNegativeQuotient(a: nat, q: nat)
    requires q > 0
    ensures a / q >= 0
  {
  }

  /** When the quantum comes out whole, the error stays within bounds on every track. */
  lemma {:induction false} WholeQuantumAt(g: Grid, dts: seq<int>, k: nat)
    requires g.Usable() && 2 * g.xunit % g.parts == 0 && Forward(dts) && k < |dts|
    ensures InBounds(g.Quantum(), Spare(g, dts, k)) && InBounds(g.Quantum(), ErrorAt(g, dts, k))
    ensures Xnum(g, dts, k) >= 0
  {
    var q := g.Quantum();
    if k > 0 {
      WholeQuantumAt(g, dts, k - 1);
      ForgetKeepsBounds(q, ErrorAt(g, dts, k - 1));
    }
    hide InBounds, CDiv;
    ZeroInBounds(q);
    StepInBounds(q, Spare(g, dts, k), dts[k]);
    TimeTaken(g, Xnum(g, dts, k));
  }

  lemma ZeroInBounds(q: nat)
    ensures InBounds(q, 0)
  {
  }

  lemma TimeTaken(g: Grid, x: nat)
    requires g.Usable() && 2 * g.xunit % g.parts == 0
    ensures CDiv(x * g.xunit, g.parts) == x * g.Quantum() / 2
  {
    var q, p := g.Quantum(), g.parts;
    assert 2 * g.xunit == p * q;
    assert x * (2 * g.xunit) == x * (p * q);
    assert 2 * (x * g.xunit) == p * (x * q);
    SameHalf(x * g.xunit, x * q, p);
  }

  /** Otherwise a long enough note breaks the bound: this many pulses. */
  function LongNote(g: Grid): nat
    requires g.Usable()
  {
    g.Quantum() * (g.parts * (g.Quantum() + 1))
  }

  lemma FirstNote(g: Grid, dt: nat)
    requires g.Usable()
    ensures Xnum(g, [dt], 0) == CDiv(2 * (dt + g.Quantum() / 4), g.Quantum())
    ensures ErrorAt(g, [dt], 0) == dt - CDiv(Xnum(g, [dt], 0) * g.xunit, g.parts)
  {
    hide CDiv;
  }

  lemma LongNoteTooMuch(g: Grid)
    requires g.Usable() && 2 * g.xunit % g.parts != 0
    ensures !InBounds(g.Quantum(), ErrorAt(g, [LongNote(g)], 0))
  {
    hide CDiv, ErrorAt, Xnum;
    var q, p, r := g.Quantum(), g.parts, 2 * g.xunit % g.parts;
    FirstNote(g, LongNote(g));
    LongNoteUnits(q, p * (q + 1));
    assert 2 * g.xunit == p * q + r;
    LongNoteTaken(g.xunit, p, q, r);
    AtLeast(q + 1, r);
    assert r * (q + 1) == (q + 1) * r;
  }

  lemma LongNoteUnits(q: nat, m: nat)
    requires q > 0
    ensures CDiv(2 * (q * m + q / 4), q) == 2 * m
  {
    assert 2 * (q * m + q / 4) == q * (2 * m) + 2 * (q / 4);
    QuotientIs(2 * (q * m + q / 4), q, 2 * m, 2 * (q / 4));
  }

  lemma LongNoteTaken(xunit: nat, p: nat, q: nat, r: nat)
    requires p > 0 && 2 * xunit == p * q + r
    ensures CDiv(2 * (p * (q + 1)) * xunit, p) == q * (p * (q + 1)) + r * (q + 1)
  {
    var n := q + 1;
    assert 2 * (p * n) * xunit == p * (n * (2 * xunit));
    assert n * (2 * xunit) == n * (p * q + r) == q * (p * n) + r * n;
    assert 0 <= n * (2 * xunit);
    assert p * (n * (2 * xunit)) >= 0;
    QuotientIs(2 * (p * n) * xunit, p, n * (2 * xunit), 0);
  }

  /** The rounding error is bounded on every track exactly when the quantum is whole: when
      parts_per_unitlen, which the user may set, divides 2 * xunit. Two always does. */
  lemma BoundedExactly(g: Grid)
    requires g.Usable()
    ensures (forall dts: seq<int> :: Forward(dts) ==> Bounded(g, dts)) <==> 2 * g.xunit % g.parts == 0
    ensures g.parts == 2 ==> 2 * g.xunit % g.parts == 0
  {
    hide Bounded, InBounds, Xnum, ErrorAt, Spare, CDiv;
    if 2 * g.xunit % g.parts == 0 {
      forall dts: seq<int> | Forward(dts)
        ensures Bounded(g, dts)
      {
        WholeQuantumBounded(g, dts);
      }
    } else {
      LongNoteTooMuch(g);
      NotBounded(g, LongNote(g));
    }
  }

  lemma WholeQuantumBounded(g: Grid, dts: seq<int>)
    requires g.Usable() && 2 * g.xunit % g.parts == 0 && Forward(dts)
    ensures Bounded(g, dts)
  {
    hide InBounds, Xnum, ErrorAt, Spare;
    forall k | 0 <= k < |dts|
      ensures InBounds(g.Quantum(), Spare(g, dts, k)) && InBounds(g.Quantum(), ErrorAt(g, dts, k)) &&
              Xnum(g, dts, k) >= 0
    {
      WholeQuantumAt(g, dts, k);
    }
  }

  lemma NotBounded(g: Grid, dt: nat)
    requires g.Usable() && !InBounds(g.Quantum(), ErrorAt(g, [dt], 0))
    ensures Forward([dt]) && !Bounded(g, [dt])
  {
    hide InBounds, Xnum, ErrorAt, Spare;
  }

  /** On a track quantized within bounds the positions never go back, and the error that
      `quantize` returns is at most a quarter quantum and one for each note. */
  lemma {:induction false} BoundedTrack(g: Grid, dts: seq<int>, k: nat)
    requires g.Usable() && Bounded(g, dts) && k <= |dts|
    ensures forall j :: 0 <= j <= k ==> 0 <= Posnum(g, dts, j) <= Posnum(g, dts, k)
    ensures TotalError(g, dts, k) <= k * (g.Quantum() / 4 + 1)
  {
    hide Xnum, ErrorAt, Spare;
    if k > 0 {
      BoundedTrack(g, dts, k - 1);
      assert Xnum(g, dts, k - 1) >= 0;
      assert k * (g.Quantum() / 4 + 1) == (k - 1) * (g.Quantum() / 4 + 1) + (g.Quantum() / 4 + 1);
    }
  }

  /** The command-line options that `quantize` looks at. */
  datatype Options = Options(keepShort: bool, swallowRests: int, restsize: int)

  /** A time in ticks, with what is carried over to it, in units. */
  function Units(q: nat, spare: int, dt: int): int
    requires q > 0
  {
    CDiv(2 * (dt + spare + q / 4), q)
  }

  /** x is the first gap that comes to more than nothing among the notes from a up to b, or
      0 if none does. */
  ghost predicate FirstGap(q: nat, spare: int, dts: seq<int>, a: nat, b: nat, x: int)
    requires q > 0 && b <= |dts|
  {
    if x == 0 then forall j :: a <= j < b ==> Units(q, spare, dts[j]) <= 0
    else x > 0 && exists j :: a <= j < b && Units(q, spare, dts[j]) == x &&
                              forall m :: a <= m < j ==> Units(q, spare, dts[m]) <= 0
  }

  /** The end of a search over five notes that starts at note `next`. */
  function SearchEnd(count: nat, next: nat): (b: nat)
    requires next <= count
    ensures next <= b <= count
  {
    if next + 5 <= count then next + 5 else count
  }

  /** The loop of `xnum_to_next_nonchordal_note`, which looks at five notes at most. */
  function Search(q: nat, spare: int, dts: seq<int>, next: nat, i: nat): int
    requires q > 0 && next <= |dts|
    decreases |dts| - next
  {
    if next == |dts| || i >= 5 then 0
    else
      var x := Units(q, spare, dts[next]);
      if x > 0 then x else Search(q, spare, dts, next + 1, i + 1)
  }

  lemma {:induction false} SearchFinds(q: nat, spare: int, dts: seq<int>, next: nat, i: nat, b: nat)
    requires q > 0 && next <= b <= |dts| && b == (if next + 5 - i <= |dts| then next + 5 - i else |dts|) && i <= 5
    ensures FirstGap(q, spare, dts, next, b, Search(q, spare, dts, next, i))
    decreases b - next
  {
    hide Units;
    if next < b && Units(q, spare, dts[next]) <= 0 {
      SearchFinds(q, spare, dts, next + 1, i + 1, b);
    }
  }

  /** Units to the next note that is not in the same chord, as far as the search sees. */
  function ToNextOnset(g: Grid, dts: seq<int>, k: nat): int
    requires g.Usable() && k < |dts|
  {
    if Xnum(g, dts, k) > 0 then Xnum(g, dts, k)
    else Search(g.Quantum(), Spare(g, dts, k), dts, k + 1, 0)
  }

  function Playnum(o: Options, q: nat, tplay: int, toNext: int): int
    requires q > 0
  {
    var p := CDiv(2 * (tplay + q / 4), q);
    var kept := if p == 0 && o.keepShort then 1 else p;
    if o.swallowRests >= 0 && toNext - kept <= o.restsize && toNext > 0 then toNext else kept
  }

  /** The quantum goes `parts` times into twice the unit. */
  lemma QuantumMeans(g: Grid)
    requires g.Usable()
    ensures g.parts * g.Quantum() <= 2 * g.xunit < g.parts * (g.Quantum() + 1)
  {
  }

  /** The distance to the next note, in half quanta, a quarter of a quantum being rounded up. */
  lemma XnumMeans(g: Grid, dts: seq<int>, k: nat, u: int)
    requires g.Usable() && k < |dts|
    requires var v := 2 * dts[k] + 2 * Spare(g, dts, k) + 2 * (g.Quantum() / 4);
             v >= 0 && g.Quantum() * u <= v < g.Quantum() * u + g.Quantum()
    ensures Xnum(g, dts, k) == u == Units(g.Quantum(), Spare(g, dts, k), dts[k])
  {
    hide CDiv, Spare;
    DivUnique(2 * (dts[k] + Spare(g, dts, k) + g.Quantum() / 4), g.Quantum(), u);
  }

  /** What is carried over is 96 parts in 100 of the error, less a part of a tick. */
  lemma SpareMeans(g: Grid, dts: seq<int>, k: nat)
    requires g.Usable() && k < |dts|
    ensures Spare(g, dts, 0) == 0
    ensures var e, s := ErrorAt(g, dts, k), Spare(g, dts, k + 1);
            if e >= 0 then 0 <= 96 * e - 100 * s < 100 else -100 < 96 * e - 100 * s <= 0
  {
    hide CDiv, ErrorAt;
    DivMeans(ErrorAt(g, dts, k) * 96, 100);
  }

  /** The total error is the sum of the sizes of the errors. */
  lemma TotalErrorMeans(g: Grid, dts: seq<int>, k: nat)
    requires g.Usable() && k < |dts|
    ensures TotalError(g, dts, 0) == 0
    ensures var e := ErrorAt(g, dts, k);
            TotalError(g, dts, k + 1) - TotalError(g, dts, k) == if e >= 0 then e else -e
  {
    hide ErrorAt;
  }

  /** A note's length: p half quanta, a quarter of a quantum being rounded up; but one instead
      of none if short notes are kept, and all the time to the next onset if the rest that
      would be left is to be swallowed. */
  lemma PlaynumMeans(o: Options, q: nat, tplay: nat, toNext: int, p: int)
    requires q > 0 && q * p <= 2 * tplay + 2 * (q / 4) < q * p + q
    ensures var kept := if p == 0 && o.keepShort then 1 else p;
            && (o.swallowRests < 0 || toNext <= 0 || toNext > kept + o.restsize ==> Playnum(o, q, tplay, toNext) == kept)
            && (o.swallowRests >= 0 && 0 < toNext <= kept + o.restsize ==> Playnum(o, q, tplay, toNext) == toNext)
  {
    hide CDiv;
    DivUnique(2 * (tplay + q / 4), q, p);
  }

  /** The time to the next onset, for a note of a track. */
  lemma ToNextMeans(g: Grid, dts: seq<int>, k: nat)
    requires g.Usable() && k < |dts|
    ensures Xnum(g, dts, k) > 0 ==> ToNextOnset(g, dts, k) == Xnum(g, dts, k)
    ensures Xnum(g, dts, k) <= 0 ==>
              FirstGap(g.Quantum(), Spare(g, dts, k), dts, k + 1, SearchEnd(|dts|, k + 1), ToNextOnset(g, dts, k))
  {
    hide Units, FirstGap, Xnum, Spare;
    SearchFinds(g.Quantum(), Spare(g, dts, k), dts, k + 1, 0, SearchEnd(|dts|, k + 1));
  }

  /** So the length that `quantize` gives a note that has lasted tplay ticks. */
  lemma QuantizedLength(g: Grid, o: Options, dts: seq<int>, tplays: seq<int>, k: nat, p: int)
    requires g.Usable() && k < |dts| && |tplays| == |dts| && tplays[k] >= 0
    requires g.Quantum() * p <= 2 * tplays[k] + 2 * (g.Quantum() / 4) < g.Quantum() * p + g.Quantum()
    ensures var kept, next := if p == 0 && o.keepShort then 1 else p, ToNextOnset(g, dts, k);
            Quantized(g, o, dts, tplays, k).playnum ==
            if o.swallowRests >= 0 && 0 < next <= kept + o.restsize then next else kept
  {
    hide Playnum, ToNextOnset, Xnum, Posnum;
    PlaynumMeans(o, g.Quantum(), tplays[k], ToNextOnset(g, dts, k), p);
  }

  lemma PlaynumNotNegative(o: Options, q: nat, tplay: nat, toNext: int)
    requires q > 0
    ensures Playnum(o, q, tplay, toNext) >= 0
  {
    NonNegativeQuotient(2 * (tplay + q / 4), q);
  }

  ghost function Gaps(notes: seq<Note>): (r: seq<int>)
    reads notes
    ensures |r| == |notes| && forall k :: 0 <= k < |notes| ==> r[k] == notes[k].dtnext
  {
    seq(|notes|, k requires 0 <= k < |notes| reads notes => notes[k].dtnext)
  }

  ghost predicate DistinctNotes(notes: seq<Note>) {
    forall i, j :: 0 <= i < j < |notes| ==> notes[i] != notes[j]
  }

  ghost function Lengths(notes: seq<Note>): (r: seq<int>)
    reads notes
    ensures |r| == |notes| && forall k :: 0 <= k < |notes| ==> r[k] == notes[k].tplay
  {
    seq(|notes|, k requires 0 <= k < |notes| reads notes => notes[k].tplay)
  }

  /** The quantized fields of a note. */
  datatype Fields = Fields(xnum: int, playnum: int, posnum: int)

  ghost function FieldsOf(n: Note): Fields
    reads n
  {
    Fields(n.xnum, n.playnum, n.posnum)
  }

  /** What they are to be for note k, from the times in ticks. */
  function Quantized(g: Grid, o: Options, dts: seq<int>, tplays: seq<int>, k: nat): Fields
    requires g.Usable() && k < |dts| && |tplays| == |dts|
  {
    Fields(Xnum(g, dts, k), Playnum(o, g.Quantum(), tplays[k], ToNextOnset(g, dts, k)), Posnum(g, dts, k))
  }

  method NextOnset(notes: seq<Note>, k: nat, xnum: int, spare: int, quantum: nat) returns (x: int)
    requires k < |notes| && quantum > 0
    ensures if xnum > 0 then x == xnum
            else FirstGap(quantum, spare, Gaps(notes), k + 1, SearchEnd(|notes|, k + 1), x)
    ensures x == if xnum > 0 then xnum else Search(quantum, spare, Gaps(notes), k + 1, 0)
  {
    hide Units, FirstGap;
    if xnum > 0 {
      return xnum;
    }
    ghost var dts := Gaps(notes);
    SearchFinds(quantum, spare, dts, k + 1, 0, SearchEnd(|notes|, k + 1));
    var i, next := 0, k + 1;
    while next < |notes| && i < 5
      invariant next <= |notes|
      invariant Search(quantum, spare, dts, next, i) == Search(quantum, spare, dts, k + 1, 0)
    {
      x := Units(quantum, spare, notes[next].dtnext);
      if x > 0 {
        return x;
      }
      i := i + 1;
      next := next + 1;
    }
    return 0;
  }

  /** One round of the loop in `quantize`, in terms of the variables before it. */
  lemma Round(g: Grid, o: Options, dts: seq<int>, tplays: seq<int>, k: nat, xnum: int, toNext: int)
    requires g.Usable() && k < |dts| && |tplays| == |dts|
    requires xnum == CDiv(2 * (dts[k] + Spare(g, dts, k) + g.Quantum() / 4), g.Quantum())
    requires toNext == if xnum > 0 then xnum else Search(g.Quantum(), Spare(g, dts, k), dts, k + 1, 0)
    ensures Quantized(g, o, dts, tplays, k) ==
            Fields(xnum, Playnum(o, g.Quantum(), tplays[k], toNext), Posnum(g, dts, k))
    ensures ErrorAt(g, dts, k) == Spare(g, dts, k) + dts[k] - CDiv(xnum * g.xunit, g.parts)
    ensures Spare(g, dts, k + 1) == CDiv(ErrorAt(g, dts, k) * 96, 100)
    ensures TotalError(g, dts, k + 1) == TotalError(g, dts, k) + Abs(ErrorAt(g, dts, k))
    ensures Posnum(g, dts, k + 1) == Posnum(g, dts, k) + xnum
  {
    hide CDiv, Search, Playnum;
  }

  /** `quantize`: fills in the quantized fields of every note and returns the total error. */
  method QuantizeTrack(notes: seq<Note>, g: Grid, o: Options) returns (toterror: nat)
    requires DistinctNotes(notes) && (g.xunit == 0 || g.Usable())
    modifies notes
    ensures Gaps(notes) == old(Gaps(notes)) && Lengths(notes) == old(Lengths(notes))
    ensures g.xunit == 0 ==> toterror == 10000
    ensures g.xunit != 0 ==> toterror == TotalError(g, Gaps(notes), |notes|) &&
                             forall k :: 0 <= k < |notes| ==>
                               FieldsOf(notes[k]) == Quantized(g, o, Gaps(notes), Lengths(notes), k)
  {
    hide CDiv, Search, Playnum, Xnum, Spare, ErrorAt, Posnum, TotalError, ToNextOnset, Quantized;
    if g.xunit == 0 {
      return 10000;
    }
    var quantum := g.Quantum();
    ghost var dts, tplays := Gaps(notes), Lengths(notes);
    var spare, posnum := 0, 0;
    toterror := 0;
    FromZero(g, dts);
    var j := 0;
    while j < |notes|
      invariant 0 <= j <= |notes| && Gaps(notes) == dts && Lengths(notes) == tplays
      invariant spare == Spare(g, dts, j) && posnum == Posnum(g, dts, j) && toterror == TotalError(g, dts, j)
      invariant forall k :: 0 <= k < j ==> FieldsOf(notes[k]) == Quantized(g, o, dts, tplays, k)
    {
      var note := notes[j];
      var xnum := CDiv(2 * (note.dtnext + spare + quantum / 4), quantum);
      var xxnum := NextOnset(notes, j, xnum, spare, quantum);
      Round(g, o, dts, tplays, j, xnum, xxnum);
      Fill(notes, j, note, xnum, posnum, Playnum(o, quantum, note.tplay, xxnum));
      spare := spare + note.dtnext - CDiv(xnum * g.xunit, g.parts);
      toterror := toterror + Abs(spare);
      spare := CDiv(spare * 96, 100);
      posnum := posnum + xnum;
      j := j + 1;
    }
  }

  lemma FromZero(g: Grid, dts: seq<int>)
    requires g.Usable()
    ensures Spare(g, dts, 0) == 0 && Posnum(g, dts, 0) == 0 && TotalError(g, dts, 0) == 0
  {
  }

  /** The assignments to the fields of one note. */
  method Fill(notes: seq<Note>, j: nat, n: Note, xnum: int, posnum: int, playnum: int)
    requires DistinctNotes(notes) && j < |notes| && notes[j] == n
    modifies n`xnum, n`posnum, n`playnum
    ensures FieldsOf(n) == Fields(xnum, playnum, posnum)
    ensures Gaps(notes) == old(Gaps(notes)) && Lengths(notes) == old(Lengths(notes))
    ensures forall k :: 0 <= k < |notes| && k != j ==> FieldsOf(notes[k]) == old(FieldsOf(notes[k]))
  {
    n.xnum := xnum;
    n.posnum := posnum;
    n.playnum := playnum;
    assert forall k :: 0 <= k < |notes| && k != j ==> notes[k] != n;
  }
}
