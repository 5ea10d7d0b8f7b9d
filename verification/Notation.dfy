/** From times in ticks to notes in bars (midi2abc.c): `quantize` and then `printtrack`. */
module Notation {
  import opened NoteLists
  import Q = Quantize
  import opened ChordSlicer

  /** Times do not go back, and no note lasts less than no time. */
  ghost predicate Recorded(notes: seq<Note>)
    reads notes
  {
    forall n :: 0 <= n < |notes| ==> notes[n].dtnext >= 0 && notes[n].tplay >= 0
  }

  /** The score that `quantize` makes of times. */
  ghost function Rounded(g: Q.Grid, o: Q.Options, startwait: nat, dts: seq<int>, tplays: seq<int>, pitches: seq<int>): (s: Score)
    requires g.Usable() && 2 * g.xunit % g.parts == 0
    requires Q.Forward(dts) && |tplays| == |pitches| == |dts|
    ensures s.Valid() && |s.gaps| == |dts| && s.pitches == pitches
    ensures forall n :: 0 <= n < |dts| ==> s.gaps[n] == Q.Xnum(g, dts, n)
    ensures forall n :: 0 <= n < |dts| ==> s.lens[n] == Q.Quantized(g, o, dts, tplays, n).playnum
  {
    hide *;
    StartNotNegative(g.Quantum(), startwait);
    XnumsNotNegative(g, dts);
    Score(Q.Units(g.Quantum(), 0, startwait),
          seq(|dts|, n requires 0 <= n < |dts| => Q.Xnum(g, dts, n)),
          seq(|dts|, n requires 0 <= n < |dts| => Q.Quantized(g, o, dts, tplays, n).playnum),
          pitches)
  }

  lemma StartNotNegative(q: nat, startwait: nat)
    requires q > 0
    ensures Q.Units(q, 0, startwait) >= 0
  {
    Q.NonNegativeQuotient(2 * (startwait + 0 + q / 4), q);
  }

  lemma XnumsNotNegative(g: Q.Grid, dts: seq<int>)
    requires g.Usable() && 2 * g.xunit % g.parts == 0 && Q.Forward(dts)
    ensures forall n :: 0 <= n < |dts| ==> Q.Xnum(g, dts, n) >= 0
  {
    hide *;
    forall n | 0 <= n < |dts|
      ensures Q.Xnum(g, dts, n) >= 0
    {
      Q.WholeQuantumAt(g, dts, n);
    }
  }

  /** A note's posnum is where it stands in the score, from the first note on. */
  lemma {:induction false} PlaceInScore(g: Q.Grid, o: Q.Options, startwait: nat, dts: seq<int>, tplays: seq<int>, pitches: seq<int>, n: nat)
    requires g.Usable() && 2 * g.xunit % g.parts == 0
    requires Q.Forward(dts) && |tplays| == |pitches| == |dts| && n <= |dts|
    ensures var s := Rounded(g, o, startwait, dts, tplays, pitches);
            Onset(s, n) == s.lead + Q.Posnum(g, dts, n)
    ensures n < |dts| ==> Q.Quantized(g, o, dts, tplays, n).posnum == Q.Posnum(g, dts, n)
  {
    hide Rounded, Q.Xnum, Q.Playnum, Q.ToNextOnset;
    if n > 0 {
      PlaceInScore(g, o, startwait, dts, tplays, pitches, n - 1);
    }
  }

  lemma FieldsAre(g: Q.Grid, o: Q.Options, dts: seq<int>, tplays: seq<int>, n: nat)
    requires g.Usable() && n < |dts| && |tplays| == |dts|
    ensures Q.Quantized(g, o, dts, tplays, n).xnum == Q.Xnum(g, dts, n)
    ensures tplays[n] >= 0 ==> Q.Quantized(g, o, dts, tplays, n).playnum >= 0
  {
    hide Q.Playnum, Q.Xnum, Q.ToNextOnset, Q.Posnum;
    if tplays[n] >= 0 {
      Q.PlaynumNotNegative(o, g.Quantum(), tplays[n], Q.ToNextOnset(g, dts, n));
    }
  }

  /** Times as they are recorded are always printed: with parts_per_unitlen dividing 2 * xunit
      no fatal error comes, and what is printed is, bar by bar, the score that `quantize` has
      made of them, with every note in full. */
  method Notate(notes: seq<Note>, startwait: nat, g: Q.Grid, o: Q.Options, barsize: int, anacrusis: int)
    returns (ok: bool, out: seq<Token>)
    requires Track(notes) && Recorded(notes) && barsize > 0
    requires g.Usable() && 2 * g.xunit % g.parts == 0
    modifies notes
    ensures ok
    ensures Q.Forward(old(Q.Gaps(notes)))
    ensures var s := Rounded(g, o, startwait, old(Q.Gaps(notes)), old(Q.Lengths(notes)), Pitches(notes));
            var first := if anacrusis > 0 then anacrusis else barsize;
            && Faithful(s, out) && Length(out) == Onset(s, |notes|) && AllPrintable(out)
            && Barred(out, first, barsize) && Longest(s, out, first, barsize)
            && forall n: nat :: n < |notes| ==> Heard(s, out, n) == Clip(Length(out) - Onset(s, n), 0, s.lens[n])
  {
    ghost var dts, tplays := Q.Gaps(notes), Q.Lengths(notes);
    TrackDistinct(notes);
    var _ := Q.QuantizeTrack(notes, g, o);
    hide *;
    QuantizedScore(notes, g, o, startwait, dts, tplays);
    StartNotNegative(g.Quantum(), startwait);
    ok, out := PrintTrack(notes, Q.Units(g.Quantum(), 0, startwait), barsize, anacrusis);
    ghost var s := Rounded(g, o, startwait, dts, tplays, Pitches(notes));
    AllHeard(s, out, if anacrusis > 0 then anacrusis else barsize, barsize);
  }

  lemma TrackDistinct(notes: seq<Note>)
    requires Track(notes)
    ensures Q.DistinctNotes(notes)
  {
  }

  /** The notes are now that score. */
  lemma QuantizedScore(notes: seq<Note>, g: Q.Grid, o: Q.Options, startwait: nat, dts: seq<int>, tplays: seq<int>)
    requires g.Usable() && 2 * g.xunit % g.parts == 0
    requires Q.Forward(dts) && |dts| == |tplays| == |notes| && forall n :: 0 <= n < |notes| ==> tplays[n] >= 0
    requires forall k :: 0 <= k < |notes| ==> Q.FieldsOf(notes[k]) == Q.Quantized(g, o, dts, tplays, k)
    ensures Q.Units(g.Quantum(), 0, startwait) >= 0
    ensures forall n :: 0 <= n < |notes| ==> notes[n].xnum >= 0 && notes[n].playnum >= 0
    ensures ScoreOf(Q.Units(g.Quantum(), 0, startwait), notes) == Rounded(g, o, startwait, dts, tplays, Pitches(notes))
  {
    hide Q.Quantized, Q.Xnum, Q.Units;
    StartNotNegative(g.Quantum(), startwait);
    XnumsNotNegative(g, dts);
    forall n | 0 <= n < |notes|
      ensures notes[n].xnum == Q.Xnum(g, dts, n) && notes[n].playnum == Q.Quantized(g, o, dts, tplays, n).playnum >= 0
    {
      FieldsAre(g, o, dts, tplays, n);
      assert Q.FieldsOf(notes[n]) == Q.Quantized(g, o, dts, tplays, n);
    }
  }

  lemma AllHeard(s: Score, out: seq<Token>, first: int, bar: int)
    requires s.Valid() && Faithful(s, out) && Barred(out, first, bar) && forall n :: 0 <= n < |s.lens| ==> s.lens[n] >= 0
    ensures forall n: nat :: n < |s.gaps| ==> Heard(s, out, n) == Clip(Length(out) - Onset(s, n), 0, s.lens[n])
  {
    hide Faithful, Barred, Heard, Clip, Positive, Length, Onset;
    BarredPositive(out, first, bar);
    forall n: nat | n < |s.gaps|
      ensures Heard(s, out, n) == Clip(Length(out) - Onset(s, n), 0, s.lens[n])
    {
      HeardInFull(s, out, n);
    }
  }
}
