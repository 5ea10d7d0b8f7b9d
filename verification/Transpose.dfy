/** Transposing music (toabc.c): a new key and a number of steps on the staff are worked out
    once for each key, and every note is moved by those steps. */
module Transpose {
  import opened CInt

  /** A note as it is written: accidental ' ', '=', '^' or '_' (the last two `mult` times), a
      letter, and the octave, 0 starting at middle C. */
  datatype Written = Written(accidental: char, mult: int, note: char, octave: int)

  predicate IsLetter(c: char) {
    'a' <= c <= 'g'
  }

  predicate IsAccidental(c: char) {
    c == ' ' || c == '=' || c == '^' || c == '_'
  }

  predicate Legible(w: Written) {
    IsAccidental(w.accidental) && IsLetter(w.note)
  }

  /** The place of a letter in "cdefgab". */
  function Degree(c: char): (v: nat)
    requires IsLetter(c)
    ensures v < 7 && Letter(v) == c
  {
    (c as int - 'c' as int + 7) % 7
  }

  function Letter(v: nat): (c: char)
    requires v < 7
    ensures IsLetter(c) && (c as int - 'c' as int + 7) % 7 == v
  {
    (if v < 5 then 'c' as int + v else 'a' as int + v - 5) as char
  }

  /** The index of a letter in the tables of accidentals. */
  function Index(c: char): (i: nat)
    requires IsLetter(c)
    ensures i < 7
  {
    c as int - 'a' as int
  }

  /** Where the letters a to g stand in the order of sharps, f c g d a e b. */
  function SharpOrder(i: nat): nat
    requires i < 7
  {
    [4, 6, 1, 3, 5, 0, 2][i]
  }

  /** The accidentals of the key with that many sharps, or, below zero, flats. */
  function KeyMap(sf: int): (map7: seq<int>)
    ensures |map7| == 7
    ensures forall i :: 0 <= i < 7 ==>
              map7[i] == if sf > SharpOrder(i) then 1 else if sf < SharpOrder(i) - 6 then -1 else 0
  {
    seq(7, i requires 0 <= i < 7 => if sf > SharpOrder(i) then 1 else if sf < SharpOrder(i) - 6 then -1 else 0)
  }

  /** Semitones above C. */
  function Scale(v: nat): nat
    requires v < 7
  {
    [0, 2, 4, 5, 7, 9, 11][v]
  }

  function Accidental(w: Written): int
    requires w.accidental != ' '
  {
    if w.accidental == '^' then w.mult else if w.accidental == '_' then -w.mult else 0
  }

  /** The accidentals in force after a note: its own holds for its letter to the end of the bar. */
  function InForce(acc: seq<int>, w: Written): (acc': seq<int>)
    requires |acc| == 7 && Legible(w)
    ensures |acc'| == 7
  {
    if w.accidental == ' ' then acc else acc[Index(w.note) := Accidental(w)]
  }

  function Pitch(acc: seq<int>, w: Written): int
    requires |acc| == 7 && Legible(w)
  {
    Scale(Degree(w.note)) + InForce(acc, w)[Index(w.note)] + 12 * w.octave + 60
  }

  ghost predicate AllLegible(ws: seq<Written>) {
    forall k :: 0 <= k < |ws| ==> Legible(ws[k])
  }

  /** The pitches of the notes of a bar. */
  function Sounds(acc: seq<int>, ws: seq<Written>): (ps: seq<int>)
    requires |acc| == 7 && AllLegible(ws)
    ensures |ps| == |ws|
    decreases ws
  {
    if ws == [] then [] else [Pitch(acc, ws[0])] + Sounds(InForce(acc, ws[0]), ws[1..])
  }

  /** The key and the number of steps that `event_key` works out. */
  function NewKey(sharps: int, t: int): (k: int)
    ensures -5 <= k <= 6
  {
    var k := CMod(sharps + 7 * t, 12);
    if k > 6 then k - 12 else if k < -5 then k + 12 else k
  }

  function Lines(sharps: int, t: int): int {
    var k := CMod(sharps + 7 * t, 12);
    CDiv(sharps + 7 * t, 12) + if k > 6 then 1 else if k < -5 then -1 else 0
  }

  lemma KeyAndLines(sharps: int, t: int)
    ensures 12 * Lines(sharps, t) + NewKey(sharps, t) == sharps + 7 * t
  {
  }

  /** The accidental that stands for acc semitones up. */
  function Sign(acc: int): (c: char)
    ensures IsAccidental(c) && c != ' '
  {
    if acc > 0 then '^' else if acc < 0 then '_' else '='
  }

  /** What `event_note1` makes of a note. */
  function Moved(sharps: int, t: int, w: Written): (w': Written)
    requires Legible(w)
    ensures Legible(w')
  {
    if t == 0 then w
    else
      var step := Degree(w.note) + Lines(sharps, t);
      var note := Letter(step % 7);
      if w.accidental == ' ' then Written(' ', 0, note, w.octave + step / 7)
      else
        var acc := Accidental(w) - KeyMap(sharps)[Index(w.note)] + KeyMap(NewKey(sharps, t))[Index(note)];
        Written(Sign(acc), if acc == 0 then 1 else Abs(acc), note, w.octave + step / 7)
  }

  function AllMoved(sharps: int, t: int, ws: seq<Written>): (r: seq<Written>)
    requires AllLegible(ws)
    ensures |r| == |ws| && AllLegible(r) && forall k :: 0 <= k < |r| ==> r[k] == Moved(sharps, t, ws[k])
  {
    seq(|ws|, k requires 0 <= k < |ws| && AllLegible(ws) => Moved(sharps, t, ws[k]))
  }

  /** The key that is printed. */
  function KeyAfter(sharps: int, t: int): int {
    if t == 0 then sharps else NewKey(sharps, t)
  }

  /** Pitches of the notes of a key, in steps on the staff, are as even as they can be. */
  lemma StepPitch(sharps: int, c: char, octave: int)
    requires -7 <= sharps <= 7 && IsLetter(c)
    ensures Scale(Degree(c)) + KeyMap(sharps)[Index(c)] + 12 * octave ==
            (12 * (7 * octave + Degree(c)) + 5 + sharps) / 7
  {
    assert (12 * (7 * octave + Degree(c)) + 5 + sharps) / 7 == (12 * Degree(c) + 5 + sharps) / 7 + 12 * octave;
  }

  /** A note of the key goes to a note of the new key, t semitones up. */
  lemma StepMoved(sharps: int, t: int, c: char, octave: int)
    requires -7 <= sharps <= 7 && IsLetter(c)
    ensures var step := Degree(c) + Lines(sharps, t);
            var c' := Letter(step % 7);
            Scale(Degree(c')) + KeyMap(NewKey(sharps, t))[Index(c')] + 12 * (octave + step / 7) ==
            Scale(Degree(c)) + KeyMap(sharps)[Index(c)] + 12 * octave + t
  {
    hide *;
    var lines, newkey := Lines(sharps, t), NewKey(sharps, t);
    var step := Degree(c) + lines;
    KeyAndLines(sharps, t);
    StepPitch(sharps, c, octave);
    LetterDegree(step % 7);
    StepPitch(newkey, Letter(step % 7), octave + step / 7);
    assert 7 * (octave + step / 7) + step % 7 == 7 * octave + Degree(c) + lines;
  }

  lemma LetterDegree(v: nat)
    requires v < 7
    ensures Degree(Letter(v)) == v
  {
  }

  /** How far the accidental in force for a letter is off the key. */
  function Off(acc: seq<int>, sf: int, c: char): int
    requires |acc| == 7 && IsLetter(c)
  {
    acc[Index(c)] - KeyMap(sf)[Index(c)]
  }

  /** The letter that a letter moves to. */
  function MovedLetter(c: char, lines: int): (c': char)
    requires IsLetter(c)
    ensures IsLetter(c')
  {
    Letter((Degree(c) + lines) % 7)
  }

  /** Accidentals in force before and after: each letter is off its key by as much as the
      letter it has moved to is off the new key. */
  ghost predicate MovedForce(sharps: int, t: int, acc: seq<int>, acc': seq<int>)
    requires |acc| == |acc'| == 7
  {
    forall c :: IsLetter(c) ==>
      Off(acc', NewKey(sharps, t), MovedLetter(c, Lines(sharps, t))) == Off(acc, sharps, c)
  }

  lemma MovedLetters(c: char, d: char, lines: int)
    requires IsLetter(c) && IsLetter(d)
    ensures MovedLetter(c, lines) == MovedLetter(d, lines) <==> c == d
    ensures Degree(MovedLetter(c, lines)) == (Degree(c) + lines) % 7
  {
    assert (Degree(c) + lines) % 7 == (Degree(d) + lines) % 7 <==> Degree(c) == Degree(d);
    hide *;
    LetterDegree((Degree(c) + lines) % 7);
    LetterDegree((Degree(d) + lines) % 7);
    MovedMeans(c, lines);
    MovedMeans(d, lines);
  }

  lemma MovedMeans(c: char, lines: int)
    requires IsLetter(c)
    ensures MovedLetter(c, lines) == Letter((Degree(c) + lines) % 7)
  {
  }

  /** An accidental changes what is in force for its own letter only. */
  lemma ForceAt(acc: seq<int>, sf: int, w: Written, c: char)
    requires |acc| == 7 && Legible(w) && IsLetter(c)
    ensures Off(InForce(acc, w), sf, c) ==
            if w.accidental != ' ' && c == w.note then Accidental(w) - KeyMap(sf)[Index(c)] else Off(acc, sf, c)
  {
  }

  lemma MovedParts(sharps: int, t: int, w: Written)
    requires Legible(w) && t != 0
    ensures var w' := Moved(sharps, t, w);
            && w'.note == MovedLetter(w.note, Lines(sharps, t))
            && w'.octave == w.octave + (Degree(w.note) + Lines(sharps, t)) / 7
            && (w'.accidental == ' ' <==> w.accidental == ' ')
            && (w.accidental != ' ' ==> Accidental(w') == Accidental(w) - KeyMap(sharps)[Index(w.note)] +
                                                          KeyMap(NewKey(sharps, t))[Index(w'.note)])
  {
    hide Lines, NewKey, KeyMap;
  }

  lemma ForceMovedAt(sharps: int, t: int, acc: seq<int>, acc': seq<int>, w: Written, c: char)
    requires |acc| == |acc'| == 7 && t != 0 && Legible(w) && IsLetter(c)
    requires Off(acc', NewKey(sharps, t), MovedLetter(c, Lines(sharps, t))) == Off(acc, sharps, c)
    ensures Off(InForce(acc', Moved(sharps, t, w)), NewKey(sharps, t), MovedLetter(c, Lines(sharps, t))) ==
            Off(InForce(acc, w), sharps, c)
  {
    hide *;
    MovedParts(sharps, t, w);
    LegibleParts(w);
    MovedLetters(c, w.note, Lines(sharps, t));
    ForceAt(acc, sharps, w, c);
    ForceAt(acc', NewKey(sharps, t), Moved(sharps, t, w), MovedLetter(c, Lines(sharps, t)));
  }

  lemma LegibleParts(w: Written)
    requires Legible(w)
    ensures IsLetter(w.note) && IsAccidental(w.accidental)
  {
  }

  lemma ForceMoved(sharps: int, t: int, acc: seq<int>, acc': seq<int>, w: Written)
    requires |acc| == |acc'| == 7 && t != 0 && Legible(w) && MovedForce(sharps, t, acc, acc')
    ensures MovedForce(sharps, t, InForce(acc, w), InForce(acc', Moved(sharps, t, w)))
  {
    hide Off, NewKey, Lines, MovedLetter, Moved, InForce, Legible, IsLetter;
    forall c | IsLetter(c)
      ensures Off(InForce(acc', Moved(sharps, t, w)), NewKey(sharps, t), MovedLetter(c, Lines(sharps, t))) ==
              Off(InForce(acc, w), sharps, c)
    {
      ForceMovedAt(sharps, t, acc, acc', w, c);
    }
  }

  lemma ForceOf(sharps: int, t: int, acc: seq<int>, acc': seq<int>, c: char)
    requires |acc| == |acc'| == 7 && MovedForce(sharps, t, acc, acc') && IsLetter(c)
    ensures Off(acc', NewKey(sharps, t), MovedLetter(c, Lines(sharps, t))) == Off(acc, sharps, c)
  {
  }

  lemma PitchFromStep(acc: seq<int>, sf: int, w: Written)
    requires |acc| == 7 && Legible(w)
    ensures Pitch(acc, w) ==
            Scale(Degree(w.note)) + KeyMap(sf)[Index(w.note)] + 12 * w.octave + Off(InForce(acc, w), sf, w.note) + 60
  {
  }

  lemma PitchMoved(sharps: int, t: int, acc: seq<int>, acc': seq<int>, w: Written)
    requires |acc| == |acc'| == 7 && t != 0 && Legible(w) && MovedForce(sharps, t, acc, acc') && -7 <= sharps <= 7
    ensures Pitch(acc', Moved(sharps, t, w)) == Pitch(acc, w) + t
  {
    hide *;
    LegibleParts(w);
    ForceMoved(sharps, t, acc, acc', w);
    ForceOf(sharps, t, InForce(acc, w), InForce(acc', Moved(sharps, t, w)), w.note);
    MovedParts(sharps, t, w);
    MovedMeans(w.note, Lines(sharps, t));
    StepMoved(sharps, t, w.note, w.octave);
    PitchFromStep(acc, sharps, w);
    PitchFromStep(acc', NewKey(sharps, t), Moved(sharps, t, w));
  }

  lemma KeyForce(sharps: int, t: int)
    ensures MovedForce(sharps, t, KeyMap(sharps), KeyMap(NewKey(sharps, t)))
  {
  }

  lemma {:induction false} SoundsMoved(sharps: int, t: int, acc: seq<int>, acc': seq<int>, ws: seq<Written>, k: nat)
    requires |acc| == |acc'| == 7 && t != 0 && AllLegible(ws) && MovedForce(sharps, t, acc, acc') && -7 <= sharps <= 7
    requires k < |ws|
    ensures Sounds(acc', AllMoved(sharps, t, ws))[k] == Sounds(acc, ws)[k] + t
    decreases ws
  {
    hide Pitch, InForce, MovedForce, Moved, Legible;
    PitchMoved(sharps, t, acc, acc', ws[0]);
    if k > 0 {
      ForceMoved(sharps, t, acc, acc', ws[0]);
      SoundsMoved(sharps, t, InForce(acc, ws[0]), InForce(acc', Moved(sharps, t, ws[0])), ws[1..], k - 1);
      assert AllMoved(sharps, t, ws)[1..] == AllMoved(sharps, t, ws[1..]);
    }
  }

  /** Transposing is exact: in every key and for every interval, every note of a bar sounds
      t semitones higher, read in the new key, whatever accidentals came before it. */
  lemma BarMoved(sharps: int, t: int, ws: seq<Written>, k: nat)
    requires AllLegible(ws) && -7 <= sharps <= 7 && k < |ws|
    ensures Sounds(KeyMap(KeyAfter(sharps, t)), AllMoved(sharps, t, ws))[k] == Sounds(KeyMap(sharps), ws)[k] + t
  {
    if t == 0 {
      assert AllMoved(sharps, t, ws) == ws;
    } else {
      hide Sounds, AllMoved, KeyMap, MovedForce;
      KeyForce(sharps, t);
      SoundsMoved(sharps, t, KeyMap(sharps), KeyMap(NewKey(sharps, t)), ws, k);
    }
  }

  /** Going by t and then by u is going by t + u: the same key, and the same notes. */
  lemma KeysCompose(sharps: int, t: int, u: int)
    ensures NewKey(NewKey(sharps, t), u) == NewKey(sharps, t + u)
    ensures Lines(sharps, t) + Lines(NewKey(sharps, t), u) == Lines(sharps, t + u)
  {
    hide *;
    var a, b, c := Lines(sharps, t), Lines(NewKey(sharps, t), u), Lines(sharps, t + u);
    KeyAndLines(sharps, t);
    KeyAndLines(NewKey(sharps, t), u);
    KeyAndLines(sharps, t + u);
    assert 12 * (a + b - c) == NewKey(sharps, t + u) - NewKey(NewKey(sharps, t), u);
  }

  /** Notes as the parser and `event_note1` leave them. */
  predicate Normal(w: Written) {
    && Legible(w)
    && (if w.accidental == '^' || w.accidental == '_' then w.mult >= 1
        else w.mult == 1 || (w.accidental == ' ' && w.mult == 0))
  }

  predicate SameNote(v: Written, w: Written) {
    v.accidental == w.accidental && v.note == w.note && v.octave == w.octave && (v.mult == w.mult || v.accidental == ' ')
  }

  lemma SignUnique(v: Written, w: Written)
    requires Normal(v) && Normal(w) && v.note == w.note && v.octave == w.octave
    requires v.accidental == ' ' <==> w.accidental == ' '
    requires v.accidental != ' ' ==> Accidental(v) == Accidental(w)
    ensures SameNote(v, w)
  {
  }

  lemma MovedNormal(sharps: int, t: int, w: Written)
    requires Normal(w)
    ensures Normal(Moved(sharps, t, w))
  {
    hide Lines, NewKey, KeyMap, Degree;
  }

  lemma StepsAdd(v: int, a: int, b: int)
    ensures ((v + a) % 7 + b) % 7 == (v + (a + b)) % 7
    ensures (v + a) / 7 + ((v + a) % 7 + b) / 7 == (v + (a + b)) / 7
  {
  }

  /** Unless all comes back to the start, the notes are the same too. */
  lemma NotesCompose(sharps: int, t: int, u: int, w: Written)
    requires Normal(w) && t != 0 && u != 0 && t + u != 0
    ensures SameNote(Moved(NewKey(sharps, t), u, Moved(sharps, t, w)), Moved(sharps, t + u, w))
  {
    hide *;
    NormalLegible(w);
    var a, b := Lines(sharps, t), Lines(NewKey(sharps, t), u);
    var v := Moved(sharps, t, w);
    MovedNormal(sharps, t, w);
    MovedNormal(sharps, t + u, w);
    MovedNormal(NewKey(sharps, t), u, v);
    NormalLegible(v);
    KeysCompose(sharps, t, u);
    MovedParts(sharps, t, w);
    MovedParts(sharps, t + u, w);
    MovedParts(NewKey(sharps, t), u, v);
    MovedLetters(w.note, w.note, a);
    MovedMeans(w.note, a + b);
    MovedMeans(v.note, b);
    StepsAdd(Degree(w.note), a, b);
    SignUnique(Moved(NewKey(sharps, t), u, v), Moved(sharps, t + u, w));
  }

  lemma NormalLegible(w: Written)
    requires Normal(w)
    ensures Legible(w)
    ensures IsLetter(w.note)
  {
  }

  /** A key that is in the usual range comes back to itself, with all its notes. */
  lemma ThereAndBack(sharps: int, t: int, w: Written)
    requires Normal(w) && t != 0 && -5 <= sharps <= 6
    ensures NewKey(NewKey(sharps, t), -t) == sharps
    ensures SameNote(Moved(NewKey(sharps, t), -t, Moved(sharps, t, w)), w)
  {
    hide *;
    NormalLegible(w);
    var a, b := Lines(sharps, t), Lines(NewKey(sharps, t), -t);
    var v := Moved(sharps, t, w);
    KeysCompose(sharps, t, -t);
    KeyAndLines(sharps, 0);
    MovedNormal(sharps, t, w);
    MovedNormal(NewKey(sharps, t), -t, v);
    NormalLegible(v);
    MovedParts(sharps, t, w);
    MovedParts(NewKey(sharps, t), -t, v);
    MovedLetters(w.note, w.note, a);
    MovedMeans(w.note, a);
    MovedMeans(v.note, b);
    StepsAdd(Degree(w.note), a, b);
    SignUnique(Moved(NewKey(sharps, t), -t, v), w);
  }

  /** Transposing by t and then by u writes the same key as transposing by t + u at once,
      unless that is by nothing at all and the key is one that the program would respell:
      then the notes are left alone at once, but not one after the other. */
  lemma ComposesExactly(sharps: int, t: int, u: int)
    ensures KeyAfter(KeyAfter(sharps, t), u) == KeyAfter(sharps, t + u) <==>
            !(t != 0 && t + u == 0 && !(-5 <= sharps <= 6))
  {
    hide NewKey, Lines;
    KeysCompose(sharps, t, u);
    KeyAndLines(sharps, 0);
  }

  lemma NotesComposeToo(sharps: int, t: int, u: int, w: Written)
    requires Normal(w) && KeyAfter(KeyAfter(sharps, t), u) == KeyAfter(sharps, t + u)
    ensures SameNote(Moved(KeyAfter(sharps, t), u, Moved(sharps, t, w)), Moved(sharps, t + u, w))
  {
    ComposesExactly(sharps, t, u);
    if t != 0 && u != 0 {
      hide NewKey, Lines, KeyMap;
      if t + u == 0 {
        ThereAndBack(sharps, t, w);
      } else {
        NotesCompose(sharps, t, u, w);
      }
    }
  }

  /** What a reader makes of the accidental as it is printed: twice when mult is 2, else once. */
  function Shown(w: Written): Written {
    if w.mult > 2 then w.(mult := 1) else w
  }

  function AllShown(ws: seq<Written>): (r: seq<Written>)
    requires AllLegible(ws)
    ensures |r| == |ws| && AllLegible(r) && forall k :: 0 <= k < |r| ==> r[k] == Shown(ws[k])
  {
    seq(|ws|, k requires 0 <= k < |ws| => Shown(ws[k]))
  }

  lemma ShownPitch(acc: seq<int>, w: Written)
    requires |acc| == 7 && Normal(w)
    ensures Pitch(acc, Shown(w)) == Pitch(acc, w) <==> w.mult <= 2
    ensures w.mult <= 2 ==> InForce(acc, Shown(w)) == InForce(acc, w)
  {
  }

  /** The printed notes sound right exactly when no accidental is more than double. */
  lemma {:induction false} ShownExactly(acc: seq<int>, ws: seq<Written>)
    requires |acc| == 7 && AllLegible(ws) && forall k :: 0 <= k < |ws| ==> Normal(ws[k])
    ensures Sounds(acc, AllShown(ws)) == Sounds(acc, ws) <==> forall k :: 0 <= k < |ws| ==> ws[k].mult <= 2
    decreases ws
  {
    hide Normal, Legible, Pitch, InForce, Shown;
    if ws != [] {
      ShownPitch(acc, ws[0]);
      assert AllShown(ws)[1..] == AllShown(ws[1..]);
      var rest := ws[1..];
      assert Sounds(acc, ws)[0] == Pitch(acc, ws[0]) && Sounds(acc, AllShown(ws))[0] == Pitch(acc, Shown(ws[0]));
      if ws[0].mult <= 2 {
        var acc' := InForce(acc, ws[0]);
        ShownExactly(acc', rest);
        assert Sounds(acc, ws)[1..] == Sounds(acc', rest) && Sounds(acc, AllShown(ws))[1..] == Sounds(acc', AllShown(rest));
        assert forall k :: 0 < k < |ws| ==> ws[k] == rest[k - 1];
      }
    }
  }

  /** It can be: in five flats, e sharp goes to c three times sharp in B, and is printed with
      one sharp, two semitones too low. */
  lemma TripleSharp()
    ensures var w := Written('^', 1, 'e', 1);
            && Normal(w) && NewKey(-5, -2) == 5 && Moved(-5, -2, w) == Written('^', 3, 'c', 1)
            && Pitch(KeyMap(5), Shown(Moved(-5, -2, w))) == Pitch(KeyMap(-5), w) - 2 - 2
  {
  }

  /** The codes that `accidental_to_code` gives. */
  function Code(accidental: char): int {
    if accidental == '_' then -1 else if accidental == '^' then 1 else if accidental == '=' then 0 else 10
  }

  /** With option -nokey, `event_note2` multiplies the code by mult before it calls `pitchof`,
      which multiplies it by mult again. */
  function Squared(w: Written): Written {
    if w.accidental == ' ' then w else w.(mult := w.mult * w.mult)
  }

  function AllSquared(ws: seq<Written>): (r: seq<Written>)
    requires AllLegible(ws)
    ensures |r| == |ws| && AllLegible(r) && forall k :: 0 <= k < |r| ==> r[k] == Squared(ws[k])
  {
    seq(|ws|, k requires 0 <= k < |ws| => Squared(ws[k]))
  }

  lemma SquaredPitch(acc: seq<int>, w: Written)
    requires |acc| == 7 && Normal(w)
    ensures Pitch(acc, Squared(w)) == Pitch(acc, w) <==> w.mult <= 1
    ensures w.mult <= 1 ==> InForce(acc, Squared(w)) == InForce(acc, w)
  {
    if w.mult > 1 {
      assert w.mult * w.mult > w.mult;
    }
  }

  /** So that option gets the pitches of a bar right exactly when no accidental is double. */
  lemma {:induction false} SquaredExactly(acc: seq<int>, ws: seq<Written>)
    requires |acc| == 7 && AllLegible(ws) && forall k :: 0 <= k < |ws| ==> Normal(ws[k])
    ensures Sounds(acc, AllSquared(ws)) == Sounds(acc, ws) <==> forall k :: 0 <= k < |ws| ==> ws[k].mult <= 1
    decreases ws
  {
    hide Normal, Legible, Pitch, InForce, Squared;
    if ws != [] {
      SquaredPitch(acc, ws[0]);
      assert AllSquared(ws)[1..] == AllSquared(ws[1..]);
      var rest := ws[1..];
      assert Sounds(acc, ws)[0] == Pitch(acc, ws[0]) && Sounds(acc, AllSquared(ws))[0] == Pitch(acc, Squared(ws[0]));
      if ws[0].mult <= 1 {
        var acc' := InForce(acc, ws[0]);
        SquaredExactly(acc', rest);
        assert Sounds(acc, ws)[1..] == Sounds(acc', rest) && Sounds(acc, AllSquared(ws))[1..] == Sounds(acc', AllSquared(rest));
        assert forall k :: 0 < k < |ws| ==> ws[k] == rest[k - 1];
      }
    }
  }

  /** The letter c in octave 0, written C, is middle C of MIDI; an octave is twelve semitones. */
  lemma MiddleC(octave: int)
    ensures Pitch(KeyMap(0), Written(' ', 1, 'c', octave)) == 60 + 12 * octave
  {
  }

  /** ^^c, that is d, comes out as e. */
  lemma DoubleSquared()
    ensures var w := Written('^', 2, 'c', 0);
            Normal(w) && Pitch(KeyMap(0), w) == Pitch(KeyMap(0), Written(' ', 1, 'd', 0)) &&
            Pitch(KeyMap(0), Squared(w)) == Pitch(KeyMap(0), Written(' ', 1, 'e', 0))
  {
  }

  /** The globals of toabc.c that transposition works with. */
  class Transposer {
    const transpose: int
    const drumchan: bool
    var newkey: int
    var lines: int
    const basemap: array<int>
    const oldtable: array<int>
    const newtable: array<int>
    const workmap: array<int>
    const workmul: array<int>

    ghost predicate Tables() {
      && basemap.Length == oldtable.Length == newtable.Length == workmap.Length == workmul.Length == 7
      && basemap != oldtable && basemap != newtable && basemap != workmap && basemap != workmul
      && oldtable != newtable && oldtable != workmap && oldtable != workmul
      && newtable != workmap && newtable != workmul && workmap != workmul
    }

    /** A key field with that many sharps has been read. */
    ghost predicate InKey(sharps: int)
      reads this, basemap, oldtable, newtable
    {
      && Tables()
      && newkey == NewKey(sharps, transpose) && lines == Lines(sharps, transpose)
      && basemap[..] == oldtable[..] == KeyMap(sharps) && newtable[..] == KeyMap(newkey)
    }

    /** The accidentals in force, from the start of the bar. */
    ghost function Working(): (acc: seq<int>)
      reads workmap, workmul
      requires Tables()
      ensures |acc| == 7
    {
      seq(7, i requires 0 <= i < 7 && Tables() reads workmap, workmul => workmap[i] * workmul[i])
    }

    constructor (transpose: int, drumchan: bool)
      ensures this.transpose == transpose && this.drumchan == drumchan && Tables()
      ensures fresh(basemap) && fresh(oldtable) && fresh(newtable) && fresh(workmap) && fresh(workmul)
    {
      this.transpose, this.drumchan, newkey, lines := transpose, drumchan, 0, 0;
      basemap, oldtable, newtable, workmap, workmul := new int[7], new int[7], new int[7], new int[7], new int[7];
    }

    /** `setmap` */
    static method SetMap(sf: int, map7: array<int>)
      requires map7.Length == 7
      modifies map7
      ensures map7[..] == KeyMap(sf)
    {
      var j := 0;
      while j < 7
        invariant 0 <= j <= 7 && forall i :: 0 <= i < j ==> map7[i] == 0
      {
        map7[j] := 0;
        j := j + 1;
      }
      SetSharps(sf, map7);
      SetFlats(sf, map7);
    }

    static method SetSharps(sf: int, map7: array<int>)
      requires map7.Length == 7
      modifies map7
      ensures forall i :: 0 <= i < 7 ==> map7[i] == if sf > SharpOrder(i) then 1 else old(map7[i])
    {
      if sf >= 1 { map7[Index('f')] := 1; }
      if sf >= 2 { map7[Index('c')] := 1; }
      if sf >= 3 { map7[Index('g')] := 1; }
      if sf >= 4 { map7[Index('d')] := 1; }
      if sf >= 5 { map7[Index('a')] := 1; }
      if sf >= 6 { map7[Index('e')] := 1; }
      if sf >= 7 { map7[Index('b')] := 1; }
    }

    static method SetFlats(sf: int, map7: array<int>)
      requires map7.Length == 7
      modifies map7
      ensures forall i :: 0 <= i < 7 ==> map7[i] == if sf < SharpOrder(i) - 6 then -1 else old(map7[i])
    {
      if sf <= -1 { map7[Index('b')] := -1; }
      if sf <= -2 { map7[Index('e')] := -1; }
      if sf <= -3 { map7[Index('a')] := -1; }
      if sf <= -4 { map7[Index('d')] := -1; }
      if sf <= -5 { map7[Index('g')] := -1; }
      if sf <= -6 { map7[Index('c')] := -1; }
      if sf <= -7 { map7[Index('f')] := -1; }
    }

    /** `copymap`, called at every bar line and key field. */
    method CopyMap()
      requires Tables()
      modifies workmap, workmul
      ensures Working() == basemap[..]
    {
      var j := 0;
      while j < 7
        invariant 0 <= j <= 7 && forall i :: 0 <= i < j ==> workmap[i] == basemap[i] && workmul[i] == 1
      {
        workmap[j] := basemap[j];
        workmul[j] := 1;
        j := j + 1;
      }
    }

    /** `pitchof`, with 10 for a note that has no accidental. */
    method PitchOf(note: char, accidental: int, mult: int, octave: int) returns (p: int)
      requires Tables() && IsLetter(note)
      modifies workmap, workmul
      ensures Working() == if accidental == 10 then old(Working()) else old(Working())[Index(note) := accidental * mult]
      ensures p == Scale(Degree(note)) + Working()[Index(note)] + 12 * octave + 60
    {
      ghost var was := Working();
      p := Scale(Degree(note));
      var noteno := Index(note);
      if accidental != 10 {
        workmap[noteno] := accidental;
        workmul[noteno] := mult;
      }
      assert forall i :: 0 <= i < 7 ==> Working()[i] == if accidental == 10 || i != noteno then was[i] else accidental * mult;
      p := p + workmap[noteno] * workmul[noteno];
      p := p + 12 * octave + 60;
    }

    /** The arithmetic of `event_key`. */
    method EventKey(sharps: int)
      requires Tables()
      modifies this`newkey, this`lines, basemap, oldtable, newtable, workmap, workmul
      ensures InKey(sharps) && Working() == KeyMap(sharps)
    {
      hide KeyMap;
      SetMap(sharps, basemap);
      SetMap(sharps, oldtable);
      CopyMap();
      newkey := CMod(sharps + 7 * transpose, 12);
      lines := CDiv(sharps + 7 * transpose, 12);
      if newkey > 6 {
        newkey := newkey - 12;
        lines := lines + 1;
      }
      if newkey < -5 {
        newkey := newkey + 12;
        lines := lines - 1;
      }
      SetMap(newkey, newtable);
    }

    /** The note that `event_note1` goes on to print. */
    method MoveNote(xaccidental: char, xmult: int, xnote: char, xoctave: int, ghost sharps: int)
      returns (accidental: char, mult: int, note: char, octave: int)
      requires InKey(sharps) && Legible(Written(xaccidental, xmult, xnote, xoctave))
      ensures var w := Written(xaccidental, xmult, xnote, xoctave);
              Written(accidental, mult, note, octave) == if drumchan then w else Moved(sharps, transpose, w)
    {
      mult := 0;
      if transpose == 0 || drumchan {
        accidental, mult, note, octave := xaccidental, xmult, xnote, xoctave;
      } else {
        var acc := 0;
        octave := xoctave;
        var val := Degree(xnote);
        var newval := val + lines;
        octave := octave + CDiv(newval, 7);
        newval := CMod(newval, 7);
        if newval < 0 {
          newval := newval + 7;
          octave := octave - 1;
        }
        FloorFromC(val + lines);
        note := Letter(newval);
        if xaccidental == ' ' {
          accidental := ' ';
        } else {
          if xaccidental == '_' {
            acc := -xmult;
          } else if xaccidental == '^' {
            acc := xmult;
          }
          acc := acc - oldtable[Index(Letter(val))] + newtable[Index(Letter(newval))];
          mult := 1;
          accidental := '=';
          if acc > 0 {
            accidental := '^';
            mult := acc;
          }
          if acc < 0 {
            accidental := '_';
            mult := -acc;
          }
        }
      }
    }

    /** The pitch that `event_note2` goes on to print, for a note as the parser gives it. */
    method MidiPitch(xaccidental: char, xmult: int, xnote: char, xoctave: int) returns (midipitch: int)
      requires Tables() && Normal(Written(xaccidental, xmult, xnote, xoctave)) && 1 <= xmult <= 2
      modifies workmap, workmul
      ensures var w := Squared(Written(xaccidental, xmult, xnote, xoctave));
              midipitch == Pitch(old(Working()), w) && Working() == InForce(old(Working()), w)
    {
      var acc := Code(xaccidental);
      if acc == -1 || acc == 1 {
        acc := xmult * acc;
      }
      midipitch := PitchOf(xnote, acc, xmult, xoctave);
    }
  }

  /** Correcting C's division gives quotient and remainder as everywhere here. */
  lemma FloorFromC(a: int)
    ensures if CMod(a, 7) < 0 then CMod(a, 7) + 7 == a % 7 && CDiv(a, 7) - 1 == a / 7
            else CMod(a, 7) == a % 7 && CDiv(a, 7) == a / 7
  {
  }
}
