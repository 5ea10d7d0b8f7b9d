/** Notes as abc text: `parsenote` (parseabc.c) reads what `event_note1` (toabc.c) prints. */
module NoteText {
  import opened Fractions
  import opened Text
  import opened Transpose

  const DECORATIONS: string := ".MLRH~Tuv"

  /** One flag for each decoration. */
  type Decorators = d: seq<bool> | |d| == 9 witness [false, false, false, false, false, false, false, false, false]

  const NONE: Decorators := [false, false, false, false, false, false, false, false, false]

  /** strchr(decorations, c), with 9 for a character that is none of them. */
  function DecorationAt(c: char, t: nat): (r: nat)
    requires t <= 9
    ensures t <= r <= 9 && (r < 9 ==> DECORATIONS[r] == c)
    ensures r == 9 ==> forall k :: t <= k < 9 ==> DECORATIONS[k] != c
    decreases 9 - t
  {
    if t == 9 || DECORATIONS[t] == c then t else DecorationAt(c, t + 1)
  }

  predicate IsDecoration(c: char) {
    DecorationAt(c, 0) < 9
  }

  /** A piece of text read: what was read, and where it ends. */
  datatype Read<T> = Read(value: T, next: nat)

  function At(s: string, i: nat): char {
    if i < |s| then s[i] else '\0'
  }

  function ReadDecorations(s: string, i: nat, d: Decorators): (r: Read<Decorators>)
    requires i <= |s|
    ensures i <= r.next <= |s|
    decreases |s| - i
  {
    if i < |s| && IsDecoration(s[i]) then ReadDecorations(s, i + 1, d[DecorationAt(s[i], 0) := true]) else Read(d, i)
  }

  /** The slashes after a number that is missing. */
  function ReadSlashes(s: string, i: nat, b: nat): (r: Read<nat>)
    requires i <= |s|
    ensures i <= r.next <= |s| && (b > 0 ==> r.value > 0)
    decreases |s| - i
  {
    if At(s, i) == '/' && i < |s| then ReadSlashes(s, i + 1, b * 2) else Read(b, i)
  }

  datatype Length = Length(n: nat, m: nat)

  /** `readlen`, but for its warning; also `readlen_nocheck`. */
  function ReadLength(s: string, i: nat): (r: Read<Length>)
    requires i <= |s|
    ensures i <= r.next <= |s| && r.value.n > 0 && r.value.m > 0
  {
    var (a, j) := ReadNumber(s, i, 0);
    var n := if a == 0 then 1 else a;
    if j < |s| && s[j] == '/' then
      var (b, k) := ReadNumber(s, j + 1, 0);
      if b == 0 then
        var r := ReadSlashes(s, k, 2);
        Read(Length(n, r.value), r.next)
      else Read(Length(n, b), k)
    else Read(Length(n, 1), j)
  }

  /** What `ismicrotone` passes to `event_microtone`. */
  datatype Micro = Plain | Micro(dir: int, a: nat, b: nat)

  datatype Sign = Sign(accidental: char, mult: int, micro: Micro)

  function ReadMicro(s: string, i: nat, dir: int): (r: Read<Micro>)
    requires i <= |s|
    ensures i <= r.next <= |s|
  {
    var l := ReadLength(s, i);
    Read(if l.value.m != 1 then Micro(dir, l.value.n, l.value.m) else Plain, l.next)
  }

  /** A sharp or flat c at position i, perhaps doubled. */
  function ReadSharpFlat(s: string, i: nat, c: char, dir: int): (r: Read<Sign>)
    requires i < |s|
    ensures i < r.next <= |s|
  {
    var double := i + 1 < |s| && s[i + 1] == c;
    var m := ReadMicro(s, if double then i + 2 else i + 1, dir);
    Read(if m.value.Plain? then Sign(c, if double then 2 else 1, Plain)
         else if double then Sign(c, 1, m.value)
         else Sign(' ', 1, m.value), m.next)
  }

  function ReadAccidental(s: string, i: nat): (r: Read<Sign>)
    requires i <= |s|
    ensures i <= r.next <= |s|
  {
    if At(s, i) == '_' && i < |s| then ReadSharpFlat(s, i, '_', -1)
    else if At(s, i) == '^' && i < |s| then ReadSharpFlat(s, i, '^', 1)
    else if At(s, i) == '=' && i < |s| then
      if i + 1 < |s| && (s[i + 1] == '^' || s[i + 1] == '_') then
        var m := ReadMicro(s, i + 2, if s[i + 1] == '^' then 1 else -1);
        Read(Sign(s[i + 1], 1, m.value), m.next)
      else Read(Sign('=', 1, Plain), i + 1)
    else Read(Sign(' ', 1, Plain), i)
  }

  /** The letter, the octave, and how many octave marks were of the wrong kind for the letter. */
  datatype Place = Place(note: char, octave: int, bad: nat)

  /** Octave marks; `wrong` is the mark that does not go with the letter. */
  function ReadMarks(s: string, i: nat, p: Place, wrong: char): (r: Read<Place>)
    requires i <= |s|
    ensures i <= r.next <= |s| && r.value.note == p.note
    decreases |s| - i
  {
    if i < |s| && (s[i] == '\'' || s[i] == ',') then
      ReadMarks(s, i + 1, Place(p.note, p.octave + (if s[i] == '\'' then 1 else -1), p.bad + if s[i] == wrong then 1 else 0), wrong)
    else Read(p, i)
  }

  function Lower(c: char): (l: char)
    requires 'A' <= c <= 'G'
    ensures IsLetter(l)
  {
    (c as int + 'a' as int - 'A' as int) as char
  }

  function Upper(c: char): (u: char)
    requires IsLetter(c)
    ensures 'A' <= u <= 'G' && Lower(u) == c
  {
    (c as int + 'C' as int - 'c' as int) as char
  }

  function ReadPlace(s: string, i: nat): (r: Read<Place>)
    requires i <= |s|
    ensures i <= r.next <= |s|
  {
    if i < |s| && 'a' <= s[i] <= 'g' then ReadMarks(s, i + 1, Place(s[i], 1, 0), ',')
    else if i < |s| && 'A' <= s[i] <= 'G' then ReadMarks(s, i + 1, Place(Lower(s[i]), 0, 0), '\'')
    else Read(Place(' ', 0, 0), i)
  }

  /** What `parsenote` comes to: a note, with what microtone and how many complaints; no note
      after all; a chord that is opened; or the end of the text, where a note should be. */
  datatype Outcome =
    | Note(d: Decorators, written: Written, len: Length, micro: Micro, bad: nat)
    | Malformed
    | ChordOpened(d: Decorators)
    | Unfinished

  /** `parsenote`, outside chords. */
  function ParseNote(s: string, i: nat): (r: Read<Outcome>)
    requires i <= |s|
    ensures i <= r.next <= |s|
  {
    var d := ReadDecorations(s, i, NONE);
    if d.next == |s| then Read(Unfinished, |s|)
    else if s[d.next] == '[' then Read(ChordOpened(d.value), d.next + 1)
    else
      var a := ReadAccidental(s, d.next);
      var p := ReadPlace(s, a.next);
      if p.value.note == ' ' then Read(Malformed, p.next)
      else
        var l := ReadLength(s, p.next);
        Read(Note(d.value, Written(a.value.accidental, a.value.mult, p.value.note, p.value.octave), l.value,
                  a.value.micro, p.value.bad), l.next)
  }

  /** What is printed. */
  function DecorationText(d: Decorators, t: nat): string
    requires t <= 9
    decreases 9 - t
  {
    if t == 9 then "" else (if d[t] then [DECORATIONS[t]] else "") + DecorationText(d, t + 1)
  }

  function AccidentalText(w: Written): string {
    (if w.mult == 2 then [w.accidental] else "") + if w.accidental != ' ' then [w.accidental] else ""
  }

  function Marks(c: char, n: nat): (s: string)
    ensures |s| == n && forall k :: 0 <= k < n ==> s[k] == c
  {
    seq(n, _ => c)
  }

  function PlaceText(w: Written): string
    requires IsLetter(w.note)
  {
    if w.octave >= 1 then [w.note] + Marks('\'', w.octave - 1) else [Upper(w.note)] + Marks(',', -w.octave)
  }

  /** `printlen` */
  function LengthText(a: nat, b: nat): string {
    (if a != 1 then PrintNumber(a) else "") + if b != 1 then "/" + PrintNumber(b) else ""
  }

  function NoteText(d: Decorators, w: Written, a: nat, b: nat): string
    requires IsLetter(w.note)
  {
    DecorationText(d, 0) + (AccidentalText(w) + (PlaceText(w) + LengthText(a, b)))
  }

  /** Nothing at position i that would belong to the note before. */
  predicate Fresh(s: string, i: nat) {
    i < |s| ==> !IsDigit(s[i]) && s[i] != '/' && s[i] != '\'' && s[i] != ','
  }

  lemma NoNumber(s: string, i: nat)
    requires i <= |s| && !DigitAt(s, i)
    ensures ReadNumber(s, i, 0) == (0, i)
  {
  }

  lemma NoLength(s: string, i: nat)
    requires i <= |s| && Fresh(s, i)
    ensures ReadLength(s, i) == Read(Length(1, 1), i)
  {
    NoNumber(s, i);
  }

  lemma LengthRead(s: string, i: nat, a: nat, b: nat)
    requires a > 0 && b > 0 && HasAt(s, i, LengthText(a, b)) && Fresh(s, i + |LengthText(a, b)|)
    ensures ReadLength(s, i) == Read(Length(a, b), i + |LengthText(a, b)|)
  {
    hide PrintNumber, ReadNumber, HasAt;
    var first, second := if a != 1 then PrintNumber(a) else "", if b != 1 then "/" + PrintNumber(b) else "";
    SplitAt(s, i, first, second);
    var j := i + |first|;
    if b != 1 {
      SplitAt(s, j, "/", PrintNumber(b));
      CharAt(s, j, '/');
      ReadNumberInverts(s, j + 1, b);
    }
    if a != 1 {
      ReadNumberInverts(s, i, a);
    } else {
      NoNumber(s, i);
    }
  }

  function TwoTo(k: nat): (p: nat)
    ensures p > 0
  {
    if k == 0 then 1 else 2 * TwoTo(k - 1)
  }

  function Slashes(k: nat): (s: string)
    ensures |s| == k && forall i :: 0 <= i < k ==> s[i] == '/'
  {
    seq(k, _ => '/')
  }

  lemma {:induction false} SlashesRead(s: string, i: nat, k: nat, b: nat)
    requires HasAt(s, i, Slashes(k)) && (i + k < |s| ==> s[i + k] != '/')
    ensures ReadSlashes(s, i, b) == Read(b * TwoTo(k), i + k)
    decreases k
  {
    if k > 0 {
      assert Slashes(k) == "/" + Slashes(k - 1);
      SplitAt(s, i, "/", Slashes(k - 1));
      CharAt(s, i, '/');
      SlashesRead(s, i + 1, k - 1, b * 2);
      assert b * 2 * TwoTo(k - 1) == b * (2 * TwoTo(k - 1));
    }
  }

  /** A length with slashes instead of a divisor: each halves it. */
  function SlashedText(a: nat, k: nat): string {
    (if a != 1 then PrintNumber(a) else "") + Slashes(k)
  }

  lemma SlashedRead(s: string, i: nat, a: nat, k: nat)
    requires a > 0 && k > 0 && HasAt(s, i, SlashedText(a, k)) && Fresh(s, i + |SlashedText(a, k)|)
    ensures ReadLength(s, i) == Read(Length(a, TwoTo(k)), i + |SlashedText(a, k)|)
  {
    hide PrintNumber, ReadNumber, HasAt, ReadSlashes, TwoTo;
    var first := if a != 1 then PrintNumber(a) else "";
    SplitAt(s, i, first, Slashes(k));
    var j := i + |first|;
    assert Slashes(k) == "/" + Slashes(k - 1);
    SplitAt(s, j, "/", Slashes(k - 1));
    CharAt(s, j, '/');
    if a != 1 {
      ReadNumberInverts(s, i, a);
    } else {
      NoNumber(s, i);
    }
    SlashAhead(s, j + 1, k - 1);
    NoNumber(s, j + 1);
    SlashesRead(s, j + 1, k - 1, 2);
    TwoToNext(k);
  }

  lemma SlashAhead(s: string, i: nat, k: nat)
    requires HasAt(s, i, Slashes(k)) && Fresh(s, i + k)
    ensures i <= |s| && !DigitAt(s, i)
  {
    if k > 0 {
      assert s[i..i + k][0] == s[i];
    }
  }

  lemma TwoToNext(k: nat)
    requires k > 0
    ensures TwoTo(k) == 2 * TwoTo(k - 1)
  {
  }

  predicate NoMark(s: string, i: nat) {
    i < |s| ==> s[i] != '\'' && s[i] != ','
  }

  /** Octave marks; each one that does not go with the letter is complained about and counts
      all the same. */
  lemma {:induction false} MarksRead(s: string, i: nat, c: char, n: nat, p: Place, wrong: char)
    requires (c == '\'' || c == ',') && HasAt(s, i, Marks(c, n)) && NoMark(s, i + n)
    ensures ReadMarks(s, i, p, wrong) ==
            Read(p.(octave := p.octave + (if c == '\'' then n else 0 - n), bad := p.bad + if c == wrong then n else 0), i + n)
    decreases n
  {
    if n > 0 {
      assert Marks(c, n) == [c] + Marks(c, n - 1);
      SplitAt(s, i, [c], Marks(c, n - 1));
      CharAt(s, i, c);
      MarksRead(s, i + 1, c, n - 1,
                p.(octave := p.octave + (if c == '\'' then 1 else -1), bad := p.bad + if c == wrong then 1 else 0), wrong);
    }
  }

  /** A letter with n marks of either kind. */
  lemma MarkedPlaceRead(s: string, i: nat, letter: char, c: char, n: nat)
    requires ('a' <= letter <= 'g' || 'A' <= letter <= 'G') && (c == '\'' || c == ',')
    requires HasAt(s, i, [letter] + Marks(c, n)) && NoMark(s, i + 1 + n)
    ensures var small := 'a' <= letter <= 'g';
            ReadPlace(s, i) ==
            Read(Place(if small then letter else Lower(letter),
                       (if small then 1 else 0) + (if c == '\'' then n else 0 - n),
                       if small == (c == ',') then n else 0), i + 1 + n)
  {
    hide ReadMarks;
    SplitAt(s, i, [letter], Marks(c, n));
    CharAt(s, i, letter);
    if 'a' <= letter <= 'g' {
      MarksRead(s, i + 1, c, n, Place(letter, 1, 0), ',');
    } else {
      MarksRead(s, i + 1, c, n, Place(Lower(letter), 0, 0), '\'');
    }
  }

  lemma PlaceRead(s: string, i: nat, w: Written)
    requires IsLetter(w.note) && HasAt(s, i, PlaceText(w)) && NoMark(s, i + |PlaceText(w)|)
    ensures ReadPlace(s, i) == Read(Place(w.note, w.octave, 0), i + |PlaceText(w)|)
    ensures i < |s| && ('a' <= s[i] <= 'g' || 'A' <= s[i] <= 'G')
  {
    hide ReadMarks;
    if w.octave >= 1 {
      SplitAt(s, i, [w.note], Marks('\'', w.octave - 1));
      CharAt(s, i, w.note);
      MarksRead(s, i + 1, '\'', w.octave - 1, Place(w.note, 1, 0), ',');
    } else {
      SplitAt(s, i, [Upper(w.note)], Marks(',', -w.octave));
      CharAt(s, i, Upper(w.note));
      MarksRead(s, i + 1, ',', -w.octave, Place(w.note, 0, 0), '\'');
    }
  }

  /** The accidental as the parser reports it. */
  function AsRead(w: Written): (r: Written)
    ensures r.note == w.note && r.octave == w.octave && r.accidental == w.accidental
  {
    w.(mult := if (w.accidental == '^' || w.accidental == '_') && w.mult == 2 then 2 else 1)
  }

  predicate LetterAt(s: string, i: nat) {
    i < |s| && ('a' <= s[i] <= 'g' || 'A' <= s[i] <= 'G')
  }

  lemma AccidentalRead(s: string, i: nat, w: Written)
    requires Normal(w) && HasAt(s, i, AccidentalText(w)) && LetterAt(s, i + |AccidentalText(w)|)
    ensures ReadAccidental(s, i) == Read(Sign(w.accidental, AsRead(w).mult, Plain), i + |AccidentalText(w)|)
  {
    hide ReadLength;
    var j := i + |AccidentalText(w)|;
    NoLength(s, j);
    if w.accidental != ' ' {
      if w.mult == 2 {
        SplitAt(s, i, [w.accidental], [w.accidental]);
        CharAt(s, i, w.accidental);
        CharAt(s, i + 1, w.accidental);
      } else {
        CharAt(s, i, w.accidental);
      }
    }
  }

  /** A sharp or flat with a length behind it is a microtone of that size; the letter of a
      doubled sign stays, that of a single one goes. A number with no divisor is dropped. */
  lemma MicrotoneRead(s: string, i: nat, c: char, double: bool, a: nat, b: nat)
    requires (c == '^' || c == '_') && a > 0 && b > 0
    requires var sign := if double then [c, c] else [c];
             && HasAt(s, i, sign + LengthText(a, b)) && Fresh(s, i + |sign + LengthText(a, b)|)
             && (i + |sign| < |s| ==> s[i + |sign|] != c)
    ensures var dir, next := if c == '^' then 1 else -1, i + (if double then 2 else 1) + |LengthText(a, b)|;
            ReadAccidental(s, i) ==
            Read(if b == 1 then Sign(c, if double then 2 else 1, Plain)
                 else Sign(if double then c else ' ', 1, Micro(dir, a, b)), next)
  {
    hide ReadLength, LengthText, HasAt;
    var sign := if double then [c, c] else [c];
    SplitAt(s, i, sign, LengthText(a, b));
    if double {
      SplitAt(s, i, [c], [c]);
      assert [c] + [c] == [c, c];
      CharAt(s, i + 1, c);
    }
    SplitAt(s, i, [c], if double then [c] else []);
    assert [c] + [] == [c];
    CharAt(s, i, c);
    LengthRead(s, i + |sign|, a, b);
  }

  /** After a natural sign, a sharp or flat of either kind is one, single, and keeps its letter. */
  lemma NaturalFirst(s: string, i: nat, c: char, a: nat, b: nat)
    requires (c == '^' || c == '_') && a > 0 && b > 0
    requires HasAt(s, i, "=" + ([c] + LengthText(a, b))) && Fresh(s, i + 2 + |LengthText(a, b)|)
    ensures ReadAccidental(s, i) ==
            Read(Sign(c, 1, if b == 1 then Plain else Micro(if c == '^' then 1 else -1, a, b)), i + 2 + |LengthText(a, b)|)
  {
    hide ReadLength, LengthText, HasAt;
    SplitAt(s, i, "=", [c] + LengthText(a, b));
    SplitAt(s, i + 1, [c], LengthText(a, b));
    CharAt(s, i, '=');
    CharAt(s, i + 1, c);
    LengthRead(s, i + 2, a, b);
  }

  lemma DecorationOwn(t: nat)
    requires t < 9
    ensures DecorationAt(DECORATIONS[t], 0) == t
  {
    assert forall k :: 0 <= k < t ==> DECORATIONS[k] != DECORATIONS[t];
  }

  /** Flags set from t on are added to those read before. */
  function Joined(d: Decorators, e: Decorators, t: nat): (r: Decorators)
    ensures forall k :: 0 <= k < 9 ==> r[k] == (d[k] || (k >= t && e[k]))
  {
    seq(9, k requires 0 <= k < 9 => d[k] || (k >= t && e[k]))
  }

  lemma DecorationsJoin(d: Decorators, e: Decorators, t: nat)
    requires t <= 9
    ensures if t == 9 then Joined(d, e, t) == d
            else if e[t] then Joined(d, e, t) == Joined(d[t := true], e, t + 1)
            else Joined(d, e, t) == Joined(d, e, t + 1)
  {
    if t < 9 && e[t] {
      assert forall k :: 0 <= k < 9 ==> Joined(d, e, t)[k] == Joined(d[t := true], e, t + 1)[k];
    }
  }

  lemma HasNothing(s: string, i: nat)
    requires HasAt(s, i, "")
    ensures i <= |s|
  {
  }

  lemma OwnDecoration(s: string, i: nat, t: nat)
    requires t < 9 && HasAt(s, i, [DECORATIONS[t]])
    ensures i < |s| && IsDecoration(s[i]) && DecorationAt(s[i], 0) == t
  {
    CharAt(s, i, DECORATIONS[t]);
    DecorationOwn(t);
  }

  lemma {:induction false} DecorationsRead(s: string, i: nat, d: Decorators, e: Decorators, t: nat)
    requires t <= 9 && HasAt(s, i, DecorationText(e, t))
    requires var j := i + |DecorationText(e, t)|; j == |s| || !IsDecoration(s[j])
    ensures ReadDecorations(s, i, d) == Read(Joined(d, e, t), i + |DecorationText(e, t)|)
    decreases 9 - t
  {
    hide DecorationAt, ReadDecorations, HasAt, Joined, IsDecoration;
    DecorationsJoin(d, e, t);
    if t == 9 {
      HasNothing(s, i);
      DecorationsEnd(s, i, d);
    } else if e[t] {
      SplitAt(s, i, [DECORATIONS[t]], DecorationText(e, t + 1));
      OwnDecoration(s, i, t);
      DecorationsStep(s, i, d);
      DecorationsRead(s, i + 1, d[t := true], e, t + 1);
    } else {
      assert DecorationText(e, t) == DecorationText(e, t + 1);
      DecorationsRead(s, i, d, e, t + 1);
    }
  }

  lemma DecorationsEnd(s: string, i: nat, d: Decorators)
    requires i <= |s| && (i == |s| || !IsDecoration(s[i]))
    ensures ReadDecorations(s, i, d) == Read(d, i)
  {
  }

  lemma DecorationsStep(s: string, i: nat, d: Decorators)
    requires i < |s| && IsDecoration(s[i])
    ensures ReadDecorations(s, i, d) == ReadDecorations(s, i + 1, d[DecorationAt(s[i], 0) := true])
  {
  }

  lemma LettersPlain(c: char)
    requires 'a' <= c <= 'g' || 'A' <= c <= 'G' || c == '^' || c == '_' || c == '='
    ensures !IsDecoration(c) && c != '['
  {
    assert forall k :: 0 <= k < 9 ==> DECORATIONS[k] != c;
  }

  lemma NoneJoined(e: Decorators)
    ensures Joined(NONE, e, 0) == e
  {
  }

  lemma AccidentalStart(s: string, i: nat, w: Written)
    requires Normal(w) && HasAt(s, i, AccidentalText(w)) && LetterAt(s, i + |AccidentalText(w)|)
    ensures i < |s| && !IsDecoration(s[i]) && s[i] != '['
  {
    hide IsDecoration;
    if w.accidental == ' ' {
      LettersPlain(s[i]);
    } else {
      if w.mult == 2 {
        SplitAt(s, i, [w.accidental], [w.accidental]);
      }
      CharAt(s, i, w.accidental);
      LettersPlain(s[i]);
    }
  }

  lemma LengthNoMark(s: string, i: nat, a: nat, b: nat)
    requires HasAt(s, i, LengthText(a, b)) && Fresh(s, i + |LengthText(a, b)|)
    ensures NoMark(s, i)
  {
    hide PrintNumber;
    var first, second := if a != 1 then PrintNumber(a) else "", if b != 1 then "/" + PrintNumber(b) else "";
    SplitAt(s, i, first, second);
    if a != 1 {
      SplitAt(s, i, [first[0]], first[1..]);
      CharAt(s, i, first[0]);
    } else if b != 1 {
      SplitAt(s, i, "/", PrintNumber(b));
      CharAt(s, i, '/');
    }
  }

  /** A note from what its parts are read as. */
  lemma NoteParts(s: string, i: nat, d: Decorators, sign: Read<Sign>, w: Written, len: Read<Length>)
    requires IsLetter(w.note) && HasAt(s, i, DecorationText(d, 0))
    requires var i1 := i + |DecorationText(d, 0)|;
             i1 < |s| && !IsDecoration(s[i1]) && s[i1] != '[' && ReadAccidental(s, i1) == sign
    requires HasAt(s, sign.next, PlaceText(w)) && NoMark(s, sign.next + |PlaceText(w)|)
    requires ReadLength(s, sign.next + |PlaceText(w)|) == len
    ensures ParseNote(s, i) ==
            Read(Note(d, Written(sign.value.accidental, sign.value.mult, w.note, w.octave), len.value, sign.value.micro, 0), len.next)
  {
    hide ReadDecorations, DecorationText, ReadAccidental, ReadPlace, PlaceText, ReadLength, IsDecoration;
    PlaceRead(s, sign.next, w);
    DecorationsRead(s, i, NONE, d, 0);
    NoneJoined(d);
  }

  /** One note: whatever is printed is read back as it stands, with no complaint. */
  lemma NoteRead(s: string, i: nat, d: Decorators, w: Written, a: nat, b: nat)
    requires Normal(w) && a > 0 && b > 0 && HasAt(s, i, NoteText(d, w, a, b)) && Fresh(s, i + |NoteText(d, w, a, b)|)
    ensures ParseNote(s, i) == Read(Note(d, AsRead(w), Length(a, b), Plain, 0), i + |NoteText(d, w, a, b)|)
  {
    hide HasAt, DecorationText, ReadAccidental, AccidentalText, PlaceText, ReadLength, LengthText, ParseNote, IsDecoration;
    var len := LengthText(a, b);
    var i3 := i + |DecorationText(d, 0)| + |AccidentalText(w)| + |PlaceText(w)|;
    NoteApart(s, i, d, AccidentalText(w), w, len);
    LengthRead(s, i3, a, b);
    LengthNoMark(s, i3, a, b);
    PlaceRead(s, i3 - |PlaceText(w)|, w);
    AccidentalRead(s, i + |DecorationText(d, 0)|, w);
    AccidentalStart(s, i + |DecorationText(d, 0)|, w);
    NoteParts(s, i, d, Read(Sign(w.accidental, AsRead(w).mult, Plain), i3 - |PlaceText(w)|), w, Read(Length(a, b), i3 + |len|));
  }

  lemma NoteApart(s: string, i: nat, d: Decorators, acc: string, w: Written, len: string)
    requires IsLetter(w.note) && HasAt(s, i, DecorationText(d, 0) + (acc + (PlaceText(w) + len)))
    ensures HasAt(s, i, DecorationText(d, 0)) && HasAt(s, i + |DecorationText(d, 0)|, acc)
    ensures HasAt(s, i + |DecorationText(d, 0)| + |acc|, PlaceText(w))
    ensures HasAt(s, i + |DecorationText(d, 0)| + |acc| + |PlaceText(w)|, len)
  {
    hide *;
    var pl := PlaceText(w);
    SplitAt(s, i, DecorationText(d, 0), acc + (pl + len));
    SplitAt(s, i + |DecorationText(d, 0)|, acc, pl + len);
    SplitAt(s, i + |DecorationText(d, 0)| + |acc|, pl, len);
  }

  /** A note whose length is written with slashes: C/ is half, C// a quarter, C3/ three halves. */
  lemma SlashedNoteRead(s: string, i: nat, d: Decorators, w: Written, a: nat, k: nat)
    requires Normal(w) && a > 0 && k > 0
    requires var text := DecorationText(d, 0) + (AccidentalText(w) + (PlaceText(w) + SlashedText(a, k)));
             HasAt(s, i, text) && Fresh(s, i + |text|)
    ensures ParseNote(s, i) ==
            Read(Note(d, AsRead(w), Length(a, TwoTo(k)), Plain, 0),
                 i + |DecorationText(d, 0) + (AccidentalText(w) + (PlaceText(w) + SlashedText(a, k)))|)
  {
    hide HasAt, DecorationText, ReadAccidental, AccidentalText, PlaceText, ReadLength, SlashedText, ParseNote, IsDecoration, TwoTo;
    var len := SlashedText(a, k);
    var i3 := i + |DecorationText(d, 0)| + |AccidentalText(w)| + |PlaceText(w)|;
    NoteApart(s, i, d, AccidentalText(w), w, len);
    SlashedRead(s, i3, a, k);
    SlashedNoMark(s, i3, a, k);
    PlaceRead(s, i3 - |PlaceText(w)|, w);
    AccidentalRead(s, i + |DecorationText(d, 0)|, w);
    AccidentalStart(s, i + |DecorationText(d, 0)|, w);
    NoteParts(s, i, d, Read(Sign(w.accidental, AsRead(w).mult, Plain), i3 - |PlaceText(w)|), w,
              Read(Length(a, TwoTo(k)), i3 + |len|));
  }

  lemma SlashedNoMark(s: string, i: nat, a: nat, k: nat)
    requires k > 0 && HasAt(s, i, SlashedText(a, k))
    ensures NoMark(s, i)
  {
    hide PrintNumber;
    var t := SlashedText(a, k);
    assert s[i..i + |t|][0] == s[i] == t[0];
  }

  /** A note with a microtone, such as ^3/2c. */
  lemma MicrotoneNoteRead(s: string, i: nat, d: Decorators, c: char, double: bool, a: nat, b: nat, w: Written, n: nat, m: nat)
    requires (c == '^' || c == '_') && a > 0 && b > 1 && IsLetter(w.note) && n > 0 && m > 0
    requires var sign := (if double then [c, c] else [c]) + LengthText(a, b);
             var text := DecorationText(d, 0) + (sign + (PlaceText(w) + LengthText(n, m)));
             HasAt(s, i, text) && Fresh(s, i + |text|)
    ensures var sign := (if double then [c, c] else [c]) + LengthText(a, b);
            ParseNote(s, i) ==
            Read(Note(d, Written(if double then c else ' ', 1, w.note, w.octave), Length(n, m),
                      Micro(if c == '^' then 1 else -1, a, b), 0),
                 i + |DecorationText(d, 0) + (sign + (PlaceText(w) + LengthText(n, m)))|)
  {
    hide *;
    var sign, len := (if double then [c, c] else [c]) + LengthText(a, b), LengthText(n, m);
    var i1 := i + |DecorationText(d, 0)|;
    var i2 := i1 + |sign|;
    var i3 := i2 + |PlaceText(w)|;
    NoteApart(s, i, d, sign, w, len);
    LengthRead(s, i3, n, m);
    LengthNoMark(s, i3, n, m);
    PlaceRead(s, i2, w);
    LetterFresh(s, i2);
    MicrotoneAt(s, i1, c, double, a, b);
    NoteParts(s, i, d, ReadAccidental(s, i1), w, Read(Length(n, m), i3 + |len|));
  }

  lemma LetterFresh(s: string, i: nat)
    requires i < |s| && ('a' <= s[i] <= 'g' || 'A' <= s[i] <= 'G')
    ensures Fresh(s, i)
  {
  }

  lemma MicrotoneAt(s: string, i: nat, c: char, double: bool, a: nat, b: nat)
    requires (c == '^' || c == '_') && a > 0 && b > 1
    requires var sign := (if double then [c, c] else [c]) + LengthText(a, b);
             HasAt(s, i, sign) && Fresh(s, i + |sign|)
    ensures i < |s| && !IsDecoration(s[i]) && s[i] != '['
    ensures ReadAccidental(s, i) ==
            Read(Sign(if double then c else ' ', 1, Micro(if c == '^' then 1 else -1, a, b)),
                 i + |(if double then [c, c] else [c]) + LengthText(a, b)|)
  {
    hide HasAt, ReadAccidental, LengthText, IsDecoration;
    var mark := if double then [c, c] else [c];
    SplitAt(s, i, mark, LengthText(a, b));
    SplitAt(s, i, [c], if double then [c] else []);
    assert [c] + (if double then [c] else []) == mark;
    CharAt(s, i, c);
    LettersPlain(c);
    DivisorFirst(s, i + |mark|, a, b);
    MicrotoneRead(s, i, c, double, a, b);
  }

  lemma DivisorFirst(s: string, i: nat, a: nat, b: nat)
    requires b > 1 && HasAt(s, i, LengthText(a, b))
    ensures i < |s| && s[i] != '^' && s[i] != '_'
  {
    hide PrintNumber;
    var t := LengthText(a, b);
    assert s[i..i + |t|][0] == s[i] == t[0];
  }

  /** Decorations in front of anything else: a chord is opened by a bracket; at the end of the
      text no note is left; and where no letter follows there is none. */
  lemma NoNoteRead(s: string, i: nat, d: Decorators)
    requires HasAt(s, i, DecorationText(d, 0))
    requires var j := i + |DecorationText(d, 0)|; j < |s| ==> s[j] == '[' || Other(s[j])
    ensures var j := i + |DecorationText(d, 0)|;
            ParseNote(s, i) ==
            if j == |s| then Read(Unfinished, j)
            else if s[j] == '[' then Read(ChordOpened(d), j + 1)
            else Read(Malformed, j)
  {
    hide ReadDecorations, DecorationText, IsDecoration, ReadMarks, ReadMicro;
    NoneJoined(d);
    if i + |DecorationText(d, 0)| < |s| {
      BracketPlain();
    }
    DecorationsRead(s, i, NONE, d, 0);
  }

  /** Neither a decoration nor a part of a note. */
  predicate Other(c: char) {
    !IsDecoration(c) && c != '[' && c != '_' && c != '^' && c != '=' && !('a' <= c <= 'g') && !('A' <= c <= 'G')
  }

  lemma BracketPlain()
    ensures !IsDecoration('[')
  {
    assert forall k :: 0 <= k < 9 ==> DECORATIONS[k] != '[';
  }

  /** The decorations in the order of the flags: staccato, tenuto, loud, roll, fermata,
      ornament, trill, up-bow, down-bow. */
  lemma DecorationTable()
    ensures DecorationAt('.', 0) == 0 && DecorationAt('M', 0) == 1 && DecorationAt('L', 0) == 2
    ensures DecorationAt('R', 0) == 3 && DecorationAt('H', 0) == 4 && DecorationAt('~', 0) == 5
    ensures DecorationAt('T', 0) == 6 && DecorationAt('u', 0) == 7 && DecorationAt('v', 0) == 8
  {
    forall t | 0 <= t < 9
      ensures DecorationAt(".MLRH~Tuv"[t], 0) == t
    {
      DecorationOwn(t);
    }
  }

  /** A character that makes `parsemusic` call `parsenote`. */
  predicate StartsNote(c: char) {
    'a' <= c <= 'g' || 'A' <= c <= 'G' || c == '_' || c == '^' || c == '=' || IsDecoration(c)
  }

  lemma Progress(s: string, i: nat)
    requires i < |s| && StartsNote(s[i])
    ensures ParseNote(s, i).next > i
  {
    hide ReadMarks, ReadMicro, ReadLength, IsDecoration;
    if IsDecoration(s[i]) {
      hide ReadDecorations;
      DecorationsStep(s, i, NONE);
    } else {
      DecorationsEnd(s, i, NONE);
    }
  }

  /** Calling `parsenote` for as long as notes follow. */
  function ParseNotes(s: string, i: nat): seq<Outcome>
    requires i <= |s|
    decreases |s| - i
  {
    if i < |s| && StartsNote(s[i]) then
      Progress(s, i);
      [ParseNote(s, i).value] + ParseNotes(s, ParseNote(s, i).next)
    else []
  }

  /** A note of the tune: decorations, how it is written, and its length n/m. */
  datatype Item = Item(d: Decorators, written: Written, n: nat, m: nat)

  ghost predicate AllNormal(items: seq<Item>) {
    forall k :: 0 <= k < |items| ==> Normal(items[k].written) && items[k].n > 0 && items[k].m > 0
  }

  lemma ReducedPositive(a: nat, b: nat)
    requires a > 0 && b > 0
    ensures Reduced(a, b).0 > 0 && Reduced(a, b).1 > 0
  {
  }

  /** The text that `event_note1` appends for a note it has moved to w. */
  function Printed(d: Decorators, w: Written, n: nat, m: nat): string
    requires IsLetter(w.note) && n > 0 && m > 0
  {
    ReducedPositive(n, m);
    NoteText(d, w, Reduced(n, m).0, Reduced(n, m).1)
  }

  function ItemText(item: Item): string
    requires IsLetter(item.written.note) && item.n > 0 && item.m > 0
  {
    Printed(item.d, item.written, item.n, item.m)
  }

  function NotesText(items: seq<Item>): string
    requires AllNormal(items)
  {
    if items == [] then "" else ItemText(items[0]) + NotesText(items[1..])
  }

  /** What is read back: the same notes, with their lengths in lowest terms. */
  function Again(item: Item): Outcome
    requires item.n > 0 && item.m > 0
  {
    ReducedPositive(item.n, item.m);
    Note(item.d, AsRead(item.written), Length(Reduced(item.n, item.m).0, Reduced(item.n, item.m).1), Plain, 0)
  }

  lemma NoteTextStarts(s: string, i: nat, d: Decorators, w: Written, a: nat, b: nat)
    requires Normal(w) && HasAt(s, i, NoteText(d, w, a, b))
    ensures i < |s| && StartsNote(s[i]) && Fresh(s, i)
  {
    hide LengthText, DecorationText, PlaceText, AccidentalText, DecorationAt;
    var deco, acc, pl, len := DecorationText(d, 0), AccidentalText(w), PlaceText(w), LengthText(a, b);
    SplitAt(s, i, deco, acc + (pl + len));
    SplitAt(s, i + |deco|, acc, pl + len);
    SplitAt(s, i + |deco| + |acc|, pl, len);
    PartStarts(d, w);
    if deco != "" {
      FirstChar(s, i, deco);
      DecorationNotLength(s[i]);
    } else if acc != "" {
      FirstChar(s, i, acc);
    } else {
      FirstChar(s, i, pl);
    }
  }

  lemma FirstChar(s: string, i: nat, t: string)
    requires HasAt(s, i, t) && t != ""
    ensures i < |s| && s[i] == t[0]
  {
    assert s[i..i + |t|][0] == t[0];
  }

  lemma DecorationNotLength(c: char)
    requires IsDecoration(c)
    ensures !IsDigit(c) && c != '/' && c != '\'' && c != ','
  {
    var t := DecorationAt(c, 0);
    assert DECORATIONS[t] == c;
  }

  lemma PartStarts(d: Decorators, w: Written)
    requires Normal(w)
    ensures DecorationText(d, 0) != "" ==> IsDecoration(DecorationText(d, 0)[0])
    ensures AccidentalText(w) != "" ==> AccidentalText(w)[0] == w.accidental && w.accidental != ' '
    ensures PlaceText(w) != "" && ('a' <= PlaceText(w)[0] <= 'g' || 'A' <= PlaceText(w)[0] <= 'G')
  {
    DecorationsStart(d, 0);
  }

  lemma {:induction false} DecorationsStart(d: Decorators, t: nat)
    requires t <= 9
    ensures DecorationText(d, t) != "" ==> IsDecoration(DecorationText(d, t)[0])
    decreases 9 - t
  {
    hide DecorationAt;
    if t < 9 {
      DecorationsStart(d, t + 1);
      DecorationOwn(t);
    }
  }

  lemma {:induction false} RestRead(s: string, i: nat, items: seq<Item>)
    requires AllNormal(items) && HasAt(s, i, NotesText(items)) && i + |NotesText(items)| == |s|
    ensures Fresh(s, i)
    ensures |ParseNotes(s, i)| == |items|
    ensures forall k :: 0 <= k < |items| ==> ParseNotes(s, i)[k] == Again(items[k])
    decreases items
  {
    hide NoteText, ParseNote, Reduced, StartsNote, Fresh, HasAt, Normal;
    if items == [] {
      NothingLeft(s, i);
    } else {
      var item := items[0];
      NormalLegible(item.written);
      ReducedPositive(item.n, item.m);
      var a, b := Reduced(item.n, item.m).0, Reduced(item.n, item.m).1;
      var t := NoteText(item.d, item.written, a, b);
      SplitAt(s, i, t, NotesText(items[1..]));
      RestRead(s, i + |t|, items[1..]);
      NoteTextStarts(s, i, item.d, item.written, a, b);
      NoteRead(s, i, item.d, item.written, a, b);
      Progress(s, i);
    }
  }

  lemma NothingLeft(s: string, i: nat)
    requires HasAt(s, i, "") && i == |s|
    ensures Fresh(s, i) && ParseNotes(s, i) == []
  {
  }

  lemma AllOf(s: string)
    ensures HasAt(s, 0, s)
  {
  }

  /** Reading undoes printing: whatever notes are printed one after the other, calling
      `parsenote` again and again gives the same notes, with lengths in lowest terms. */
  lemma NotesRoundTrip(items: seq<Item>)
    requires AllNormal(items)
    ensures |ParseNotes(NotesText(items), 0)| == |items|
    ensures forall k :: 0 <= k < |items| ==> ParseNotes(NotesText(items), 0)[k] == Again(items[k])
  {
    hide *;
    var s := NotesText(items);
    AllOf(s);
    RestRead(s, 0, items);
  }

  /** Notes as `parsenote` itself makes them come back unchanged. */
  lemma SameWritten(item: Item)
    requires Normal(item.written) && 1 <= item.written.mult <= 2 && item.n > 0 && item.m > 0
    ensures Again(item).written == item.written && Again(item).d == item.d
    ensures Again(item).len.n * item.m == item.n * Again(item).len.m
    ensures LowestTerms(Again(item).len.n, Again(item).len.m)
  {
    hide Reduced;
  }

  /** A scaled note as `event_note1` moves it and writes it. */
  function Arranged(sharps: int, t: int, num: nat, denom: nat, item: Item): Item
    requires Legible(item.written)
  {
    Item(item.d, Moved(sharps, t, item.written), item.n * num, item.m * denom)
  }

  function AllArranged(sharps: int, t: int, num: nat, denom: nat, items: seq<Item>): (r: seq<Item>)
    requires AllLegible(AllWritten(items))
    ensures |r| == |items| && forall k :: 0 <= k < |r| ==> r[k] == Arranged(sharps, t, num, denom, items[k])
  {
    var ws := AllWritten(items);
    seq(|items|, k requires 0 <= k < |items| && AllLegible(ws) && |ws| == |items| && ws[k] == items[k].written =>
      Arranged(sharps, t, num, denom, items[k]))
  }

  function AllWritten(items: seq<Item>): (r: seq<Written>)
    ensures |r| == |items| && forall k :: 0 <= k < |r| ==> r[k] == items[k].written
  {
    seq(|items|, k requires 0 <= k < |items| => items[k].written)
  }

  /** Buffer tmp, where abc2abc collects the line it writes, and what notes depend on. */
  class NotePrinter {
    const key: Transposer
    const num: nat
    const denom: nat
    var tmp: string

    constructor (key: Transposer, num: nat, denom: nat)
      ensures this.key == key && this.num == num && this.denom == denom && tmp == ""
    {
      this.key, this.num, this.denom, tmp := key, num, denom, "";
    }

    /** `emit_int`, and the number in "/%d" */
    method EmitInt(n: nat)
      modifies this`tmp
      ensures tmp == old(tmp) + PrintNumber(n)
    {
      tmp := tmp + PrintNumber(n);
    }

    method PrintDecorations(decorators: Decorators)
      modifies this`tmp
      ensures tmp == old(tmp) + DecorationText(decorators, 0)
    {
      hide *;
      var t := 0;
      ghost var was, done := tmp, "";
      while t < 9
        invariant 0 <= t <= 9 && tmp == was + done
        invariant done + DecorationText(decorators, t) == DecorationText(decorators, 0)
      {
        NextDecoration(decorators, t, done);
        if decorators[t] {
          Append(was, done, [DECORATIONS[t]]);
          done := done + [DECORATIONS[t]];
          tmp := tmp + [DECORATIONS[t]];
        }
        t := t + 1;
      }
      NoMoreDecorations(decorators, done);
    }

    method PrintAccidental(accidental: char, mult: int, ghost w: Written)
      requires w.accidental == accidental && w.mult == mult
      modifies this`tmp
      ensures tmp == old(tmp) + AccidentalText(w)
    {
      if mult == 2 {
        tmp := tmp + [accidental];
      }
      if accidental != ' ' {
        tmp := tmp + [accidental];
      }
    }

    method PrintPlace(note: char, octave: int, ghost w: Written)
      requires IsLetter(note) && w.note == note && w.octave == octave
      modifies this`tmp
      ensures tmp == old(tmp) + PlaceText(w)
    {
      hide Upper;
      ghost var was := tmp;
      var t := octave;
      if octave >= 1 {
        tmp := tmp + [note];
        while t > 1
          invariant 1 <= t <= octave && tmp == was + ([note] + Marks('\'', octave - t))
        {
          Append(was, [note] + Marks('\'', octave - t), "'");
          MoreMarks(note, '\'', octave - t);
          tmp := tmp + "'";
          t := t - 1;
        }
      } else {
        tmp := tmp + [Upper(note)];
        while t < 0
          invariant octave <= t <= 0 && tmp == was + ([Upper(note)] + Marks(',', t - octave))
        {
          Append(was, [Upper(note)] + Marks(',', t - octave), ",");
          MoreMarks(Upper(note), ',', t - octave);
          tmp := tmp + ",";
          t := t + 1;
        }
      }
    }

    /** `printlen` */
    method PrintLen(a: nat, b: nat)
      modifies this`tmp
      ensures tmp == old(tmp) + LengthText(a, b)
    {
      if a != 1 {
        EmitInt(a);
      }
      if b != 1 {
        tmp := tmp + "/";
        EmitInt(b);
      }
    }

    /** `event_note1`, outside chords and grace notes. */
    method EventNote1(decorators: Decorators, xaccidental: char, xmult: int, xnote: char, xoctave: int, n: nat, m: nat, ghost sharps: int)
      requires key.InKey(sharps) && !key.drumchan && Legible(Written(xaccidental, xmult, xnote, xoctave))
      requires n > 0 && m > 0 && num > 0 && denom > 0
      modifies this`tmp
      ensures n * num > 0 && m * denom > 0
      ensures var item := Item(decorators, Written(xaccidental, xmult, xnote, xoctave), n, m);
              tmp == old(tmp) + ItemText(Arranged(sharps, key.transpose, num, denom, item))
    {
      var accidental, mult, note, octave := key.MoveNote(xaccidental, xmult, xnote, xoctave, sharps);
      hide *;
      Scaled(n, num);
      Scaled(m, denom);
      ArrangedMeans(sharps, key.transpose, num, denom, Item(decorators, Written(xaccidental, xmult, xnote, xoctave), n, m));
      ghost var w := Written(accidental, mult, note, octave);
      ReducedPositive(n * num, m * denom);
      var a, b := Reduce(n * num, m * denom);
      PrintedMeans(tmp, decorators, w, n * num, m * denom);
      PrintDecorations(decorators);
      PrintAccidental(accidental, mult, w);
      PrintPlace(note, octave, w);
      PrintLen(a, b);
    }
  }

  lemma ArrangedMeans(sharps: int, t: int, num: nat, denom: nat, item: Item)
    requires Legible(item.written)
    ensures var r, w := Arranged(sharps, t, num, denom, item), Moved(sharps, t, item.written);
            IsLetter(r.written.note) && r.written == w &&
            (item.n * num > 0 && item.m * denom > 0 ==> ItemText(r) == Printed(item.d, w, item.n * num, item.m * denom))
  {
  }

  lemma Scaled(n: nat, k: nat)
    requires n > 0 && k > 0
    ensures n * k > 0
  {
  }

  lemma Append(a: string, b: string, c: string)
    ensures (a + b) + c == a + (b + c)
  {
  }

  lemma MoreMarks(first: char, c: char, n: nat)
    ensures ([first] + Marks(c, n)) + [c] == [first] + Marks(c, n + 1)
  {
  }

  lemma NextDecoration(d: Decorators, t: nat, done: string)
    requires t < 9
    ensures |DECORATIONS| == 9
    ensures done + DecorationText(d, t) == (if d[t] then done + [DECORATIONS[t]] else done) + DecorationText(d, t + 1)
  {
    hide DecorationText;
    DecorationTextStep(d, t);
    Append(done, [DECORATIONS[t]], DecorationText(d, t + 1));
  }

  lemma DecorationTextStep(d: Decorators, t: nat)
    requires t < 9
    ensures DecorationText(d, t) == (if d[t] then [DECORATIONS[t]] + DecorationText(d, t + 1) else DecorationText(d, t + 1))
  {
  }

  lemma NoMoreDecorations(d: Decorators, done: string)
    ensures done + DecorationText(d, 9) == done
  {
  }

  lemma PrintedMeans(before: string, d: Decorators, w: Written, n: nat, m: nat)
    requires IsLetter(w.note) && n > 0 && m > 0 && Reduced(n, m).0 >= 0 && Reduced(n, m).1 >= 0
    ensures before + Printed(d, w, n, m) ==
            before + DecorationText(d, 0) + AccidentalText(w) + PlaceText(w) + LengthText(Reduced(n, m).0, Reduced(n, m).1)
  {
    hide DecorationText, AccidentalText, PlaceText, LengthText, Reduced;
    var a, b, c, e := DecorationText(d, 0), AccidentalText(w), PlaceText(w), LengthText(Reduced(n, m).0, Reduced(n, m).1);
    Append(before, a, b);
    Append(before, a + b, c);
    Append(before, a + b + c, e);
    Append(a, b, c);
    Append(a, b + c, e);
    Append(b, c, e);
  }

  /** The notes of a bar, moved and read again, sound t semitones higher throughout exactly
      when no accidental has to be more than double. */
  lemma BarRead(sharps: int, t: int, ws: seq<Written>)
    requires AllLegible(ws) && -7 <= sharps <= 7 && forall k :: 0 <= k < |ws| ==> Normal(ws[k])
    ensures Higher(sharps, t, ws, AllRead(AllMoved(sharps, t, ws))) <==>
            (forall k :: 0 <= k < |ws| ==> Moved(sharps, t, ws[k]).mult <= 2)
  {
    hide Sounds, KeyMap, Moved, Normal, Legible;
    var acc, moved := KeyMap(KeyAfter(sharps, t)), AllMoved(sharps, t, ws);
    forall k | 0 <= k < |ws|
      ensures Normal(moved[k])
      ensures Sounds(acc, moved)[k] == Sounds(KeyMap(sharps), ws)[k] + t
    {
      MovedNormal(sharps, t, ws[k]);
      BarMoved(sharps, t, ws, k);
    }
    ShownExactly(acc, moved);
    ReadAsShown(acc, moved);
    var a, b, c := Sounds(acc, AllRead(moved)), Sounds(acc, moved), Sounds(KeyMap(sharps), ws);
    assert a == b <==> forall k :: 0 <= k < |ws| ==> a[k] == b[k];
  }

  /** In their keys, the notes r sound t semitones higher than the notes ws. */
  ghost predicate Higher(sharps: int, t: int, ws: seq<Written>, r: seq<Written>)
    requires AllLegible(ws) && AllLegible(r) && |r| == |ws|
  {
    forall k :: 0 <= k < |ws| ==>
      Sounds(KeyMap(KeyAfter(sharps, t)), r)[k] == Sounds(KeyMap(sharps), ws)[k] + t
  }

  /** The notes among what `parsenote` made of a text. */
  function NotesOf(outs: seq<Outcome>): (r: seq<Written>)
    requires forall k :: 0 <= k < |outs| ==> outs[k].Note?
    ensures |r| == |outs| && forall k :: 0 <= k < |r| ==> r[k] == outs[k].written
  {
    seq(|outs|, k requires 0 <= k < |outs| && outs[k].Note? => outs[k].written)
  }

  /** From text to text: the text that `event_note1` makes of a bar of notes, one after the
      other, is read again as that bar, decorations and scaled lengths included, and sounds
      t semitones higher throughout exactly when no accidental has to be more than double. */
  lemma TextMoved(sharps: int, t: int, num: nat, denom: nat, items: seq<Item>)
    requires -7 <= sharps <= 7 && num > 0 && denom > 0 && AllNormal(items) && AllLegible(AllWritten(items))
    ensures AllNormal(AllArranged(sharps, t, num, denom, items))
    ensures var arranged := AllArranged(sharps, t, num, denom, items);
            var outs := ParseNotes(NotesText(arranged), 0);
            && |outs| == |items|
            && (forall k :: 0 <= k < |outs| ==> outs[k].Note? && outs[k] == Again(arranged[k]))
            && AllLegible(NotesOf(outs))
            && (Higher(sharps, t, AllWritten(items), NotesOf(outs)) <==>
                forall k :: 0 <= k < |items| ==> Moved(sharps, t, items[k].written).mult <= 2)
  {
    hide Sounds, KeyMap, Moved, Normal, Legible, ParseNotes, NotesText, Higher, Reduced;
    var arranged, ws := AllArranged(sharps, t, num, denom, items), AllWritten(items);
    forall k | 0 <= k < |items|
      ensures Normal(arranged[k].written) && arranged[k].n > 0 && arranged[k].m > 0
    {
      MovedNormal(sharps, t, ws[k]);
      Scaled(items[k].n, num);
      Scaled(items[k].m, denom);
    }
    NotesRoundTrip(arranged);
    var outs := ParseNotes(NotesText(arranged), 0);
    assert NotesOf(outs) == AllRead(AllMoved(sharps, t, ws));
    BarRead(sharps, t, ws);
  }

  function AllRead(ws: seq<Written>): (r: seq<Written>)
    requires AllLegible(ws)
    ensures |r| == |ws| && AllLegible(r) && forall k :: 0 <= k < |r| ==> r[k] == AsRead(ws[k])
  {
    seq(|ws|, k requires 0 <= k < |ws| => AsRead(ws[k]))
  }

  lemma {:induction false} ReadAsShown(acc: seq<int>, ws: seq<Written>)
    requires |acc| == 7 && AllLegible(ws) && forall k :: 0 <= k < |ws| ==> Normal(ws[k])
    ensures Sounds(acc, AllRead(ws)) == Sounds(acc, AllShown(ws))
    decreases ws
  {
    hide Normal, Legible, Pitch, InForce, AsRead, Shown;
    if ws != [] {
      assert AllRead(ws)[1..] == AllRead(ws[1..]) && AllShown(ws)[1..] == AllShown(ws[1..]);
      SameAsShown(acc, ws[0]);
      ReadAsShown(InForce(acc, Shown(ws[0])), ws[1..]);
    }
  }

  lemma SameAsShown(acc: seq<int>, w: Written)
    requires |acc| == 7 && Normal(w)
    ensures Pitch(acc, AsRead(w)) == Pitch(acc, Shown(w)) && InForce(acc, AsRead(w)) == InForce(acc, Shown(w))
  {
  }

  predicate PowerOfTwo(n: nat) {
    n == 1 || (n > 1 && n % 2 == 0 && PowerOfTwo(n / 2))
  }

  lemma {:induction false} PowerMeans(n: nat)
    ensures PowerOfTwo(n) <==> exists k: nat :: n == TwoTo(k)
  {
    if n == 1 {
      assert TwoTo(0) == 1;
    } else if n > 1 && n % 2 == 0 {
      PowerMeans(n / 2);
      if PowerOfTwo(n / 2) {
        var k: nat :| n / 2 == TwoTo(k);
        assert TwoTo(k + 1) == n;
      }
      if k: nat :| n == TwoTo(k) {
        var h: nat := k - 1;
        assert n / 2 == TwoTo(h);
      }
    } else {
      forall k: nat
        ensures n != TwoTo(k)
      {
        EvenOrOne(k);
      }
    }
  }

  lemma EvenOrOne(k: nat)
    ensures TwoTo(k) == 1 || (TwoTo(k) > 1 && TwoTo(k) % 2 == 0)
  {
  }

  /** `readlen`; a divisor that is no power of two is warned about and accepted. */
  method Readlen(s: string, p: nat) returns (a: nat, b: nat, next: nat, warned: bool)
    requires p <= |s|
    ensures Read(Length(a, b), next) == ReadLength(s, p) && (warned <==> !PowerOfTwo(b))
  {
    ghost var l := ReadLength(s, p);
    a, next := Readnump(s, p);
    if a == 0 {
      a := 1;
    }
    b := 1;
    if next < |s| && s[next] == '/' {
      next := next + 1;
      b, next := Readnump(s, next);
      if b == 0 {
        b := 2;
        while next < |s| && s[next] == '/'
          invariant next <= |s| && ReadSlashes(s, next, b) == Read(l.value.m, l.next)
        {
          b := b * 2;
          next := next + 1;
        }
      }
    }
    var t := b;
    warned := false;
    while t > 1
      invariant t > 0 && (PowerOfTwo(b) <==> !warned && PowerOfTwo(t))
      invariant warned ==> t == 1
    {
      if t % 2 != 0 {
        warned := true;
        t := 1;
      } else {
        t := t / 2;
      }
    }
  }

  /** `ismicrotone`, with its event as the answer. */
  method Ismicrotone(s: string, p: nat, dir: int) returns (micro: Micro, next: nat)
    requires p <= |s|
    ensures Read(micro, next) == ReadMicro(s, p, dir)
  {
    var a, b, warned;
    a, b, next, warned := Readlen(s, p);
    micro := if b != 1 then Micro(dir, a, b) else Plain;
  }

  /** Reading the accidental, in `parsenote`. */
  method ParseAccidental(s: string, p: nat) returns (accidental: char, mult: int, micro: Micro, next: nat)
    requires p <= |s|
    ensures Read(Sign(accidental, mult, micro), next) == ReadAccidental(s, p)
  {
    hide ReadMicro;
    accidental, mult, micro, next := ' ', 1, Plain, p;
    if next == |s| {
      return;
    }
    if s[next] == '_' || s[next] == '^' {
      accidental := s[next];
      var dir := if s[next] == '_' then -1 else 1;
      next := next + 1;
      if next < |s| && s[next] == accidental {
        next := next + 1;
        mult := 2;
      }
      micro, next := Ismicrotone(s, next, dir);
      if micro.Micro? {
        if mult == 2 {
          mult := 1;
        } else {
          accidental := ' ';
        }
      }
    } else if s[next] == '=' {
      accidental := s[next];
      next := next + 1;
      if next < |s| && (s[next] == '^' || s[next] == '_') {
        accidental := s[next];
        var dir := if s[next] == '^' then 1 else -1;
        next := next + 1;
        micro, next := Ismicrotone(s, next, dir);
      }
    }
  }

  /** Reading the letter and its octave marks, in `parsenote`. */
  method ParsePlace(s: string, p: nat) returns (note: char, octave: int, bad: nat, next: nat)
    requires p <= |s|
    ensures Read(Place(note, octave, bad), next) == ReadPlace(s, p)
  {
    note, octave, bad, next := ' ', 0, 0, p;
    if next < |s| && 'a' <= s[next] <= 'g' {
      note := s[next];
      octave := 1;
      next := next + 1;
      while next < |s| && (s[next] == '\'' || s[next] == ',')
        invariant next <= |s| && ReadMarks(s, next, Place(note, octave, bad), ',') == ReadPlace(s, p)
      {
        if s[next] == '\'' {
          octave := octave + 1;
        } else {
          bad := bad + 1;
          octave := octave - 1;
        }
        next := next + 1;
      }
    } else if next < |s| && 'A' <= s[next] <= 'G' {
      note := Lower(s[next]);
      next := next + 1;
      while next < |s| && (s[next] == '\'' || s[next] == ',')
        invariant next <= |s| && ReadMarks(s, next, Place(note, octave, bad), '\'') == ReadPlace(s, p)
      {
        if s[next] == ',' {
          octave := octave - 1;
        } else {
          bad := bad + 1;
          octave := octave + 1;
        }
        next := next + 1;
      }
    }
  }

  /** strchr, as `parsenote` uses it. */
  method FindDecoration(c: char) returns (t: nat)
    ensures t == DecorationAt(c, 0)
  {
    t := 0;
    while t < 9 && DECORATIONS[t] != c
      invariant t <= 9 && DecorationAt(c, t) == DecorationAt(c, 0)
    {
      t := t + 1;
    }
  }

  /** `parsenote`, outside chords and with no decorations passed back to it. */
  method Parsenote(s: string, p: nat) returns (r: Outcome, next: nat)
    requires p <= |s|
    ensures Read(r, next) == ParseNote(s, p)
  {
    hide DecorationAt, ReadAccidental, ReadPlace, ReadLength;
    var decorators := NONE;
    next := p;
    while next < |s|
      invariant next <= |s| && ReadDecorations(s, next, decorators) == ReadDecorations(s, p, NONE)
    {
      var t := FindDecoration(s[next]);
      if t == 9 {
        break;
      }
      decorators := decorators[t := true];
      next := next + 1;
    }
    if next == |s| {
      return Unfinished, next;
    }
    if s[next] == '[' {
      return ChordOpened(decorators), next + 1;
    }
    var accidental, mult, micro, note, octave, bad, n, m, warned;
    accidental, mult, micro, next := ParseAccidental(s, next);
    note, octave, bad, next := ParsePlace(s, next);
    if note == ' ' {
      return Malformed, next;
    }
    n, m, next, warned := Readlen(s, next);
    r := Note(decorators, Written(accidental, mult, note, octave), Length(n, m), micro, bad);
  }
}
