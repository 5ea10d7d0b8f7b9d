/** The order of parts in a P: field, such as A(AB)3(CD)2 for AABABABCDCD: its meaning, and
    `read_spec` (store.c), which expands it with an explicit stack. */
module PartSpec {
  import opened Text

  datatype Count = Implied | Given(n: nat)

  /** A part label, a bracketed group, or a dot, which only separates. */
  datatype Item = Letter(part: char, count: Count) | Group(items: seq<Item>, count: Count) | Dot

  predicate IsLabel(c: char) {
    'A' <= c <= 'Z'
  }

  function PrintCount(n: Count): string {
    match n
    case Implied => ""
    case Given(k) => PrintNumber(k)
  }

  function PrintItem(e: Item): string
    decreases e, 0
  {
    match e
    case Letter(part, n) => [part] + PrintCount(n)
    case Group(items, n) => "(" + (PrintItems(items) + (")" + PrintCount(n)))
    case Dot => "."
  }

  function PrintItems(es: seq<Item>): string
    decreases es, 1
  {
    if es == [] then "" else PrintItem(es[0]) + PrintItems(es[1..])
  }

  predicate WellFormedItem(e: Item)
    decreases e, 0
  {
    match e
    case Letter(part, _) => IsLabel(part)
    case Group(items, _) => WellFormed(items)
    case Dot => true
  }

  predicate WellFormed(es: seq<Item>)
    decreases es, 1
  {
    es == [] || (WellFormedItem(es[0]) && WellFormed(es[1..]))
  }

  function Times(n: Count): (k: nat)
    ensures k >= 1
  {
    match n
    case Implied => 1
    case Given(k) => if k == 0 then 1 else k
  }

  function Repeat(s: string, n: nat): string {
    if n == 0 then "" else s + Repeat(s, n - 1)
  }

  /** The meaning of an expression: the labels in the order they are played. */
  function ExpandItem(e: Item): string
    decreases e, 0
  {
    match e
    case Letter(part, n) => Repeat([part], Times(n))
    case Group(items, n) => Repeat(Expand(items), Times(n))
    case Dot => ""
  }

  function Expand(es: seq<Item>): string
    decreases es, 1
  {
    if es == [] then "" else ExpandItem(es[0]) + Expand(es[1..])
  }

  function DepthItem(e: Item): nat
    decreases e, 0
  {
    if e.Group? then 1 + Depth(e.items) else 0
  }

  /** How deeply brackets are nested. */
  function Depth(es: seq<Item>): nat
    decreases es, 1
  {
    if es == [] then 0
    else if DepthItem(es[0]) > Depth(es[1..]) then DepthItem(es[0]) else Depth(es[1..])
  }

  datatype Error = TooDeep | TooManyClosing | NothingToRepeat | TooManyOpening

  /** The variables of `read_spec`: the cursor, the list built so far, the stack of places
      in it, the label read last, and the errors reported. */
  datatype Scan = Scan(pos: nat, out: string, stack: seq<nat>, last: char, errors: seq<Error>)

  const MAXDEPTH := 10

  /** One character of the specification, with the number after it if one belongs to it. */
  function Consume(s: string, t: Scan): (r: Scan)
    requires t.pos < |s|
    ensures t.pos <= r.pos <= |s|
    ensures Handled(s[t.pos]) <==> t.pos < r.pos
  {
    var c := s[t.pos];
    if c == '.' then t.(pos := t.pos + 1)
    else if IsLabel(c) then t.(pos := t.pos + 1, out := t.out + [c], last := c)
    else if c == '(' then
      if |t.stack| < MAXDEPTH then t.(pos := t.pos + 1, stack := t.stack + [|t.out|])
      else t.(pos := t.pos + 1, errors := t.errors + [TooDeep])
    else if c == ')' then
      if t.stack == [] then t.(pos := t.pos + 1, errors := t.errors + [TooManyClosing])
      else
        var (repeats, next) := if DigitAt(s, t.pos + 1) then ReadNumber(s, t.pos + 1, 0) else (1, t.pos + 1);
        var start := t.stack[|t.stack| - 1];
        var group := if start <= |t.out| then t.out[start..] else "";
        t.(pos := next, out := t.out + More(group, repeats), stack := t.stack[..|t.stack| - 1])
    else if IsDigit(c) then
      var (repeats, next) := ReadNumber(s, t.pos, 0);
      if t.out != [] then t.(pos := next, out := t.out + More([t.last], repeats))
      else t.(pos := next, errors := t.errors + [NothingToRepeat])
    else t
  }

  /** The characters that `read_spec` does something with. */
  predicate Handled(c: char) {
    c == '.' || IsLabel(c) || c == '(' || c == ')' || IsDigit(c)
  }

  /** What is added to a text that already stands once, to make it stand n times. */
  function More(s: string, n: nat): string {
    if n <= 1 then "" else Repeat(s, n - 1)
  }

  /** Reading on to the first character that is not handled. */
  function ScanOn(s: string, t: Scan): (r: Scan)
    ensures r.pos < |s| ==> !Handled(s[r.pos])
    decreases |s| - t.pos
  {
    if t.pos < |s| && Handled(s[t.pos]) then ScanOn(s, Consume(s, t)) else t
  }

  function LastLabel(es: seq<Item>, last: char): char
    decreases es, 1
  {
    if es == [] then last else LastLabel(es[1..], LastLabelItem(es[0], last))
  }

  function LastLabelItem(e: Item, last: char): char
    decreases e, 0
  {
    match e
    case Letter(part, _) => part
    case Group(items, _) => LastLabel(items, last)
    case Dot => last
  }

  /** The scan past the printed form of an item or a list of items adds exactly its
      meaning to the list. */
  function Past(t: Scan, length: nat, more: string, last: char): Scan {
    t.(pos := t.pos + length, out := t.out + more, last := last)
  }

  lemma RepeatMore(s: string, n: Count, k: nat)
    requires k == match n { case Implied => 1 case Given(j) => j }
    ensures s + More(s, k) == Repeat(s, Times(n))
  {
    assert Repeat(s, 1) == s + Repeat(s, 0) == s;
  }

  lemma PrintedStart(es: seq<Item>, s: string, i: nat)
    requires WellFormed(es) && HasAt(s, i, PrintItems(es)) && !DigitAt(s, i + |PrintItems(es)|)
    ensures !DigitAt(s, i)
  {
    if es != [] {
      SplitAt(s, i, PrintItem(es[0]), PrintItems(es[1..]));
      assert s[i] == s[i..i + |PrintItem(es[0])|][0] == PrintItem(es[0])[0];
    }
  }

  lemma OnDot(s: string, t: Scan)
    requires t.pos < |s| && s[t.pos] == '.'
    ensures ScanOn(s, t) == ScanOn(s, t.(pos := t.pos + 1))
  {
  }

  lemma OnLabel(s: string, t: Scan)
    requires t.pos < |s| && IsLabel(s[t.pos])
    ensures ScanOn(s, t) == ScanOn(s, t.(pos := t.pos + 1, out := t.out + [s[t.pos]], last := s[t.pos]))
  {
  }

  lemma OnOpen(s: string, t: Scan)
    requires t.pos < |s| && s[t.pos] == '('
    ensures ScanOn(s, t) ==
            ScanOn(s, if |t.stack| < MAXDEPTH then t.(pos := t.pos + 1, stack := t.stack + [|t.out|])
                      else t.(pos := t.pos + 1, errors := t.errors + [TooDeep]))
  {
  }

  lemma ScanStep(s: string, t: Scan)
    requires t.pos < |s| && Handled(s[t.pos])
    ensures ScanOn(s, t) == ScanOn(s, Consume(s, t))
  {
    hide Consume;
  }

  lemma ConsumeClose(s: string, t: Scan, below: seq<nat>, start: nat, k: nat, next: nat)
    requires t.pos < |s| && s[t.pos] == ')' && t.stack == below + [start] && start <= |t.out|
    requires (k, next) == if DigitAt(s, t.pos + 1) then ReadNumber(s, t.pos + 1, 0) else (1, t.pos + 1)
    ensures Consume(s, t) == t.(pos := next, out := t.out + More(t.out[start..], k), stack := below)
  {
    hide More, ReadNumber, ScanOn;
    assert t.stack[..|t.stack| - 1] == below;
  }

  lemma OnClose(s: string, t: Scan, below: seq<nat>, start: nat, k: nat, next: nat)
    requires t.pos < |s| && s[t.pos] == ')' && t.stack == below + [start] && start <= |t.out|
    requires (k, next) == if DigitAt(s, t.pos + 1) then ReadNumber(s, t.pos + 1, 0) else (1, t.pos + 1)
    ensures ScanOn(s, t) == ScanOn(s, t.(pos := next, out := t.out + More(t.out[start..], k), stack := below))
  {
    hide More, ReadNumber, ScanOn;
    ConsumeClose(s, t, below, start, k, next);
    ScanStep(s, t);
  }

  lemma OnStrayClose(s: string, t: Scan)
    requires t.pos < |s| && s[t.pos] == ')' && t.stack == []
    ensures ScanOn(s, t) == ScanOn(s, t.(pos := t.pos + 1, errors := t.errors + [TooManyClosing]))
  {
  }

  lemma OnDigits(s: string, t: Scan, k: nat, next: nat)
    requires DigitAt(s, t.pos) && (k, next) == ReadNumber(s, t.pos, 0)
    ensures ScanOn(s, t) ==
            ScanOn(s, if t.out != [] then t.(pos := next, out := t.out + More([t.last], k))
                      else t.(pos := next, errors := t.errors + [NothingToRepeat]))
  {
    hide More;
  }

  lemma ScanLetter(s: string, t: Scan, part: char, n: Count)
    requires IsLabel(part) && HasAt(s, t.pos, [part] + PrintCount(n))
    requires !DigitAt(s, t.pos + 1 + |PrintCount(n)|)
    ensures ScanOn(s, t) == ScanOn(s, Past(t, 1 + |PrintCount(n)|, Repeat([part], Times(n)), part))
  {
    hide Repeat, HasAt, ScanOn, Consume, More, ReadNumber, PrintNumber, Times;
    SplitAt(s, t.pos, [part], PrintCount(n));
    InRange(s, t.pos, [part]);
    CharAt(s, t.pos, part);
    OnLabel(s, t);
    var t1 := t.(pos := t.pos + 1, out := t.out + [part], last := part);
    var k := match n { case Implied => 1 case Given(j) => j };
    RepeatMore([part], n, k);
    assert t.out + [part] + More([part], k) == t.out + ([part] + More([part], k));
    if n.Implied? {
      NothingMore(t1.out, [part]);
    } else {
      ReadNumberInverts(s, t1.pos, k);
      OnDigits(s, t1, k, t1.pos + |PrintNumber(k)|);
    }
  }

  lemma InRange(s: string, i: nat, p: string)
    requires HasAt(s, i, p)
    ensures i + |p| <= |s|
  {
  }

  lemma NothingMore(out: string, s: string)
    ensures out + More(s, 1) == out
  {
  }

  lemma ScanClose(s: string, t: Scan, before: string, group: string, n: Count, below: seq<nat>)
    requires HasAt(s, t.pos, ")" + PrintCount(n)) && !DigitAt(s, t.pos + 1 + |PrintCount(n)|)
    requires t.out == before + group && t.stack == below + [|before|]
    ensures ScanOn(s, t) == ScanOn(s, t.(pos := t.pos + 1 + |PrintCount(n)|, stack := below,
                                         out := before + Repeat(group, Times(n))))
  {
    hide Repeat, HasAt, ScanOn, Consume, More, ReadNumber, PrintNumber, Times;
    SplitAt(s, t.pos, ")", PrintCount(n));
    InRange(s, t.pos, ")");
    CharAt(s, t.pos, ')');
    assert t.out[|before|..] == group;
    var k := match n { case Implied => 1 case Given(j) => j };
    if n.Given? {
      ReadNumberInverts(s, t.pos + 1, n.n);
    }
    OnClose(s, t, below, |before|, k, t.pos + 1 + |PrintCount(n)|);
    RepeatMore(group, n, k);
    assert before + group + More(group, k) == before + (group + More(group, k));
  }

  lemma ItemsCons(es: seq<Item>, last: char)
    requires es != []
    ensures PrintItems(es) == PrintItem(es[0]) + PrintItems(es[1..])
    ensures Expand(es) == ExpandItem(es[0]) + Expand(es[1..])
    ensures LastLabel(es, last) == LastLabel(es[1..], LastLabelItem(es[0], last))
    ensures DepthItem(es[0]) <= Depth(es) && Depth(es[1..]) <= Depth(es)
    ensures WellFormed(es) <==> WellFormedItem(es[0]) && WellFormed(es[1..])
  {
  }

  lemma NoItems(last: char)
    ensures PrintItems([]) == "" && Expand([]) == "" && LastLabel([], last) == last
  {
  }

  lemma GroupFacts(items: seq<Item>, n: Count, last: char)
    ensures var e := Group(items, n);
            PrintItem(e) == "(" + (PrintItems(items) + (")" + PrintCount(n))) &&
            ExpandItem(e) == Repeat(Expand(items), Times(n)) &&
            LastLabelItem(e, last) == LastLabel(items, last) &&
            DepthItem(e) == 1 + Depth(items) && (WellFormedItem(e) <==> WellFormed(items))
  {
  }

  lemma ScanOpen(s: string, t: Scan)
    requires HasAt(s, t.pos, "(") && |t.stack| < MAXDEPTH
    ensures ScanOn(s, t) == ScanOn(s, t.(pos := t.pos + 1, stack := t.stack + [|t.out|]))
  {
    CharAt(s, t.pos, '(');
  }

  lemma NoDigitBeforeClose(s: string, i: nat)
    requires HasAt(s, i, ")")
    ensures !DigitAt(s, i)
  {
    CharAt(s, i, ')');
  }

  lemma {:induction false} ScanItem(s: string, t: Scan, e: Item)
    requires WellFormedItem(e) && HasAt(s, t.pos, PrintItem(e)) && !DigitAt(s, t.pos + |PrintItem(e)|)
    requires |t.stack| + DepthItem(e) <= MAXDEPTH
    ensures ScanOn(s, t) == ScanOn(s, Past(t, |PrintItem(e)|, ExpandItem(e), LastLabelItem(e, t.last)))
    decreases e, 0
  {
    match e
    case Letter(part, n) =>
      ScanLetter(s, t, part, n);
    case Group(items, n) =>
      ScanGroup(s, t, items, n);
    case Dot =>
      CharAt(s, t.pos, '.');
      assert t.out + "" == t.out;
  }

  lemma {:induction false} ScanGroup(s: string, t: Scan, items: seq<Item>, n: Count)
    requires var e := Group(items, n);
             WellFormedItem(e) && HasAt(s, t.pos, PrintItem(e)) && !DigitAt(s, t.pos + |PrintItem(e)|) &&
             |t.stack| + DepthItem(e) <= MAXDEPTH
    ensures var e := Group(items, n);
            ScanOn(s, t) == ScanOn(s, Past(t, |PrintItem(e)|, ExpandItem(e), LastLabelItem(e, t.last)))
    decreases items, 2
  {
    hide PrintItem, PrintItems, ExpandItem, Expand, LastLabel, LastLabelItem, DepthItem, Depth,
         WellFormed, WellFormedItem, HasAt, DigitAt, ScanOn, Consume, Repeat, Times, PrintCount;
    GroupFacts(items, n, t.last);
    var inner, close := PrintItems(items), ")" + PrintCount(n);
    SplitAt(s, t.pos, "(", inner + close);
    SplitAt(s, t.pos + 1, inner, close);
    SplitAt(s, t.pos + 1 + |inner|, ")", PrintCount(n));
    NoDigitBeforeClose(s, t.pos + 1 + |inner|);
    ScanOpen(s, t);
    var t1 := t.(pos := t.pos + 1, stack := t.stack + [|t.out|]);
    ScanItems(s, t1, items);
    var t2 := Past(t1, |inner|, Expand(items), LastLabel(items, t.last));
    ScanClose(s, t2, t.out, Expand(items), n, t.stack);
  }

  lemma {:induction false} ScanItems(s: string, t: Scan, es: seq<Item>)
    requires WellFormed(es) && HasAt(s, t.pos, PrintItems(es)) && !DigitAt(s, t.pos + |PrintItems(es)|)
    requires |t.stack| + Depth(es) <= MAXDEPTH
    ensures ScanOn(s, t) == ScanOn(s, Past(t, |PrintItems(es)|, Expand(es), LastLabel(es, t.last)))
    decreases es, 1
  {
    hide PrintItem, PrintItems, ExpandItem, Expand, LastLabel, LastLabelItem, DepthItem, Depth,
         WellFormed, WellFormedItem, HasAt, DigitAt, ScanOn;
    if es == [] {
      NoItems(t.last);
      assert t.out + "" == t.out;
    } else {
      ItemsCons(es, t.last);
      var e, rest := es[0], es[1..];
      SplitAt(s, t.pos, PrintItem(e), PrintItems(rest));
      PrintedStart(rest, s, t.pos + |PrintItem(e)|);
      ScanItem(s, t, e);
      var t1 := Past(t, |PrintItem(e)|, ExpandItem(e), LastLabelItem(e, t.last));
      ScanItems(s, t1, rest);
      assert t1.out + Expand(rest) == t.out + Expand(es);
    }
  }

  /** The state in which `read_spec` begins. */
  const START := Scan(0, "", [], '\0', [])

  /** Expanding the printed form of an expression gives its meaning, with nothing left on
      the stack and no error reported, if its brackets are nested at most ten deep. */
  lemma ExpandsMeaning(es: seq<Item>)
    requires WellFormed(es) && Depth(es) <= MAXDEPTH
    ensures ScanOn(PrintItems(es), START) ==
            Scan(|PrintItems(es)|, Expand(es), [], LastLabel(es, START.last), [])
  {
    var s := PrintItems(es);
    assert s[0..0 + |s|] == s;
    ScanItems(s, START, es);
    assert "" + Expand(es) == Expand(es);
  }

  lemma {:induction false} ErrorsStay(s: string, t: Scan)
    ensures t.errors <= ScanOn(s, t).errors
    decreases |s| - t.pos
  {
    hide More, ReadNumber;
    if t.pos < |s| && Handled(s[t.pos]) {
      ErrorsStay(s, Consume(s, t));
    }
  }

  lemma {:induction false} TooDeepReported(s: string, t: Scan, es: seq<Item>)
    requires WellFormed(es) && HasAt(s, t.pos, PrintItems(es)) && !DigitAt(s, t.pos + |PrintItems(es)|)
    requires |t.stack| <= MAXDEPTH < |t.stack| + Depth(es)
    ensures TooDeep in ScanOn(s, t).errors
    decreases es
  {
    hide PrintItem, PrintItems, ExpandItem, Expand, LastLabel, LastLabelItem, Depth,
         WellFormed, HasAt, DigitAt, ScanOn;
    DeepNotEmpty(es);
    ItemsCons(es, t.last);
    var e, rest := es[0], es[1..];
    SplitAt(s, t.pos, PrintItem(e), PrintItems(rest));
    PrintedStart(rest, s, t.pos + |PrintItem(e)|);
    if |t.stack| + DepthItem(e) <= MAXDEPTH {
      ScanItem(s, t, e);
      DepthOfRest(es);
      TooDeepReported(s, Past(t, |PrintItem(e)|, ExpandItem(e), LastLabelItem(e, t.last)), rest);
    } else {
      GroupFacts(e.items, e.count, t.last);
      var inner, close := PrintItems(e.items), ")" + PrintCount(e.count);
      SplitAt(s, t.pos, "(", inner + close);
      if |t.stack| == MAXDEPTH {
        OpenTooDeep(s, t);
      } else {
        SplitAt(s, t.pos + 1, inner, close);
        SplitAt(s, t.pos + 1 + |inner|, ")", PrintCount(e.count));
        NoDigitBeforeClose(s, t.pos + 1 + |inner|);
        ScanOpen(s, t);
        TooDeepReported(s, t.(pos := t.pos + 1, stack := t.stack + [|t.out|]), e.items);
      }
    }
  }

  lemma DeepNotEmpty(es: seq<Item>)
    ensures Depth(es) > 0 ==> es != []
  {
  }

  lemma DepthOfRest(es: seq<Item>)
    requires es != []
    ensures Depth(es) > DepthItem(es[0]) ==> Depth(es[1..]) == Depth(es)
  {
  }

  lemma OpenTooDeep(s: string, t: Scan)
    requires HasAt(s, t.pos, "(") && |t.stack| == MAXDEPTH
    ensures TooDeep in ScanOn(s, t).errors
  {
    CharAt(s, t.pos, '(');
    var u := t.(pos := t.pos + 1, errors := t.errors + [TooDeep]);
    OnOpen(s, t);
    ErrorsStay(s, u);
    assert u.errors[|t.errors|] == TooDeep == ScanOn(s, u).errors[|t.errors|];
  }

  /** So ten is the exact limit. */
  lemma DepthLimitExact(es: seq<Item>)
    requires WellFormed(es)
    ensures ScanOn(PrintItems(es), START).errors == [] <==> Depth(es) <= MAXDEPTH
    ensures MAXDEPTH == 10
  {
    if Depth(es) <= MAXDEPTH {
      ExpandsMeaning(es);
    } else {
      var s := PrintItems(es);
      assert s[0..0 + |s|] == s;
      TooDeepReported(s, START, es);
    }
  }

  lemma RepeatAppend(s: string, n: nat)
    ensures Repeat(s, n) + s == Repeat(s, n + 1)
  {
    if n > 0 {
      RepeatAppend(s, n - 1);
      assert s + Repeat(s, n - 1) + s == s + (Repeat(s, n - 1) + s);
    } else {
      assert "" + s == s + "";
    }
  }

  /** The two loops that write out a bracketed group again: `start` is where it stands in
      the list being built. */
  method CopyGroup(part: string, start: nat, repeats: nat) returns (r: string)
    requires start <= |part|
    ensures r == part + More(part[start..], repeats)
  {
    r := part;
    ghost var group := part[start..];
    var stop := |part|;
    var i := 1;
    assert part + "" == part;
    while i < repeats
      invariant 1 <= i && (i <= repeats || i == 1)
      invariant r == part + Repeat(group, i - 1)
    {
      var j := 0;
      while j < stop - start
        invariant 0 <= j <= |group|
        invariant r == part + Repeat(group, i - 1) + group[..j]
      {
        assert r[start + j] == group[j];
        r := r + [r[start + j]];
        j := j + 1;
      }
      assert r == part + (Repeat(group, i - 1) + group);
      RepeatAppend(group, i - 1);
      i := i + 1;
    }
  }

  /** The loop that writes out a label again. */
  method CopyLabel(part: string, last: char, repeats: nat) returns (r: string)
    ensures r == part + More([last], repeats)
  {
    r := part;
    var i := 1;
    assert part + "" == part;
    while i < repeats
      invariant 1 <= i && (i <= repeats || i == 1)
      invariant r == part + Repeat([last], i - 1)
    {
      assert r + [last] == part + (Repeat([last], i - 1) + [last]);
      RepeatAppend([last], i - 1);
      r := r + [last];
      i := i + 1;
    }
  }

  /** The branch of `read_spec` for an opening bracket. */
  method OpenGroup(spec: string, stack: array<nat>, pos: nat, part: string, stackptr: nat, last: char, errors: seq<Error>)
    returns (stackptr': nat, errors': seq<Error>)
    requires stackptr <= stack.Length == MAXDEPTH && pos < |spec| && spec[pos] == '('
    requires forall k :: 0 <= k < stackptr ==> stack[k] <= |part|
    modifies stack
    ensures stackptr' <= stack.Length && forall k :: 0 <= k < stackptr' ==> stack[k] <= |part|
    ensures ScanOn(spec, Scan(pos + 1, part, stack[..stackptr'], last, errors')) ==
            ScanOn(spec, Scan(pos, part, old(stack[..stackptr]), last, errors))
  {
    hide ScanOn, Consume;
    OnOpen(spec, Scan(pos, part, stack[..stackptr], last, errors));
    stackptr', errors' := stackptr, errors;
    if stackptr < MAXDEPTH {
      stack[stackptr] := |part|;
      stackptr' := stackptr + 1;
      assert stack[..stackptr'] == old(stack[..stackptr]) + [|part|];
    } else {
      errors' := errors + [TooDeep];
    }
  }

  /** The branch of `read_spec` for a closing bracket. */
  method CloseGroup(spec: string, stack: array<nat>, pos: nat, part: string, stackptr: nat, last: char, errors: seq<Error>)
    returns (pos': nat, part': string, stackptr': nat, errors': seq<Error>)
    requires stackptr <= stack.Length && pos < |spec| && spec[pos] == ')'
    requires forall k :: 0 <= k < stackptr ==> stack[k] <= |part|
    ensures pos < pos' <= |spec| && stackptr' <= stackptr && |part| <= |part'|
    ensures ScanOn(spec, Scan(pos', part', stack[..stackptr'], last, errors')) ==
            ScanOn(spec, Scan(pos, part, stack[..stackptr], last, errors))
  {
    hide More, ReadNumber, ScanOn, Consume;
    ghost var t := Scan(pos, part, stack[..stackptr], last, errors);
    pos', part', stackptr', errors' := pos + 1, part, stackptr, errors;
    if stackptr > 0 {
      var repeats := 1;
      if pos' < |spec| && '0' <= spec[pos'] <= '9' {
        repeats, pos' := Readnump(spec, pos');
      }
      stackptr' := stackptr - 1;
      assert stack[..stackptr] == stack[..stackptr'] + [stack[stackptr']];
      OnClose(spec, t, stack[..stackptr'], stack[stackptr'], repeats, pos');
      part' := CopyGroup(part, stack[stackptr'], repeats);
    } else {
      OnStrayClose(spec, t);
      errors' := errors + [TooManyClosing];
    }
  }

  /** The branch of `read_spec` for a number after a label. */
  method RepeatLabel(spec: string, t: Scan) returns (pos: nat, part: string, errors: seq<Error>)
    requires DigitAt(spec, t.pos)
    ensures t.pos < pos <= |spec| && |t.out| <= |part|
    ensures ScanOn(spec, t.(pos := pos, out := part, errors := errors)) == ScanOn(spec, t)
  {
    hide More, ScanOn, Consume;
    var repeats;
    repeats, pos := Readnump(spec, t.pos);
    OnDigits(spec, t, repeats, pos);
    part, errors := t.out, t.errors;
    if |part| > 0 {
      part := CopyLabel(part, t.last, repeats);
    } else {
      errors := errors + [NothingToRepeat];
    }
  }

  /** Its branches for a dot and for a label. */
  method DotAndLabel(spec: string, t: Scan) returns (pos: nat, part: string, last: char)
    requires t.pos < |spec|
    ensures t.pos <= pos <= |spec| && |t.out| <= |part|
    ensures pos == t.pos <==> spec[t.pos] != '.' && !('A' <= spec[t.pos] <= 'Z')
    ensures pos == t.pos ==> part == t.out && last == t.last
    ensures ScanOn(spec, t.(pos := pos, out := part, last := last)) == ScanOn(spec, t)
  {
    hide ScanOn, Consume;
    pos, part, last := t.pos, t.out, t.last;
    if spec[pos] == '.' {
      OnDot(spec, t);
      pos := pos + 1;
    }
    if pos < |spec| && 'A' <= spec[pos] <= 'Z' {
      OnLabel(spec, t.(pos := pos));
      part := part + [spec[pos]];
      last := spec[pos];
      pos := pos + 1;
    }
  }

  /** `read_spec`. The loop also accepts '+' and '-', which nothing in its body reads past:
      `stuck` says that it has come to one of them and would go round forever. */
  method ReadSpec(spec: string) returns (part: string, errors: seq<Error>, stuck: bool)
    ensures var t := ScanOn(spec, START);
            part == t.out && (stuck <==> t.pos < |spec| && (spec[t.pos] == '+' || spec[t.pos] == '-')) &&
            errors == t.errors + if t.stack != [] && !stuck then [TooManyOpening] else []
  {
    hide More, ReadNumber, ScanOn, Consume;
    var pos, stackptr, lastch := 0, 0, '\0';
    var stack := new nat[MAXDEPTH];
    part, errors, stuck := "", [], false;
    assert stack[..0] == [];
    ghost var t := START;
    while pos < |spec| && (Handled(spec[pos]) || spec[pos] == '+' || spec[pos] == '-')
      invariant pos <= |spec| && stackptr <= MAXDEPTH && !stuck
      invariant forall k :: 0 <= k < stackptr ==> stack[k] <= |part|
      invariant t == Scan(pos, part, stack[..stackptr], lastch, errors)
      invariant ScanOn(spec, t) == ScanOn(spec, START)
      decreases |spec| - pos
    {
      var first := pos;
      pos, part, lastch := DotAndLabel(spec, Scan(pos, part, stack[..stackptr], lastch, errors));
      t := t.(pos := pos, out := part, last := lastch);
      if pos < |spec| && spec[pos] == '(' {
        stackptr, errors := OpenGroup(spec, stack, pos, part, stackptr, lastch, errors);
        pos := pos + 1;
        t := Scan(pos, part, stack[..stackptr], lastch, errors);
      }
      if pos < |spec| && spec[pos] == ')' {
        pos, part, stackptr, errors := CloseGroup(spec, stack, pos, part, stackptr, lastch, errors);
        t := Scan(pos, part, stack[..stackptr], lastch, errors);
      }
      if pos < |spec| && '0' <= spec[pos] <= '9' {
        pos, part, errors := RepeatLabel(spec, Scan(pos, part, stack[..stackptr], lastch, errors));
        t := t.(pos := pos, out := part, errors := errors);
      }
      if pos == first {
        stuck := true;
        break;
      }
    }
    ScanStops(spec, t);
    if stackptr != 0 && !stuck {
      errors := errors + [TooManyOpening];
    }
  }

  lemma ScanStops(s: string, t: Scan)
    requires t.pos >= |s| || !Handled(s[t.pos])
    ensures ScanOn(s, t) == t
  {
  }

  /** It gets stuck exactly when the first character that it does not handle is a plus or a
      minus sign. */
  lemma {:induction false} StuckExactly(s: string, t: Scan, k: nat)
    requires t.pos <= k <= |s| && (forall i :: t.pos <= i < k ==> Handled(s[i])) && (k < |s| ==> !Handled(s[k]))
    ensures ScanOn(s, t).pos == k
    decreases |s| - t.pos
  {
    hide More, ReadNumber;
    if t.pos < k {
      ConsumeWithin(s, t, k);
      StuckExactly(s, Consume(s, t), k);
    }
  }

  /** A label and a repeated group, such as A(AB)3: the label, then the group so many times. */
  lemma GroupExpands(x: char, y: char, z: char, n: nat)
    requires IsLabel(x) && IsLabel(y) && IsLabel(z) && n > 0
    ensures var t := ScanOn([x] + ("(" + [y, z] + ")" + PrintNumber(n)), START);
            && t.out == [x] + Repeat([y, z], n) && t.errors == [] && t.stack == []
            && t.pos == |[x] + ("(" + [y, z] + ")" + PrintNumber(n))|
  {
    var a, g := Letter(x, Implied), Group([Letter(y, Implied), Letter(z, Implied)], Given(n));
    LabelIs(x);
    Pair(y, z, n);
    OneThen(a, [g]);
    OneThen(g, []);
    hide *;
    assert [a] + [g] == [a, g] && [g] + [] == [g];
    assert PrintItem(g) + "" == PrintItem(g) && ExpandItem(g) + "" == ExpandItem(g);
    DepthOfTwo(a, g);
    ExpandsMeaning([a, g]);
  }

  lemma DepthOfTwo(a: Item, g: Item)
    requires DepthItem(a) == 0 && DepthItem(g) == 1 && WellFormedItem(a) && WellFormedItem(g)
    ensures Depth([a, g]) == 1 <= MAXDEPTH && WellFormed([a, g]) && START.out == "" && START.pos == 0
  {
    OneThen(a, [g]);
    OneThen(g, []);
    assert [a] + [g] == [a, g] && [g] + [] == [g];
    hide DepthItem, WellFormedItem, Depth, WellFormed;
  }

  /** A text so many times over is that many times as long. */
  lemma {:induction false} RepeatLength(s: string, n: nat)
    ensures |Repeat(s, n)| == n * |s|
  {
    if n > 0 {
      RepeatLength(s, n - 1);
      assert n * |s| == |s| + (n - 1) * |s|;
    }
  }

  lemma LabelIs(x: char)
    requires IsLabel(x)
    ensures var e := Letter(x, Implied);
            PrintItem(e) == [x] && ExpandItem(e) == [x] && DepthItem(e) == 0 && WellFormedItem(e)
  {
    assert Repeat([x], 1) == [x] + Repeat([x], 0);
  }

  lemma OneThen(e: Item, es: seq<Item>)
    ensures PrintItems([e] + es) == PrintItem(e) + PrintItems(es) && Expand([e] + es) == ExpandItem(e) + Expand(es)
    ensures Depth([e] + es) == (if DepthItem(e) > Depth(es) then DepthItem(e) else Depth(es))
    ensures WellFormed([e] + es) <==> WellFormedItem(e) && WellFormed(es)
    ensures PrintItems([]) == "" && Expand([]) == "" && Depth([]) == 0 && WellFormed([])
  {
    assert ([e] + es)[1..] == es;
  }

  lemma Pair(x: char, y: char, n: nat)
    requires IsLabel(x) && IsLabel(y) && n > 0
    ensures var g := Group([Letter(x, Implied), Letter(y, Implied)], Given(n));
            PrintItem(g) == "(" + [x, y] + ")" + PrintNumber(n) && ExpandItem(g) == Repeat([x, y], n) &&
            DepthItem(g) == 1 && WellFormedItem(g)
  {
    var a, b := Letter(x, Implied), Letter(y, Implied);
    LabelIs(x);
    LabelIs(y);
    OneThen(a, [b]);
    OneThen(b, []);
    assert [a] + [b] == [a, b] && [b] + [] == [b] && [x] + [y] == [x, y];
    assert "(" + ([x, y] + (")" + PrintNumber(n))) == "(" + [x, y] + ")" + PrintNumber(n);
  }

  /** A bracket that closes nothing, a number that repeats nothing, and a bracket that is
      never closed. */
  lemma Unbalanced()
    ensures ScanOn(")", START) == Scan(1, "", [], '\0', [TooManyClosing])
    ensures ScanOn("2", START) == Scan(1, "", [], '\0', [NothingToRepeat])
    ensures ScanOn("(", START) == Scan(1, "", [0], '\0', [])
  {
    hide Consume, More;
    OnStrayClose(")", START);
    assert ReadNumber("2", 0, 0) == ReadNumber("2", 1, 2) == (2, 1);
    OnDigits("2", START, 2, 1);
    OnOpen("(", START);
    assert [] + [0] == [0];
  }

  /** P:A+B is never read beyond the A. */
  lemma PlusSticks()
    ensures var t := ScanOn("A+B", START); t.pos == 1 && t.out == "A" && t.errors == []
  {
    hide Consume, More, ReadNumber;
    OnLabel("A+B", START);
  }

  lemma ConsumeWithin(s: string, t: Scan, k: nat)
    requires t.pos < k <= |s| && (forall i :: t.pos <= i < k ==> Handled(s[i])) && (k < |s| ==> !Handled(s[k]))
    ensures Consume(s, t).pos <= k
  {
    hide More;
    if DigitAt(s, t.pos + 1) {
      NumberWithin(s, t.pos + 1, 0, k);
    }
    if DigitAt(s, t.pos) {
      NumberWithin(s, t.pos, 0, k);
    }
  }

  lemma {:induction false} NumberWithin(s: string, i: nat, n: nat, k: nat)
    requires i <= k <= |s| && (k < |s| ==> !Handled(s[k]))
    ensures ReadNumber(s, i, n).1 <= k
    decreases |s| - i
  {
    if DigitAt(s, i) && i < k {
      NumberWithin(s, i + 1, n * 10 + DigitValue(s[i]), k);
    }
  }
}
