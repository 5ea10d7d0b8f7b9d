/** Missing repeat signs (store.c): `fixreps` puts a |: where a repeat must have begun, and
    turns a second |: into ::, in place. */
module FixReps {
  import opened Repeats

  /** The signs that `fixreps` takes notice of. */
  predicate IsMark(s: Sign) {
    s.DoubleBar? || s.BarRep? || s.RepBar? || s.DoubleRep?
  }

  function NextMark(s: seq<Sign>, i: nat): (k: nat)
    requires i <= |s|
    ensures i <= k <= |s| && (k < |s| ==> IsMark(s[k])) && forall n :: i <= n < k ==> !IsMark(s[n])
    decreases |s| - i
  {
    if i == |s| || IsMark(s[i]) then i else NextMark(s, i + 1)
  }

  /** A repeat has been begun, and not ended, by the signs before place i. */
  predicate Awaits(s: seq<Sign>, i: nat)
    requires i <= |s|
  {
    if i == 0 then false
    else if s[i - 1].BarRep? || s[i - 1].DoubleRep? then true
    else if s[i - 1].RepBar? then false
    else Awaits(s, i - 1)
  }

  /** The next mark from place i on is one of those before `limit`, and ends a repeat. */
  predicate EndsNext(s: seq<Sign>, i: nat, limit: nat)
    requires i <= |s|
  {
    var k := NextMark(s, i);
    k < |s| && k < limit && (s[k].RepBar? || s[k].DoubleRep?)
  }

  /** The last mark before place j, or -1. */
  function LastMark(s: seq<Sign>, j: nat): (k: int)
    requires j <= |s|
    ensures -1 <= k < j && (k >= 0 ==> IsMark(s[k])) && forall n :: k < n < j ==> !IsMark(s[n])
  {
    if j == 0 then -1 else if IsMark(s[j - 1]) then j - 1 else LastMark(s, j - 1)
  }

  /** What `placestartrep` makes of a sign. */
  function Started(s: Sign): Sign {
    match s
    case DoubleBar => BarRep
    case SingleBar => BarRep
    case RepBar => DoubleRep
    case other => other
  }

  /** A variant ending comes before place j. */
  predicate SeenVariant(s: seq<Sign>, j: nat)
    requires j <= |s|
  {
    j > 0 && (s[j - 1].PlayOnRep? || SeenVariant(s, j - 1))
  }

  /** The sign at place j takes a repeat to have begun, and none has: ::, or, as long as there
      has been no variant ending, :| or the first variant ending. */
  predicate Lacks(s: seq<Sign>, j: nat)
    requires j < |s|
  {
    !Awaits(s, j) && (s[j].DoubleRep? || (!SeenVariant(s, j) && (s[j].RepBar? || s[j].PlayOnRep?)))
  }

  /** The repeat that place j lacks is to begin at place k: at the last mark before, or at the
      start for a variant ending before all marks. */
  predicate BeginsAt(s: seq<Sign>, j: nat, k: nat)
    requires j < |s|
  {
    Lacks(s, j) && k < j && (LastMark(s, j) == k || (LastMark(s, j) < 0 && k == 0 && s[j].PlayOnRep?))
  }

  ghost predicate Wanted(s: seq<Sign>, k: nat, limit: nat)
    requires limit <= |s|
  {
    exists j :: k < j < limit && BeginsAt(s, j, k)
  }

  /** The sign that belongs at place k, if only the signs before `limit` counted: a |: inside
      a repeat ends that; and a repeat begins where one is wanted. */
  ghost function SignFor(s: seq<Sign>, k: nat, limit: nat): Sign
    requires k < |s| && limit <= |s|
  {
    var own := if s[k].BarRep? && Awaits(s, k) then DoubleRep else s[k];
    if Wanted(s, k, limit) then Started(own) else own
  }

  ghost function Repaired(s: seq<Sign>): (r: seq<Sign>)
    ensures |r| == |s| && forall k :: 0 <= k < |s| ==> r[k] == SignFor(s, k, |s|)
  {
    seq(|s|, k requires 0 <= k < |s| => SignFor(s, k, |s|))
  }

  /** A double bar comes before the first repeat sign, unless that begins a repeat. */
  ghost predicate Opens(s: seq<Sign>) {
    var k := NextMark(s, 0);
    k < |s| ==> s[k].DoubleBar? || s[k].BarRep?
  }

  ghost predicate NoVariants(s: seq<Sign>) {
    forall k :: 0 <= k < |s| ==> !s[k].PlayOnRep?
  }

  lemma {:induction false} NoneSeen(s: seq<Sign>, j: nat)
    requires NoVariants(s) && j <= |s|
    ensures !SeenVariant(s, j)
  {
    if j > 0 {
      NoneSeen(s, j - 1);
    }
  }

  /** Without variant endings, a repeat is wanted at a mark where none is begun and the next
      mark ends one. */
  lemma WantedPlain(s: seq<Sign>, k: nat, limit: nat)
    requires NoVariants(s) && k < |s| && limit <= |s|
    ensures Wanted(s, k, limit) <==> IsMark(s[k]) && !Awaits(s, k + 1) && EndsNext(s, k + 1, limit)
  {
    hide Awaits, SeenVariant;
    var n := NextMark(s, k + 1);
    if IsMark(s[k]) && n < limit && n < |s| {
      assert LastMark(s, n) == k;
      AwaitsSince(s, k + 1, n);
      NoneSeen(s, n);
      assert !Awaits(s, k + 1) && EndsNext(s, k + 1, limit) ==> BeginsAt(s, n, k);
    }
    forall j | k < j < limit && BeginsAt(s, j, k)
      ensures IsMark(s[k]) && !Awaits(s, k + 1) && EndsNext(s, k + 1, limit)
    {
      assert LastMark(s, j) == k && j == n;
      AwaitsSince(s, k + 1, j);
    }
  }

  /** Then a repeat that is ended without having been begun begins at the last || or :| before,
      and a repeat that is begun a second time is ended there. */
  lemma SignForPlain(s: seq<Sign>, k: nat)
    requires NoVariants(s) && k < |s|
    ensures SignFor(s, k, |s|) ==
            match s[k]
            case BarRep => if Awaits(s, k) then DoubleRep else BarRep
            case DoubleBar => if !Awaits(s, k) && EndsNext(s, k + 1, |s|) then BarRep else DoubleBar
            case RepBar => if EndsNext(s, k + 1, |s|) then DoubleRep else RepBar
            case other => other
  {
    hide Wanted, EndsNext;
    WantedPlain(s, k, |s|);
    AwaitsNext(s, k);
  }

  /** Inside a repeat, as the signs are after the repair. */
  predicate Inside(s: seq<Sign>, i: nat)
    requires i <= |s|
  {
    Awaits(s, i) || EndsNext(s, i, |s|)
  }

  lemma AlternatesStep(r: seq<Sign>, i: nat, inside: bool)
    requires i < |r|
    ensures if IsPlain(r[i]) then
              (Alternates(r, i, inside) <==> Alternates(r, i + 1, inside)) && (LeftOpen(r, i, inside) <==> LeftOpen(r, i + 1, inside))
            else
              && (Alternates(r, i, inside) <==>
                  !r[i].PlayOnRep? && (inside <==> !r[i].BarRep?) && Alternates(r, i + 1, !r[i].RepBar?))
              && (LeftOpen(r, i, inside) <==> LeftOpen(r, i + 1, !r[i].RepBar?))
  {
  }

  lemma InsideStep(s: seq<Sign>, i: nat)
    requires i < |s| && NoVariants(s)
    ensures var c := SignFor(s, i, |s|);
            if IsPlain(c) then Inside(s, i + 1) == Inside(s, i)
            else !c.PlayOnRep? && (Inside(s, i) <==> !c.BarRep?) && Inside(s, i + 1) == !c.RepBar?
  {
    hide SignFor;
    SignForPlain(s, i);
    NoVariantAt(s, i);
  }

  /** After the repair, repeats begin and end in turn, and the last one is left open exactly
      when no :| follows the last |: or ::. */
  lemma {:induction false} RepairedFrom(s: seq<Sign>, i: nat)
    requires i <= |s| && NoVariants(s)
    ensures Alternates(Repaired(s), i, Inside(s, i))
    ensures LeftOpen(Repaired(s), i, Inside(s, i)) <==> Awaits(s, |s|)
    decreases |s| - i
  {
    if i < |s| {
      hide Alternates, LeftOpen, Inside, SignFor;
      RepairedFrom(s, i + 1);
      AlternatesStep(Repaired(s), i, Inside(s, i));
      InsideStep(s, i);
    }
  }

  /** A tune that has been repaired is played with every section that ends in a repeat sign
      twice, and no complaint but one if the last repeat is never ended. */
  lemma RepairedRun(s: seq<Sign>, m: nat)
    requires NoVariants(s) && Opens(s) && Bounded(Repaired(s), m)
    ensures Sound(Repaired(s), m, START) && Alternates(Repaired(s), 0, false)
    ensures Run(Repaired(s), m, START) ==
            Played(Twice(Repaired(s), 0, false), When(Awaits(s, |s|), EndMissingAtEnd))
  {
    hide Run, Bounded, Repaired, Alternates, LeftOpen, Twice;
    RepairedFrom(s, 0);
    assert !Inside(s, 0);
    StartSound(Repaired(s), m);
    TwiceRun(Repaired(s), m, START, false);
  }

  method PlaceStartRep(a: array<Sign>, j: nat)
    requires j < a.Length
    modifies a
    ensures a[..] == old(a[..])[j := Started(old(a[j]))]
  {
    match a[j] {
      case DoubleBar => a[j] := BarRep;
      case SingleBar => a[j] := BarRep;
      case RepBar => a[j] := DoubleRep;
      case _ =>
    }
  }

  /** `placeendrep` */
  method PlaceEndRep(a: array<Sign>, j: nat)
    requires j < a.Length
    modifies a
    ensures a[..] == old(a[..])[j := match old(a[j]) case DoubleBar => RepBar case SingleBar => RepBar
                                     case BarRep => DoubleRep case other => other]
  {
    match a[j] {
      case DoubleBar => a[j] := RepBar;
      case SingleBar => a[j] := RepBar;
      case BarRep => a[j] := DoubleRep;
      case _ =>
    }
  }

  /** Before place j all is as the signs before it ask for. */
  ghost predicate Partly(s: seq<Sign>, cur: seq<Sign>, j: nat) {
    && j <= |s| == |cur|
    && forall k {:trigger cur[k]} :: 0 <= k < |s| ==> cur[k] == if k < j then SignFor(s, k, j) else s[k]
  }

  lemma {:induction false} AwaitsSince(s: seq<Sign>, i: nat, j: nat)
    requires i <= j <= |s| && forall n :: i <= n < j ==> !s[n].BarRep? && !s[n].DoubleRep? && !s[n].RepBar?
    ensures Awaits(s, j) == Awaits(s, i)
  {
    if i < j {
      AwaitsSince(s, i, j - 1);
    }
  }

  lemma StartedTwice(x: Sign)
    ensures Started(Started(x)) == Started(x)
  {
  }

  /** Counting one more sign changes only the place where it wants a repeat to begin. */
  lemma SignForNext(s: seq<Sign>, j: nat, k: nat)
    requires k < j < |s|
    ensures SignFor(s, k, j + 1) == if BeginsAt(s, j, k) then Started(SignFor(s, k, j)) else SignFor(s, k, j)
  {
    hide Awaits, BeginsAt, Started;
    StartedTwice(if s[k].BarRep? && Awaits(s, k) then DoubleRep else s[k]);
    if BeginsAt(s, j, k) {
      assert Wanted(s, k, j + 1);
    } else {
      assert Wanted(s, k, j + 1) <==> Wanted(s, k, j);
    }
  }

  lemma AwaitsNext(s: seq<Sign>, i: nat)
    requires i < |s|
    ensures Awaits(s, i + 1) ==
            if s[i].BarRep? || s[i].DoubleRep? then true else if s[i].RepBar? then false else Awaits(s, i)
  {
  }

  lemma NothingAfter(s: seq<Sign>, j: nat)
    requires j < |s|
    ensures SignFor(s, j, j + 1) == if s[j].BarRep? && Awaits(s, j) then DoubleRep else s[j]
  {
    assert !Wanted(s, j, j + 1);
  }

  /** At a sign that ends a repeat not begun, there is somewhere for it to begin. */
  lemma SomeMark(s: seq<Sign>, j: nat)
    requires Opens(s) && j < |s| && (s[j].RepBar? || s[j].DoubleRep?)
    ensures LastMark(s, j) >= 0
  {
    assert NextMark(s, 0) <= j;
  }

  lemma PartlyNext(s: seq<Sign>, cur: seq<Sign>, j: nat, rep_point: nat, new_: seq<Sign>)
    requires Partly(s, cur, j) && j < |s| && |new_| == |s| && rep_point < |s|
    requires Lacks(s, j) ==> forall k :: 0 <= k < j ==> (BeginsAt(s, j, k) <==> k == rep_point)
    requires Lacks(s, j) && rep_point == j ==> s[j].PlayOnRep?
    requires Lacks(s, j) ==> rep_point <= j
    requires var started := if Lacks(s, j) then cur[rep_point := Started(cur[rep_point])] else cur;
             new_ == started[j := if s[j].BarRep? && Awaits(s, j) then DoubleRep else s[j]]
    ensures Partly(s, new_, j + 1)
  {
    hide SignFor, Awaits, LastMark, Started, IsMark, Lacks, BeginsAt;
    NothingAfter(s, j);
    forall k {:trigger new_[k]} | 0 <= k < |s|
      ensures new_[k] == if k < j + 1 then SignFor(s, k, j + 1) else s[k]
    {
      if k < j {
        SignForNext(s, j, k);
        if !Lacks(s, j) {
          NotBegun(s, j, k);
        }
      }
    }
  }

  lemma NotBegun(s: seq<Sign>, j: nat, k: nat)
    requires j < |s| && !Lacks(s, j)
    ensures !BeginsAt(s, j, k)
  {
  }

  lemma PartlyAll(s: seq<Sign>, cur: seq<Sign>)
    requires Partly(s, cur, |s|)
    ensures cur == Repaired(s)
  {
    hide SignFor;
  }

  lemma PartlyStart(s: seq<Sign>)
    ensures Partly(s, s, 0)
  {
  }

  /** The variables of `fixreps` when place j is reached. */
  ghost predicate Follows(s: seq<Sign>, cur: seq<Sign>, j: nat, expect_repeat: bool, rep_point: nat, nplays: nat) {
    && Partly(s, cur, j) && expect_repeat == Awaits(s, j) && (nplays > 0 <==> SeenVariant(s, j))
    && (!expect_repeat ==> rep_point == if LastMark(s, j) >= 0 then LastMark(s, j) else 0)
  }

  lemma MarkNext(s: seq<Sign>, j: nat)
    requires j < |s|
    ensures LastMark(s, j + 1) == if IsMark(s[j]) then j else LastMark(s, j)
  {
  }

  lemma FollowsMeans(s: seq<Sign>, cur: seq<Sign>, j: nat, expect_repeat: bool, rep_point: nat, nplays: nat)
    requires Follows(s, cur, j, expect_repeat, rep_point, nplays) && j < |s| && Opens(s)
    ensures |cur| == |s| && cur[j] == s[j]
    ensures Lacks(s, j) <==>
            !expect_repeat && (s[j].DoubleRep? || (nplays == 0 && (s[j].RepBar? || s[j].PlayOnRep?)))
    ensures Lacks(s, j) ==> rep_point <= j && (rep_point == j ==> s[j].PlayOnRep?)
    ensures Lacks(s, j) ==> forall k :: 0 <= k < j ==> (BeginsAt(s, j, k) <==> k == rep_point)
  {
    hide SignFor, Awaits, LastMark, Opens, SeenVariant;
    if s[j].RepBar? || s[j].DoubleRep? {
      SomeMark(s, j);
    }
  }

  /** One round of the loop. */
  lemma FollowsNext(s: seq<Sign>, cur: seq<Sign>, j: nat, expect_repeat: bool, rep_point: nat, nplays: nat,
                    new_: seq<Sign>, rep_point': nat)
    requires Follows(s, cur, j, expect_repeat, rep_point, nplays) && j < |s| && Opens(s) && rep_point < |s|
    requires var needed := !expect_repeat && (s[j].DoubleRep? || (nplays == 0 && (s[j].RepBar? || s[j].PlayOnRep?)));
             var started := if needed then cur[rep_point := Started(cur[rep_point])] else cur;
             new_ == started[j := if s[j].BarRep? && expect_repeat then DoubleRep else s[j]]
    requires rep_point' == if s[j].DoubleBar? || s[j].RepBar? then j else rep_point
    ensures var next := if s[j].BarRep? || s[j].DoubleRep? then true else if s[j].RepBar? then false else expect_repeat;
            Follows(s, new_, j + 1, next, rep_point', if s[j].PlayOnRep? then nplays + 1 else nplays)
  {
    hide SignFor, Awaits, LastMark, Opens, Started, Partly, Lacks, BeginsAt;
    FollowsMeans(s, cur, j, expect_repeat, rep_point, nplays);
    PartlyNext(s, cur, j, rep_point, new_);
    AwaitsNext(s, j);
    MarkNext(s, j);
  }

  /** `fixreps`. As use_next is never set, a single bar is never where a repeat begins. */
  method FixReps(a: array<Sign>)
    requires Opens(a[..])
    modifies a
    ensures a[..] == Repaired(old(a[..]))
  {
    hide *;
    ghost var s := a[..];
    var rep_point, expect_repeat, use_next, nplays, j := 0, false, false, 0, 0;
    PartlyStart(s);
    FollowsStart(s);
    while j < a.Length
      invariant j <= a.Length && nplays >= 0 && (a.Length > 0 ==> 0 <= rep_point < a.Length)
      invariant Follows(s, a[..], j, expect_repeat, rep_point, nplays) && !use_next
    {
      ghost var cur, expect0, rep0, nplays0 := a[..], expect_repeat, rep_point, nplays;
      FollowsMeans(s, cur, j, expect_repeat, rep_point, nplays);
      match a[j] {
        case SingleBar =>
          if use_next {
            rep_point := j;
            use_next := false;
          }
        case DoubleBar =>
          rep_point := j;
          use_next := false;
        case BarRep =>
          if expect_repeat {
            PlaceEndRep(a, j);
          }
          expect_repeat := true;
          use_next := false;
        case RepBar =>
          if !expect_repeat && nplays < 1 {
            PlaceStartRep(a, rep_point);
          }
          expect_repeat := false;
          rep_point := j;
          use_next := false;
        case PlayOnRep(_, _) =>
          if nplays == 0 && !expect_repeat {
            PlaceStartRep(a, rep_point);
          }
          nplays := nplays + 1;
        case DoubleRep =>
          if !expect_repeat {
            PlaceStartRep(a, rep_point);
          }
          expect_repeat := true;
        case _ =>
      }
      VariantStays(s[j]);
      FollowsNext(s, cur, j, expect0, rep0, nplays0, a[..], rep_point);
      j := j + 1;
    }
    FollowsEnd(s, a[..], expect_repeat, rep_point, nplays);
  }

  lemma VariantStays(x: Sign)
    ensures x.PlayOnRep? ==> Started(x) == x
  {
  }

  lemma NoVariantAt(s: seq<Sign>, j: nat)
    requires NoVariants(s) && j < |s|
    ensures !s[j].PlayOnRep?
  {
  }

  lemma FollowsStart(s: seq<Sign>)
    ensures Follows(s, s, 0, false, 0, 0)
  {
  }

  lemma FollowsEnd(s: seq<Sign>, cur: seq<Sign>, expect_repeat: bool, rep_point: nat, nplays: nat)
    requires Follows(s, cur, |s|, expect_repeat, rep_point, nplays)
    ensures cur == Repaired(s)
  {
    PartlyAll(s, cur);
  }

  /** What begins a repeat still does so. */
  lemma {:induction false} StillAwaits(s: seq<Sign>, p: nat, j: nat)
    requires p < j <= |s| && (Repaired(s)[p].BarRep? || Repaired(s)[p].DoubleRep?)
    requires forall n :: p < n < j ==> !s[n].RepBar?
    ensures Awaits(Repaired(s), j)
    decreases j
  {
    hide Repaired;
    if j > p + 1 {
      StillAwaits(s, p, j - 1);
      NoNewEnd(s, j - 1);
      AwaitsNext(Repaired(s), j - 1);
    }
  }

  lemma NoNewEnd(s: seq<Sign>, k: nat)
    requires k < |s| && !s[k].RepBar?
    ensures !Repaired(s)[k].RepBar?
  {
    hide Wanted, Awaits;
  }

  /** Where a repeat was last begun. */
  lemma {:induction false} BegunAt(s: seq<Sign>, j: nat) returns (p: nat)
    requires j <= |s| && Awaits(s, j)
    ensures p < j && (s[p].BarRep? || s[p].DoubleRep?) && forall n :: p < n < j ==> !s[n].RepBar?
  {
    if s[j - 1].BarRep? || s[j - 1].DoubleRep? {
      p := j - 1;
    } else {
      p := BegunAt(s, j - 1);
    }
  }

  /** The first variant ending of a tune is inside a repeat after the repair. */
  lemma FirstVariantInside(s: seq<Sign>, j: nat)
    requires j < |s| && s[j].PlayOnRep? && !SeenVariant(s, j) && LastMark(s, j) >= 0
    ensures Awaits(Repaired(s), j)
  {
    hide SeenVariant;
    if Awaits(s, j) {
      var p := BegunAt(s, j);
      hide Awaits;
      BeginningStays(s, p);
      StillAwaits(s, p, j);
    } else {
      var p := LastMark(s, j);
      assert BeginsAt(s, j, p);
      assert Wanted(s, p, |s|);
      AwaitsSince(s, p + 1, j);
      AwaitsNext(s, p);
      hide Awaits, Wanted;
      StillAwaits(s, p, j);
    }
  }

  lemma BeginningStays(s: seq<Sign>, p: nat)
    requires p < |s| && (s[p].BarRep? || s[p].DoubleRep?)
    ensures Repaired(s)[p].BarRep? || Repaired(s)[p].DoubleRep?
  {
    hide Wanted, Awaits;
  }

  /** || A [1 B :| [2 C || D [1 E :| [2 F || */
  function TwoSections(): seq<Sign> {
    [DoubleBar, Music(0), PlayOnRep(1, ""), Music(1), RepBar, PlayOnRep(2, ""), Music(2), DoubleBar,
     Music(3), PlayOnRep(1, ""), Music(4), RepBar, PlayOnRep(2, ""), Music(5), DoubleBar]
  }

  /** But not the next one that lacks a repeat: the first section is made to begin with |:, the
      second stays as it is, and its endings are outside of any repeat. */
  lemma SecondSectionLost()
    ensures var s := TwoSections();
            && Opens(s) && Repaired(s) == s[0 := BarRep]
            && Awaits(Repaired(s), 2) && !Awaits(Repaired(s), 9)
  {
    var s := TwoSections();
    assert NextMark(s, 0) == 0;
    forall j | 0 <= j < 15
      ensures Lacks(s, j) <==> j == 2
    {
      NeverBegun(s, j);
      if j > 2 {
        SeenSince(s, 2, j);
      }
    }
    assert LastMark(s, 2) == 0;
    assert BeginsAt(s, 2, 0);
    hide Awaits, SeenVariant, Lacks, LastMark;
    var r := Repaired(s);
    forall k | 0 <= k < 15
      ensures r[k] == s[0 := BarRep][k]
    {
      assert Wanted(s, k, 15) <==> k == 0;
    }
    assert r == s[0 := BarRep];
    AwaitsNext(r, 0);
    AwaitsSince(r, 1, 2);
    AwaitsNext(r, 4);
    AwaitsSince(r, 5, 9);
  }

  lemma {:induction false} SeenSince(s: seq<Sign>, p: nat, j: nat)
    requires p < j <= |s| && s[p].PlayOnRep?
    ensures SeenVariant(s, j)
  {
    if p < j - 1 {
      SeenSince(s, p, j - 1);
    }
  }

  lemma {:induction false} NeverBegun(s: seq<Sign>, j: nat)
    requires j <= |s| && forall n :: 0 <= n < j ==> !s[n].BarRep? && !s[n].DoubleRep?
    ensures !Awaits(s, j)
  {
    if j > 0 {
      NeverBegun(s, j - 1);
    }
  }
}
