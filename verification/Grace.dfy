/** Grace notes (store.c): `dograce` gives a group of grace notes the length that it takes
    away from the note that follows, by one of two methods. No chords. */
module Grace {
  import opened Fractions
  import opened Features

  /** Takes time by itself. */
  predicate Lasts(f: Feature) {
    f.kind == NOTE || f.kind == REST
  }

  /** The time that the features from place a up to place b take. */
  ghost function Sum(fs: seq<Feature>, a: nat, b: nat): real
    requires b <= |fs|
  {
    if b <= a then 0.0 else Sum(fs, a, b - 1) + if Lasts(fs[b - 1]) then Len(fs[b - 1]) else 0.0
  }

  /** The end of a group of grace notes: the first GRACEOFF from place j on. */
  function NextOff(fs: seq<Feature>, j: nat): (k: nat)
    requires j <= |fs|
    ensures j <= k <= |fs| && (k < |fs| ==> fs[k].kind == GRACEOFF)
    ensures forall i :: j <= i < k ==> fs[i].kind != GRACEOFF
    decreases |fs| - j
  {
    if j == |fs| || fs[j].kind == GRACEOFF then j else NextOff(fs, j + 1)
  }

  /** The host: the first note or rest from place j on. */
  function NextHost(fs: seq<Feature>, j: nat): (k: nat)
    requires j <= |fs|
    ensures j <= k <= |fs| && (k < |fs| ==> Lasts(fs[k]))
    ensures forall i :: j <= i < k ==> !Lasts(fs[i])
    decreases |fs| - j
  {
    if j == |fs| || Lasts(fs[j]) then j else NextHost(fs, j + 1)
  }

  function GroupEnd(fs: seq<Feature>, start: nat): (end: nat)
    requires start < |fs|
    ensures start < end <= |fs|
  {
    NextOff(fs, start + 1)
  }

  /** The host of the group that starts at `start`, or |fs| when it has none. */
  function Host(fs: seq<Feature>, start: nat): (host: nat)
    requires start < |fs|
    ensures host <= |fs| && (host < |fs| ==> GroupEnd(fs, start) < host && Lasts(fs[host]))
  {
    if GroupEnd(fs, start) == |fs| then |fs| else NextHost(fs, GroupEnd(fs, start) + 1)
  }

  /** Notes have lengths, grace notes some length at all. */
  ghost predicate Usable(fs: seq<Feature>, start: nat)
    requires start < |fs|
  {
    && (forall k :: start <= k < |fs| && Lasts(fs[k]) ==> fs[k].denom > 0)
    && (forall k :: start <= k < GroupEnd(fs, start) && Lasts(fs[k]) ==> fs[k].num > 0)
    && (Host(fs, start) < |fs| ==> fs[Host(fs, start)].num > 0)
  }

  /** The notes from `start` up to `end` have their lengths multiplied by f, the host has a
      new length, and nothing else is changed. */
  ghost predicate Rescaled(was: seq<Feature>, cur: seq<Feature>, start: nat, end: nat, host: nat, f: real, len: real) {
    && start < end < host < |was| == |cur|
    && (forall k {:trigger cur[k]} :: 0 <= k < |was| ==>
          if Lasts(was[k]) && (start <= k <= end || k == host) then
            && cur[k] == was[k].(num := cur[k].num, denom := cur[k].denom) && LowestTerms(cur[k].num, cur[k].denom)
            && Len(cur[k]) == if k == host then len else Len(was[k]) * f
          else cur[k] == was[k])
  }

  /** Some note is there to be given time. */
  ghost predicate HasNote(fs: seq<Feature>, a: nat, b: nat)
    requires b <= |fs|
  {
    exists k :: a <= k < b && Lasts(fs[k])
  }

  lemma {:induction false} SumScaled(was: seq<Feature>, cur: seq<Feature>, a: nat, b: nat, f: real)
    requires b <= |was| == |cur|
    requires forall k {:trigger cur[k]} :: a <= k < b ==>
               (Lasts(cur[k]) <==> Lasts(was[k])) && (Lasts(was[k]) ==> Len(cur[k]) == Len(was[k]) * f)
    ensures Sum(cur, a, b) == Sum(was, a, b) * f
  {
    hide Len;
    if b > a {
      SumScaled(was, cur, a, b - 1, f);
    }
  }

  lemma {:induction false} SumSame(was: seq<Feature>, cur: seq<Feature>, a: nat, b: nat)
    requires b <= |was| && b <= |cur| && forall k {:trigger cur[k]} :: a <= k < b ==> cur[k] == was[k]
    ensures Sum(cur, a, b) == Sum(was, a, b)
  {
    hide Len;
    if b > a {
      SumSame(was, cur, a, b - 1);
    }
  }

  lemma {:induction false} SumSplit(fs: seq<Feature>, a: nat, b: nat, c: nat)
    requires a <= b <= c <= |fs|
    ensures Sum(fs, a, c) == Sum(fs, a, b) + Sum(fs, b, c)
  {
    hide Len;
    if c > b {
      SumSplit(fs, a, b, c - 1);
    }
  }

  lemma {:induction false} SumSign(fs: seq<Feature>, a: nat, b: nat)
    requires b <= |fs| && forall k :: a <= k < b && Lasts(fs[k]) ==> fs[k].num > 0 && fs[k].denom > 0
    ensures Sum(fs, a, b) >= 0.0
    ensures Sum(fs, a, b) > 0.0 <==> HasNote(fs, a, b)
  {
    if b > a {
      SumSign(fs, a, b - 1);
      hide Len, Value;
      if Lasts(fs[b - 1]) {
        LenIs(fs[b - 1]);
        ValueSign(fs[b - 1].num, fs[b - 1].denom);
      }
    }
  }

  lemma RescaledSums(was: seq<Feature>, cur: seq<Feature>, start: nat, end: nat, host: nat, f: real, len: real)
    requires Rescaled(was, cur, start, end, host, f, len) && Lasts(was[host])
    ensures Sum(cur, start, end + 1) == Sum(was, start, end + 1) * f && Len(cur[host]) == len
    ensures Sum(cur, 0, |was|) - Sum(was, 0, |was|) ==
            Sum(cur, start, end + 1) + Len(cur[host]) - Sum(was, start, end + 1) - Len(was[host])
  {
    hide Len, LowestTerms, Sum;
    var n := |was|;
    SumScaled(was, cur, start, end + 1, f);
    SumSame(was, cur, 0, start);
    SumSame(was, cur, end + 1, host);
    SumSame(was, cur, host + 1, n);
    SumParts(was, start, end, host);
    SumParts(cur, start, end, host);
  }

  lemma SumParts(fs: seq<Feature>, start: nat, end: nat, host: nat)
    requires start <= end < host < |fs| && Lasts(fs[host])
    ensures Sum(fs, 0, |fs|) ==
            Sum(fs, 0, start) + Sum(fs, start, end + 1) + Sum(fs, end + 1, host) + Len(fs[host]) + Sum(fs, host + 1, |fs|)
  {
    hide Len;
    SumSplit(fs, 0, start, |fs|);
    SumSplit(fs, start, end + 1, |fs|);
    SumSplit(fs, end + 1, host, |fs|);
    SumSplit(fs, host, host + 1, |fs|);
    assert Sum(fs, host, host + 1) == Sum(fs, host, host) + Len(fs[host]);
  }

  /** Finding the group at `place` and its host, with -1 for none. */
  method Locate(a: array<Feature>, place: nat) returns (start: int, end: int, host: int)
    requires place < a.Length && a[place].kind == GRACEON
    ensures start == place
    ensures end == if GroupEnd(a[..], place) < a.Length then GroupEnd(a[..], place) else -1
    ensures host == if Host(a[..], place) < a.Length then Host(a[..], place) else -1
  {
    var j: nat := place;
    start := -1;
    while j < a.Length && start == -1
      invariant (j == place && start == -1) || (start == place && j == place + 1)
    {
      if a[j].kind == GRACEON {
        start := j;
      }
      j := j + 1;
    }
    end, j := FindOff(a, j);
    host := -1;
    if end != -1 {
      host := FindHost(a, j);
    }
  }

  method FindOff(a: array<Feature>, from: nat) returns (end: int, j: nat)
    requires from <= a.Length
    ensures end == if NextOff(a[..], from) < a.Length then NextOff(a[..], from) else -1
    ensures if end == -1 then j == a.Length else j == end + 1
  {
    end, j := -1, from;
    while j < a.Length && end == -1
      invariant from <= j <= a.Length
      invariant end == -1 ==> NextOff(a[..], j) == NextOff(a[..], from)
      invariant end != -1 ==> j == end + 1 && end == NextOff(a[..], from)
    {
      if a[j].kind == GRACEOFF {
        end := j;
      }
      j := j + 1;
    }
  }

  method FindHost(a: array<Feature>, from: nat) returns (host: int)
    requires from <= a.Length
    ensures host == if NextHost(a[..], from) < a.Length then NextHost(a[..], from) else -1
  {
    var j := from;
    host := -1;
    while host == -1 && j < a.Length
      invariant from <= j <= a.Length
      invariant host == -1 ==> NextHost(a[..], j) == NextHost(a[..], from)
      invariant host != -1 ==> host == NextHost(a[..], from) < a.Length
    {
      if a[j].kind == NOTE || a[j].kind == REST {
        host := j;
      }
      j := j + 1;
    }
  }

  /** Counting up grace units. */
  method CountUnits(a: array<Feature>, start: nat, end: nat) returns (grace_num: int, grace_denom: int)
    requires start <= end < a.Length
    requires forall k :: start <= k <= end && Lasts(a[k]) ==> a[k].num > 0 && a[k].denom > 0
    ensures grace_denom > 0 && Value(grace_num, grace_denom) == Sum(a[..], start, end + 1)
    ensures grace_num >= 0 && (grace_num > 0 <==> HasNote(a[..], start, end + 1))
  {
    hide HasNote, LowestTerms;
    grace_num, grace_denom := 0, 1;
    var p := start;
    ValueSign(0, 1);
    while p <= end
      invariant start <= p <= end + 1 && grace_denom > 0
      invariant Value(grace_num, grace_denom) == Sum(a[..], start, p)
    {
      hide Value, Len;
      if a[p].kind == NOTE || a[p].kind == REST {
        LenIs(a[p]);
        SumValue(grace_num, grace_denom, a[p].num, a[p].denom);
        grace_num := grace_num * a[p].denom + a[p].num * grace_denom;
        grace_denom := grace_denom * a[p].denom;
        grace_num, grace_denom := Reduce(grace_num, grace_denom);
        LowestDenom(grace_num, grace_denom);
      }
      p := p + 1;
    }
    SumSign(a[..], start, end + 1);
    ValueSign(grace_num, grace_denom);
  }

  /** `lenmul` */
  method LenMul(a: array<Feature>, n: nat, x: int, y: int)
    requires n < a.Length && (Lasts(a[n]) ==> a[n].denom > 0 && y > 0)
    modifies a
    ensures forall k :: 0 <= k < a.Length && k != n ==> a[k] == old(a[k])
    ensures a[n] == old(a[n]).(num := a[n].num, denom := a[n].denom) && (!Lasts(a[n]) ==> a[n] == old(a[n]))
    ensures Lasts(a[n]) ==> LowestTerms(a[n].num, a[n].denom) && Len(a[n]) == Len(old(a[n])) * Value(x, y)
  {
    hide Value, LowestTerms;
    if a[n].kind == NOTE || a[n].kind == REST {
      ProductValue(a[n].num, a[n].denom, x, y);
      a[n] := a[n].(num := a[n].num * x, denom := a[n].denom * y);
      var num, denom := Reduce(a[n].num, a[n].denom);
      LowestDenom(num, denom);
      a[n] := a[n].(num := num, denom := denom);
    }
  }

  /** The last loop of both methods. */
  method ScaleGroup(a: array<Feature>, start: nat, end: nat, x: int, y: int)
    requires start <= end < a.Length
    requires forall k :: start <= k <= end && Lasts(a[k]) ==> a[k].denom > 0 && y > 0
    modifies a
    ensures forall k :: 0 <= k < a.Length && !(start <= k <= end && Lasts(old(a[k]))) ==> a[k] == old(a[k])
    ensures forall k :: start <= k <= end && Lasts(old(a[k])) ==>
              && a[k] == old(a[k]).(num := a[k].num, denom := a[k].denom) && LowestTerms(a[k].num, a[k].denom)
              && Len(a[k]) == Len(old(a[k])) * Value(x, y)
  {
    hide Value, LowestTerms, Len;
    var p := start;
    while p <= end
      invariant start <= p <= end + 1
      invariant forall k :: 0 <= k < a.Length && !(start <= k < p && Lasts(old(a[k]))) ==> a[k] == old(a[k])
      invariant forall k :: start <= k < p && Lasts(old(a[k])) ==>
                  && a[k] == old(a[k]).(num := a[k].num, denom := a[k].denom) && LowestTerms(a[k].num, a[k].denom)
                  && Len(a[k]) == Len(old(a[k])) * Value(x, y)
    {
      LenMul(a, p, x, y);
      p := p + 1;
    }
  }

  /** Changing the host's length. */
  method SetHost(a: array<Feature>, host: nat, num: int, denom: int)
    requires host < a.Length && denom > 0
    modifies a
    ensures forall k :: 0 <= k < a.Length && k != host ==> a[k] == old(a[k])
    ensures a[host] == old(a[host]).(num := a[host].num, denom := a[host].denom)
    ensures LowestTerms(a[host].num, a[host].denom) && Len(a[host]) == Value(num, denom)
  {
    hide Value, LowestTerms;
    var n, d := Reduce(num, denom);
    LowestDenom(n, d);
    a[host] := a[host].(num := n, denom := d);
  }

  /** What is left of a length when the share n/d of it is gone. */
  ghost function Remaining(len: real, n: int, d: int): real
    requires d > 0
  {
    len - len * Value(n, d)
  }

  /** The share n/d of a length, and what is left of it. */
  lemma Shares(num: int, denom: int, n: int, d: int)
    requires denom > 0 && d > 0
    ensures denom * d > 0
    ensures Value(num * (d - n), denom * d) == Remaining(Value(num, denom), n, d)
  {
    ProductValue(num, denom, d - n, d);
    SumValue(d, 1, -n, 1);
    hide Value;
    OneLess(n, d);
  }

  lemma OneLess(n: int, d: int)
    requires d > 0
    ensures Value(d - n, d) == 1.0 - Value(n, d)
  {
    SumValue(1, 1, -n, d);
    ValueSign(n, d);
    assert Value(1, 1) == 1.0;
  }

  /** Dividing by a number other than zero. */
  lemma QuotientValue(a: int, b: int, c: int, d: int)
    requires b > 0 && c > 0 && d > 0
    ensures b * c > 0 && Value(a * d, b * c) == Value(a, b) / Value(c, d)
  {
    ProductValue(a, b, d, c);
    var v := Value(c, d);
    ValueSign(c, d);
    assert d as real * v == c as real;
    assert Value(d, c) == 1.0 / v;
  }

  lemma {:induction false} NothingToScale(fs: seq<Feature>, a: nat, b: nat)
    requires b <= |fs| && !HasNote(fs, a, b)
    ensures forall k :: a <= k < b ==> !Lasts(fs[k])
    ensures Sum(fs, a, b) == 0.0
  {
    if b > a {
      assert forall k :: a <= k < b - 1 ==> !Lasts(fs[k]);
      NothingToScale(fs, a, b - 1);
      assert !Lasts(fs[b - 1]);
    }
  }

  /** What `applygrace_orig` multiplies the grace notes by. */
  ghost function Factor(fs: seq<Feature>, start: nat, gnum: int, gdenom: int): real
    requires start < |fs| && gdenom > 0 && Host(fs, start) < |fs|
  {
    var sum := Sum(fs, start, GroupEnd(fs, start) + 1);
    if sum == 0.0 then 1.0 else Len(fs[Host(fs, start)]) * Value(gnum, gdenom) / sum
  }

  ghost predicate TakenOrig(was: seq<Feature>, cur: seq<Feature>, start: nat, gnum: int, gdenom: int)
    requires start < |was| && gdenom > 0
  {
    var host := Host(was, start);
    if host == |was| then cur == was
    else Rescaled(was, cur, start, GroupEnd(was, start), host, Factor(was, start, gnum, gdenom),
                  Remaining(Len(was[host]), gnum, gdenom))
  }

  lemma TakenOrigMeans(was: seq<Feature>, cur: seq<Feature>, start: nat, gnum: int, gdenom: int)
    requires start < |was| && gdenom > 0
    ensures Host(was, start) == |was| ==> (TakenOrig(was, cur, start, gnum, gdenom) <==> cur == was)
    ensures Host(was, start) < |was| ==>
              (TakenOrig(was, cur, start, gnum, gdenom) <==>
               Rescaled(was, cur, start, GroupEnd(was, start), Host(was, start), Factor(was, start, gnum, gdenom),
                        Remaining(Len(was[Host(was, start)]), gnum, gdenom)))
  {
    hide Rescaled, Factor, Host, Value, Len;
  }

  /** `applygrace_orig`: a fraction of the host, whatever lengths the grace notes had. */
  method ApplyGraceOrig(a: array<Feature>, place: nat, gfact_num: int, gfact_denom: int)
    requires place < a.Length && a[place].kind == GRACEON && Usable(a[..], place) && 1 <= gfact_num < gfact_denom
    modifies a
    ensures TakenOrig(old(a[..]), a[..], place, gfact_num, gfact_denom)
  {
    hide *;
    ghost var was := a[..];
    var start, end, host := Locate(a, place);
    if host == -1 {
      TakenOrigMeans(was, was, place, gfact_num, gfact_denom);
      return;
    }
    UsableMeans(was, place);
    var grace_num, grace_denom := CountUnits(a, start, end);
    var next_num, next_denom := a[host].num, a[host].denom;
    Shares(next_num, next_denom, gfact_num, gfact_denom);
    LenIs(a[host]);
    SetHost(a, host, next_num * (gfact_denom - gfact_num), next_denom * gfact_denom);
    var fact_num, fact_denom := next_num * grace_denom * gfact_num, next_denom * grace_num * gfact_denom;
    FactorParts(next_num, next_denom, gfact_num, gfact_denom, grace_num, grace_denom);
    if fact_denom != 0 {
      fact_num, fact_denom := Reduce(fact_num, fact_denom);
      LowestDenom(fact_num, fact_denom);
    } else {
      fact_num, fact_denom := 1, 0;
      NothingToScale(was, start, end + 1);
    }
    FactorMeans(was, start, gfact_num, gfact_denom);
    ScaleGroup(a, start, end, fact_num, fact_denom);
    AllRescaled(was, a[..], start, end, host, Factor(was, start, gfact_num, gfact_denom),
                Remaining(Len(was[host]), gfact_num, gfact_denom));
    TakenOrigMeans(was, a[..], place, gfact_num, gfact_denom);
  }

  lemma FactorParts(num: int, denom: int, n: int, d: int, gnum: int, gdenom: int)
    requires num > 0 && denom > 0 && n > 0 && d > 0 && gnum >= 0 && gdenom > 0
    ensures denom * gnum * d > 0 <==> gnum > 0
    ensures denom * gnum * d != 0 <==> gnum > 0
    ensures gnum > 0 ==> Value(gnum, gdenom) > 0.0
    ensures gnum > 0 ==>
              Value(num * gdenom * n, denom * gnum * d) == Value(num, denom) * Value(n, d) / Value(gnum, gdenom)
  {
    hide Value;
    assert denom * d > 0;
    assert denom * gnum * d == denom * d * gnum;
    if gnum > 0 {
      ValueSign(gnum, gdenom);
      ProductValue(num, denom, n, d);
      QuotientValue(num * n, denom * d, gnum, gdenom);
      assert num * gdenom * n == num * n * gdenom;
    }
  }

  lemma FactorMeans(fs: seq<Feature>, start: nat, gnum: int, gdenom: int)
    requires start < |fs| && gdenom > 0 && Host(fs, start) < |fs|
    ensures var sum := Sum(fs, start, GroupEnd(fs, start) + 1);
            Factor(fs, start, gnum, gdenom) ==
            if sum == 0.0 then 1.0 else Len(fs[Host(fs, start)]) * Value(gnum, gdenom) / sum
  {
  }

  lemma AllRescaled(was: seq<Feature>, cur: seq<Feature>, start: nat, end: nat, host: nat, f: real, len: real)
    requires start < end < host < |was| == |cur|
    requires forall k {:trigger cur[k]} :: 0 <= k < |was| && k != host && !(start <= k <= end && Lasts(was[k])) ==> cur[k] == was[k]
    requires forall k {:trigger cur[k]} :: start <= k <= end && Lasts(was[k]) ==>
               cur[k] == was[k].(num := cur[k].num, denom := cur[k].denom) && LowestTerms(cur[k].num, cur[k].denom) &&
               Len(cur[k]) == Len(was[k]) * f
    requires cur[host] == was[host].(num := cur[host].num, denom := cur[host].denom) && Len(cur[host]) == len
    requires LowestTerms(cur[host].num, cur[host].denom) && Lasts(was[host])
    ensures Rescaled(was, cur, start, end, host, f, len)
  {
    hide Len, LowestTerms;
  }

  lemma UsableMeans(fs: seq<Feature>, start: nat)
    requires start < |fs| && Usable(fs, start) && Host(fs, start) < |fs|
    ensures var end := GroupEnd(fs, start);
            && start < end < Host(fs, start) && fs[Host(fs, start)].denom > 0 && fs[Host(fs, start)].num > 0
            && Lasts(fs[Host(fs, start)])
            && forall k :: start <= k <= end && Lasts(fs[k]) ==> fs[k].num > 0 && fs[k].denom > 0
  {
  }

  /** Time is kept exactly when the group has a note: an empty one loses the host's share. */
  lemma OrigExactly(was: seq<Feature>, cur: seq<Feature>, start: nat, gnum: int, gdenom: int)
    requires start < |was| && 1 <= gnum < gdenom && Usable(was, start) && Host(was, start) < |was|
    requires TakenOrig(was, cur, start, gnum, gdenom)
    ensures |cur| == |was|
    ensures var end, host := GroupEnd(was, start), Host(was, start);
            Sum(cur, start, end + 1) + Len(cur[host]) == Len(was[host]) <==> HasNote(was, start, end + 1)
    ensures Len(cur[Host(was, start)]) > 0.0
  {
    hide *;
    var end, host := GroupEnd(was, start), Host(was, start);
    TakenOrigMeans(was, cur, start, gnum, gdenom);
    UsableMeans(was, start);
    var f, rest := Factor(was, start, gnum, gdenom), Remaining(Len(was[host]), gnum, gdenom);
    RescaledLength(was, cur, start, end, host, f, rest);
    RescaledSums(was, cur, start, end, host, f, rest);
    SumSign(was, start, end + 1);
    FactorMeans(was, start, gnum, gdenom);
    LenIs(was[host]);
    ValueSign(was[host].num, was[host].denom);
    ShareParts(Len(was[host]), Sum(was, start, end + 1), gnum, gdenom);
  }

  /** An empty group, `{}C`: the host's one unit is not kept. */
  lemma EmptyGroup(cur: seq<Feature>)
    requires TakenOrig([Feature(GRACEON, 0, 0, 0, 1, false), Feature(GRACEOFF, 0, 0, 0, 1, false), Feature(NOTE, 60, 60, 1, 1, false)],
                       cur, 0, 1, 2)
    ensures |cur| == 3 && Sum(cur, 0, 2) + Len(cur[2]) != 1.0
  {
    var was := [Feature(GRACEON, 0, 0, 0, 1, false), Feature(GRACEOFF, 0, 0, 0, 1, false), Feature(NOTE, 60, 60, 1, 1, false)];
    assert GroupEnd(was, 0) == 1 && Host(was, 0) == 2;
    assert !HasNote(was, 0, 2) && Len(was[2]) == 1.0;
    hide TakenOrig, Sum, Len, Value;
    OrigExactly(was, cur, 0, 1, 2);
  }

  /** The host keeps what the fraction leaves of it, and the grace notes have it in the
      proportion of their old lengths. */
  lemma OrigShares(was: seq<Feature>, cur: seq<Feature>, start: nat, gnum: int, gdenom: int, k: nat, l: nat)
    requires start < |was| && 1 <= gnum < gdenom && Usable(was, start) && Host(was, start) < |was|
    requires TakenOrig(was, cur, start, gnum, gdenom)
    requires start <= k <= GroupEnd(was, start) && start <= l <= GroupEnd(was, start) && Lasts(was[k]) && Lasts(was[l])
    ensures |cur| == |was|
    ensures Len(cur[Host(was, start)]) == Len(was[Host(was, start)]) * Value(gdenom - gnum, gdenom)
    ensures Len(cur[k]) * Len(was[l]) == Len(cur[l]) * Len(was[k])
  {
    hide *;
    TakenOrigMeans(was, cur, start, gnum, gdenom);
    UsableMeans(was, start);
    var end, host, f := GroupEnd(was, start), Host(was, start), Factor(was, start, gnum, gdenom);
    var left := Remaining(Len(was[host]), gnum, gdenom);
    KeptShare(was[host], gnum, gdenom);
    RescaledAt(was, cur, start, end, host, f, left, host);
    RescaledAt(was, cur, start, end, host, f, left, k);
    RescaledAt(was, cur, start, end, host, f, left, l);
    InProportion(Len(was[k]), Len(was[l]), f, Len(cur[k]), Len(cur[l]));
  }

  lemma RescaledAt(was: seq<Feature>, cur: seq<Feature>, start: nat, end: nat, host: nat, f: real, len: real, k: nat)
    requires Rescaled(was, cur, start, end, host, f, len)
    requires Lasts(was[host]) && k < |was| && Lasts(was[k]) && (start <= k <= end || k == host)
    ensures |cur| == |was| && Len(cur[k]) == if k == host then len else Len(was[k]) * f
  {
    hide Len, LowestTerms;
    assert cur[k].num == cur[k].num;
  }

  lemma InProportion(x: real, y: real, f: real, u: real, v: real)
    requires u == x * f && v == y * f
    ensures u * y == v * x
  {
  }

  lemma KeptShare(f: Feature, n: int, d: int)
    requires f.denom > 0 && d > 0
    ensures Remaining(Len(f), n, d) == Len(f) * Value(d - n, d)
  {
    LeftOver(f.num, f.denom, n, d);
    hide Value, Remaining;
  }

  lemma LeftOver(num: int, denom: int, n: int, d: int)
    requires denom > 0 && d > 0
    ensures Remaining(Value(num, denom), n, d) == Value(num, denom) * Value(d - n, d)
  {
    Shares(num, denom, n, d);
    ProductValue(num, denom, d - n, d);
  }

  /** With a divider, each grace note is that many times shorter than it was. */
  lemma NewShares(was: seq<Feature>, cur: seq<Feature>, start: nat, gdenom: int, k: nat)
    requires start < |was| && 1 <= gdenom && Host(was, start) < |was| && TakenNew(was, cur, start, gdenom)
    requires start <= k <= GroupEnd(was, start) && Lasts(was[k])
    ensures |cur| == |was| && Len(cur[k]) * (gdenom as real) == Len(was[k])
  {
    TakenNewMeans(was, cur, start, gdenom);
    hide TakenNew, Len, LowestTerms, Divided;
    TimesShare(Len(was[k]), gdenom);
  }

  lemma TimesShare(len: real, d: int)
    requires d > 0
    ensures (len * Value(1, d)) * (d as real) == len
  {
    assert Value(1, d) * (d as real) == 1.0;
    assert (len * Value(1, d)) * (d as real) == len * (Value(1, d) * (d as real));
  }

  lemma RescaledLength(was: seq<Feature>, cur: seq<Feature>, start: nat, end: nat, host: nat, f: real, len: real)
    requires Rescaled(was, cur, start, end, host, f, len)
    ensures |cur| == |was|
  {
  }

  lemma ShareParts(len: real, sum: real, n: int, d: int)
    requires 1 <= n < d && len > 0.0
    ensures 0.0 < Remaining(len, n, d) < len
    ensures sum > 0.0 ==> sum * (len * Value(n, d) / sum) + Remaining(len, n, d) == len
  {
    ValueSign(n, d);
    ValueSign(d - n, d);
    OneLess(n, d);
    hide Value;
    var v := Value(n, d);
    assert 0.0 < v < 1.0;
    assert len * v > 0.0 && len * (1.0 - v) > 0.0;
    if sum > 0.0 {
      var x := len * v;
      assert sum * (x / sum) == x;
    }
  }

  /** A length divided by the grace divider. */
  ghost function Divided(len: real, d: int): real
    requires d > 0
  {
    len * Value(1, d)
  }

  ghost predicate TakenNew(was: seq<Feature>, cur: seq<Feature>, start: nat, gdenom: int)
    requires start < |was| && gdenom > 0
  {
    var host := Host(was, start);
    if host == |was| then cur == was
    else
      var end := GroupEnd(was, start);
      Rescaled(was, cur, start, end, host, Value(1, gdenom),
               Len(was[host]) - Divided(Sum(was, start, end + 1), gdenom))
  }

  lemma TakenNewMeans(was: seq<Feature>, cur: seq<Feature>, start: nat, gdenom: int)
    requires start < |was| && gdenom > 0
    ensures Host(was, start) == |was| ==> (TakenNew(was, cur, start, gdenom) <==> cur == was)
    ensures Host(was, start) < |was| ==>
              (TakenNew(was, cur, start, gdenom) <==>
               Rescaled(was, cur, start, GroupEnd(was, start), Host(was, start), Value(1, gdenom),
                        Len(was[Host(was, start)]) - Divided(Sum(was, start, GroupEnd(was, start) + 1), gdenom)))
  {
    hide Rescaled, Divided, Host, Value, Len, Sum;
  }

  lemma AdjustedValue(num: int, denom: int, gnum: int, gdenom: int, d: int)
    requires denom > 0 && gdenom > 0 && d > 0
    ensures denom * gdenom * d > 0
    ensures Value(num * gdenom * d - denom * gnum, denom * gdenom * d) == Value(num, denom) - Divided(Value(gnum, gdenom), d)
  {
    hide Value;
    var c := gdenom * d;
    Scaled(gdenom, d);
    Scaled(denom, c);
    SumValue(num, denom, -gnum, c);
    Associate(denom, gdenom, d);
    Associate(num, gdenom, d);
    assert -gnum * denom == -(denom * gnum);
    ProductValue(-gnum, gdenom, 1, d);
    ValueSign(gnum, gdenom);
    Negated(Value(gnum, gdenom), Value(1, d));
  }

  lemma Scaled(a: int, b: int)
    requires a > 0 && b > 0
    ensures a * b > 0
  {
  }

  lemma Associate(a: int, b: int, c: int)
    ensures a * (b * c) == a * b * c
  {
  }

  lemma Negated(x: real, y: real)
    ensures -x * y == -(x * y)
  {
  }

  /** `applygrace_new`: each grace note is divided by a fixed number. The test for a host that
      is not long enough looks at the denominator, and never finds one. */
  method ApplyGraceNew(a: array<Feature>, place: nat, gfact_denom: int)
    requires place < a.Length && a[place].kind == GRACEON && Usable(a[..], place) && 1 <= gfact_denom
    modifies a
    ensures TakenNew(old(a[..]), a[..], place, gfact_denom)
  {
    hide *;
    ghost var was := a[..];
    var start, end, host := Locate(a, place);
    if host == -1 {
      TakenNewMeans(was, was, place, gfact_denom);
      return;
    }
    UsableMeans(was, place);
    var grace_num, grace_denom := CountUnits(a, start, end);
    var adjusted_num := a[host].num * grace_denom * gfact_denom - a[host].denom * grace_num;
    var adjusted_den := a[host].denom * grace_denom * gfact_denom;
    AdjustedValue(a[host].num, a[host].denom, grace_num, grace_denom, gfact_denom);
    LenIs(a[host]);
    if adjusted_den <= 0 {
      assert false;
    }
    SetHost(a, host, adjusted_num, adjusted_den);
    var fact_num, fact_denom := Reduce(1, gfact_denom);
    LowestDenom(fact_num, fact_denom);
    ScaleGroup(a, start, end, fact_num, fact_denom);
    AllRescaled(was, a[..], start, end, host, Value(1, gfact_denom),
                Len(was[host]) - Divided(Sum(was, start, end + 1), gfact_denom));
    TakenNewMeans(was, a[..], place, gfact_denom);
  }

  /** The host is left with less than nothing exactly when the divided group is longer. Time
      is kept in any case. */
  lemma NewExactly(was: seq<Feature>, cur: seq<Feature>, start: nat, gdenom: int)
    requires start < |was| && 1 <= gdenom && Usable(was, start) && Host(was, start) < |was|
    requires TakenNew(was, cur, start, gdenom)
    ensures |cur| == |was|
    ensures var end, host := GroupEnd(was, start), Host(was, start);
            && Sum(cur, start, end + 1) + Len(cur[host]) == Len(was[host])
            && (Len(cur[host]) < 0.0 <==> Divided(Sum(was, start, end + 1), gdenom) > Len(was[host]))
  {
    hide *;
    var end, host := GroupEnd(was, start), Host(was, start);
    TakenNewMeans(was, cur, start, gdenom);
    UsableMeans(was, start);
    var rest := Len(was[host]) - Divided(Sum(was, start, end + 1), gdenom);
    RescaledLength(was, cur, start, end, host, Value(1, gdenom), rest);
    RescaledSums(was, cur, start, end, host, Value(1, gdenom), rest);
    DividedMeans(Sum(was, start, end + 1), gdenom);
  }

  /** A grace note of four units in front of a note of one, divided by two. */
  lemma LongGroup(cur: seq<Feature>)
    requires TakenNew([Feature(GRACEON, 0, 0, 0, 1, false), Feature(NOTE, 62, 62, 4, 1, false), Feature(GRACEOFF, 0, 0, 0, 1, false),
                       Feature(NOTE, 60, 60, 1, 1, false)], cur, 0, 2)
    ensures |cur| == 4 && Len(cur[3]) < 0.0
  {
    var was := [Feature(GRACEON, 0, 0, 0, 1, false), Feature(NOTE, 62, 62, 4, 1, false), Feature(GRACEOFF, 0, 0, 0, 1, false),
                Feature(NOTE, 60, 60, 1, 1, false)];
    assert GroupEnd(was, 0) == 2 && Host(was, 0) == 3;
    NewExactly(was, cur, 0, 2);
    assert Sum(was, 0, 3) == 4.0;
  }

  lemma DividedMeans(len: real, d: int)
    requires d > 0
    ensures Divided(len, d) == len * Value(1, d)
  {
  }

  /** A tune whose groups are not empty, do not nest, and have each a host of their own, and
      whose grace commands are what `%%MIDI grace` and `%%MIDI gracedivider` ask for. */
  ghost predicate WellGrouped(fs: seq<Feature>) {
    && (forall k :: 0 <= k < |fs| && Lasts(fs[k]) ==> fs[k].num > 0 && fs[k].denom > 0)
    && (forall k :: 0 <= k < |fs| && fs[k].kind == SETGRACE ==> 1 <= fs[k].num < fs[k].denom)
    && (forall k :: 0 <= k < |fs| && fs[k].kind == GRACEON ==> Hosted(fs, k))
  }

  ghost predicate Hosted(fs: seq<Feature>, k: nat)
    requires k < |fs|
  {
    && Host(fs, k) < |fs| && HasNote(fs, k, GroupEnd(fs, k) + 1)
    && forall i :: k < i < Host(fs, k) ==> fs[i].kind != GRACEON
  }

  /** The time that the groups starting before place j have been written with. */
  ghost function GroupTime(fs: seq<Feature>, j: nat): real
    requires WellGrouped(fs) && j <= |fs|
  {
    if j == 0 then 0.0
    else GroupTime(fs, j - 1) + if fs[j - 1].kind == GRACEON then Sum(fs, j - 1, GroupEnd(fs, j - 1) + 1) else 0.0
  }

  lemma {:induction false} OffSame(was: seq<Feature>, cur: seq<Feature>, j: nat)
    requires |was| == |cur| && j <= |was| && forall k {:trigger cur[k]} :: j <= k < |was| ==> cur[k] == was[k]
    ensures NextOff(cur, j) == NextOff(was, j) && NextHost(cur, j) == NextHost(was, j)
    decreases |was| - j
  {
    if j < |was| {
      OffSame(was, cur, j + 1);
    }
  }

  lemma GroupSame(was: seq<Feature>, cur: seq<Feature>, j: nat)
    requires |was| == |cur| && j < |was| && forall k {:trigger cur[k]} :: j <= k < |was| ==> cur[k] == was[k]
    ensures Host(cur, j) == Host(was, j) && GroupEnd(cur, j) == GroupEnd(was, j)
  {
    OffSame(was, cur, j + 1);
    if GroupEnd(was, j) < |was| {
      OffSame(was, cur, GroupEnd(was, j) + 1);
    }
  }

  lemma NoteSame(was: seq<Feature>, cur: seq<Feature>, a: nat, b: nat)
    requires b <= |was| == |cur| && (forall k {:trigger cur[k]} :: a <= k < b ==> cur[k] == was[k]) && HasNote(was, a, b)
    ensures HasNote(cur, a, b)
  {
    var k :| a <= k < b && Lasts(was[k]);
    assert Lasts(cur[k]);
  }

  /** Before place j all groups have been dealt with, and from there on nothing has changed
      but the host of the last one. */
  ghost predicate Dealt(was: seq<Feature>, cur: seq<Feature>, j: nat, u: nat) {
    && WellGrouped(was) && j <= |was| == |cur|
    && (forall k {:trigger cur[k]} :: j <= k < |was| ==>
          cur[k].kind == was[k].kind && (k >= u || !Lasts(was[k]) ==> cur[k] == was[k]))
    && (forall k :: j <= k < u && k < |was| ==> was[k].kind != GRACEON)
    && Sum(cur, 0, |cur|) == Sum(was, 0, |was|) - GroupTime(was, j)
  }

  lemma DealtStart(was: seq<Feature>)
    requires WellGrouped(was)
    ensures Dealt(was, was, 0, 0)
  {
  }

  lemma DealtOther(was: seq<Feature>, cur: seq<Feature>, j: nat, u: nat)
    requires Dealt(was, cur, j, u) && j < |was| && cur[j].kind != GRACEON
    ensures Dealt(was, cur, j + 1, u)
    ensures cur[j].kind == SETGRACE ==> 1 <= cur[j].num < cur[j].denom
  {
    hide Hosted, Sum;
  }

  lemma DealtGroup(was: seq<Feature>, cur: seq<Feature>, j: nat, u: nat)
    requires Dealt(was, cur, j, u) && j < |was| && cur[j].kind == GRACEON
    ensures Usable(cur, j) && Host(cur, j) < |was| && HasNote(cur, j, GroupEnd(cur, j) + 1)
    ensures Host(cur, j) == Host(was, j) && GroupEnd(cur, j) == GroupEnd(was, j)
    ensures Sum(cur, j, GroupEnd(cur, j) + 1) == Sum(was, j, GroupEnd(was, j) + 1)
  {
    hide Sum, HasNote, Host, GroupEnd;
    assert u <= j;
    GroupSame(was, cur, j);
    assert Hosted(was, j);
    NoteSame(was, cur, j, GroupEnd(was, j) + 1);
    assert cur[Host(was, j)] == was[Host(was, j)];
    SumSame(was, cur, j, GroupEnd(was, j) + 1);
  }

  lemma DealtRescaled(was: seq<Feature>, cur: seq<Feature>, new_: seq<Feature>, j: nat, u: nat, f: real, len: real)
    requires Dealt(was, cur, j, u) && j < |was| && cur[j].kind == GRACEON && Host(cur, j) < |cur|
    requires Rescaled(cur, new_, j, GroupEnd(cur, j), Host(cur, j), f, len)
    requires Sum(new_, j, GroupEnd(cur, j) + 1) + len == Len(cur[Host(cur, j)])
    ensures Dealt(was, new_, j + 1, Host(cur, j) + 1)
  {
    hide Sum, HasNote, Len, LowestTerms, Host, GroupEnd;
    DealtGroup(was, cur, j, u);
    RescaledSums(cur, new_, j, GroupEnd(cur, j), Host(cur, j), f, len);
    assert Hosted(was, j);
  }

  /** gfact_method, gfact_num and gfact_denom */
  datatype Setting = Setting(fraction: bool, num: int, denom: int)

  /** What the loop does at place j: the group there is dealt with by the method that is set,
      or another one is set. */
  ghost predicate Goes(was: seq<Feature>, g: Setting, j: nat, cur: seq<Feature>, g': Setting) {
    && j < |was| && g.denom > 0
    && if was[j].kind == GRACEON then
         g' == g && if g.fraction then TakenOrig(was, cur, j, g.num, g.denom) else TakenNew(was, cur, j, g.denom)
       else
         cur == was && g' == if was[j].kind == SETGRACE then Setting(was[j].pitch != 0, was[j].num, was[j].denom) else g
  }

  /** A group under each of the two methods: the host keeps what the fraction leaves, or each
      note is as many times shorter as the divider says; and how the method is set. */
  lemma GoesMeans(was: seq<Feature>, g: Setting, j: nat, cur: seq<Feature>, g': Setting, k: nat)
    requires Goes(was, g, j, cur, g') && 1 <= g.num < g.denom
    requires was[j].kind == GRACEON ==>
               Usable(was, j) && Host(was, j) < |was| && j <= k <= GroupEnd(was, j) && Lasts(was[k])
    ensures was[j].kind == GRACEON ==> |cur| == |was| && g' == g
    ensures was[j].kind == GRACEON && g.fraction ==>
              Len(cur[Host(was, j)]) == Len(was[Host(was, j)]) * Value(g.denom - g.num, g.denom)
    ensures was[j].kind == GRACEON && !g.fraction ==> Len(cur[k]) * (g.denom as real) == Len(was[k])
    ensures was[j].kind == SETGRACE ==>
              cur == was && g'.num == was[j].num && g'.denom == was[j].denom && (g'.fraction <==> was[j].pitch != 0)
    ensures was[j].kind != GRACEON && was[j].kind != SETGRACE ==> cur == was && g' == g
  {
    hide TakenOrig, TakenNew, Usable, Value, Len;
    if was[j].kind == GRACEON {
      if g.fraction {
        OrigShares(was, cur, j, g.num, g.denom, k, k);
      } else {
        NewShares(was, cur, j, g.denom, k);
      }
    }
  }

  /** What `dograce` has made of the tune when it comes to place j. */
  ghost predicate Reached(was: seq<Feature>, g: Setting, j: nat, cur: seq<Feature>, g': Setting) {
    if j == 0 then cur == was && g' == g
    else
      var i: nat := j - 1;
      exists mid, h :: Reached(was, g, i, mid, h) && Goes(mid, h, i, cur, g')
  }

  lemma GoesOn(was: seq<Feature>, g: Setting, j: nat, mid: seq<Feature>, h: Setting, cur: seq<Feature>, g': Setting)
    requires Reached(was, g, j, mid, h) && Goes(mid, h, j, cur, g')
    ensures Reached(was, g, j + 1, cur, g')
  {
    hide Goes;
  }

  lemma ReachedStart(was: seq<Feature>, g: Setting)
    ensures Reached(was, g, 0, was, g)
  {
  }

  lemma GoesAs(was: seq<Feature>, g: Setting, j: nat, cur: seq<Feature>, g': Setting)
    requires j < |was| && g.denom > 0
    requires was[j].kind == GRACEON ==>
               g' == g && if g.fraction then TakenOrig(was, cur, j, g.num, g.denom) else TakenNew(was, cur, j, g.denom)
    requires was[j].kind != GRACEON ==>
               cur == was && g' == if was[j].kind == SETGRACE then Setting(was[j].pitch != 0, was[j].num, was[j].denom) else g
    ensures Goes(was, g, j, cur, g')
  {
    hide TakenOrig, TakenNew;
  }

  /** `dograce`: place by place, each group is dealt with by the method set last; and whichever
      that is, the tune takes afterwards the time that it would take without grace notes. */
  method DoGrace(a: array<Feature>, method0: bool, num0: int, denom0: int)
    requires WellGrouped(a[..]) && 1 <= num0 < denom0
    modifies a
    ensures exists g :: Reached(old(a[..]), Setting(method0, num0, denom0), a.Length, a[..], g)
    ensures Sum(a[..], 0, a.Length) == old(Sum(a[..], 0, a.Length)) - old(GroupTime(a[..], a.Length))
  {
    hide *;
    var gfact_method, gfact_num, gfact_denom := method0, num0, denom0;
    ghost var was: seq<Feature>, u: nat, start := a[..], 0, Setting(method0, num0, denom0);
    DealtStart(was);
    ReachedStart(was, start);
    var j := 0;
    while j < a.Length
      invariant j <= a.Length && Dealt(was, a[..], j, u) && 1 <= gfact_num < gfact_denom
      invariant Reached(was, start, j, a[..], Setting(gfact_method, gfact_num, gfact_denom))
    {
      ghost var cur, g := a[..], Setting(gfact_method, gfact_num, gfact_denom);
      if a[j].kind == GRACEON {
        DealtGroup(was, cur, j, u);
        if gfact_method {
          ApplyGraceOrig(a, j, gfact_num, gfact_denom);
          OrigExactly(cur, a[..], j, gfact_num, gfact_denom);
          DealtOrig(was, cur, a[..], j, u, gfact_num, gfact_denom);
        } else {
          ApplyGraceNew(a, j, gfact_denom);
          NewExactly(cur, a[..], j, gfact_denom);
          DealtNew(was, cur, a[..], j, u, gfact_denom);
        }
        u := Host(cur, j) + 1;
      } else {
        DealtOther(was, cur, j, u);
        if a[j].kind == SETGRACE {
          gfact_method := a[j].pitch != 0;
          gfact_num := a[j].num;
          gfact_denom := a[j].denom;
        }
      }
      GoesAs(cur, g, j, a[..], Setting(gfact_method, gfact_num, gfact_denom));
      GoesOn(was, start, j, cur, g, a[..], Setting(gfact_method, gfact_num, gfact_denom));
      j := j + 1;
    }
    DealtEnd(was, a[..], u);
  }

  lemma DealtOrig(was: seq<Feature>, cur: seq<Feature>, new_: seq<Feature>, j: nat, u: nat, gnum: int, gdenom: int)
    requires Dealt(was, cur, j, u) && j < |was| && cur[j].kind == GRACEON && Host(cur, j) < |cur| == |new_| && gdenom > 0
    requires TakenOrig(cur, new_, j, gnum, gdenom)
    requires Sum(new_, j, GroupEnd(cur, j) + 1) + Len(new_[Host(cur, j)]) == Len(cur[Host(cur, j)])
    ensures Dealt(was, new_, j + 1, Host(cur, j) + 1)
  {
    hide *;
    TakenOrigMeans(cur, new_, j, gnum, gdenom);
    RescaledSums(cur, new_, j, GroupEnd(cur, j), Host(cur, j), Factor(cur, j, gnum, gdenom),
                 Remaining(Len(cur[Host(cur, j)]), gnum, gdenom));
    DealtRescaled(was, cur, new_, j, u, Factor(cur, j, gnum, gdenom), Remaining(Len(cur[Host(cur, j)]), gnum, gdenom));
  }

  lemma DealtNew(was: seq<Feature>, cur: seq<Feature>, new_: seq<Feature>, j: nat, u: nat, gdenom: int)
    requires Dealt(was, cur, j, u) && j < |was| && cur[j].kind == GRACEON && Host(cur, j) < |cur| == |new_| && gdenom > 0
    requires TakenNew(cur, new_, j, gdenom)
    requires Sum(new_, j, GroupEnd(cur, j) + 1) + Len(new_[Host(cur, j)]) == Len(cur[Host(cur, j)])
    ensures Dealt(was, new_, j + 1, Host(cur, j) + 1)
  {
    hide *;
    TakenNewMeans(cur, new_, j, gdenom);
    var rest := Len(cur[Host(cur, j)]) - Divided(Sum(cur, j, GroupEnd(cur, j) + 1), gdenom);
    RescaledSums(cur, new_, j, GroupEnd(cur, j), Host(cur, j), Value(1, gdenom), rest);
    DealtRescaled(was, cur, new_, j, u, Value(1, gdenom), rest);
  }

  lemma DealtEnd(was: seq<Feature>, cur: seq<Feature>, u: nat)
    requires |cur| == |was| && Dealt(was, cur, |was|, u)
    ensures Sum(cur, 0, |cur|) == Sum(was, 0, |was|) - GroupTime(was, |was|)
  {
  }
}
