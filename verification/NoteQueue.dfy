/** The queue of note-offs still to come (queues.c): a list in order of time, threaded
    through an array whose unused cells form a second list. Each item stores how long it
    waits after the item before it. */
module NoteQueue {
  const QSIZE := 50

  /** One pending item: a note-off, or with pitch -1 a request to move the accompaniment
      pattern on to the place given by `chan`. */
  datatype Entry = Entry(delay: int, pitch: int, chan: int)

  datatype Cell = Cell(delay: int, pitch: int, chan: int, next: int)

  /** A pending item with the absolute time at which it falls due. */
  datatype Timed = Timed(at: int, pitch: int, chan: int)

  /** The queue read as absolute times, counted from `now`. */
  function Schedule(q: seq<Entry>, now: int): (s: seq<Timed>)
    ensures |s| == |q|
  {
    if q == [] then []
    else [Timed(now + q[0].delay, q[0].pitch, q[0].chan)] + Schedule(q[1..], now + q[0].delay)
  }

  /** Items never fall due before the ones ahead of them. */
  predicate InOrder(q: seq<Entry>) {
    forall k :: 1 <= k < |q| ==> q[k].delay >= 0
  }

  /** What `addtoQ` does to the list; `lag` is the global notedelay. */
  function Insert(q: seq<Entry>, wait: int, pitch: int, chan: int, lag: int): (r: seq<Entry>)
    ensures |r| == |q| + 1
  {
    if q == [] then
      [Entry(wait, pitch, chan)]
    else if q[0].delay > wait then
      var d := q[0].delay - wait - lag;
      [Entry(wait, pitch, chan), q[0].(delay := if d < 0 then 0 else d)] + q[1..]
    else
      [q[0]] + Insert(q[1..], wait - q[0].delay, pitch, chan, lag)
  }

  /** Where the scan for a place stops when it has `left` to wait after item k - 1: the
      first item due later than that, and the wait that is left after the one before. */
  function Scan(q: seq<Entry>, k: nat, left: int): (r: (nat, int))
    requires k <= |q|
    ensures k <= r.0 <= |q|
    decreases |q| - k
  {
    if k == |q| || q[k].delay > left then (k, left) else Scan(q, k + 1, left - q[k].delay)
  }

  lemma {:induction false} InsertAtScan(q: seq<Entry>, k: nat, left: int, pitch: int, chan: int, lag: int)
    requires k <= |q|
    ensures var (n, rest) := Scan(q, k, left);
            Insert(q[k..], left, pitch, chan, lag) == q[k..n] + Insert(q[n..], rest, pitch, chan, lag) &&
            (n < |q| ==> q[n].delay > rest)
    decreases |q| - k
  {
    if k == |q| || q[k].delay > left {
      assert q[k..k] == [];
    } else {
      InsertAtScan(q, k + 1, left - q[k].delay, pitch, chan, lag);
      var (n, rest) := Scan(q, k + 1, left - q[k].delay);
      assert q[k..] == [q[k]] + q[k + 1..];
      assert Insert([q[k]] + q[k + 1..], left, pitch, chan, lag) ==
             [q[k]] + Insert(q[k + 1..], left - q[k].delay, pitch, chan, lag) by {
        assert ([q[k]] + q[k + 1..])[1..] == q[k + 1..];
      }
      assert q[k..n] == [q[k]] + q[k + 1..n];
    }
  }

  /** What `advanceQ` does to the list. */
  function Advance(q: seq<Entry>, t: int): (r: seq<Entry>)
    ensures |r| == |q|
  {
    if q == [] then [] else [q[0].(delay := q[0].delay - t)] + q[1..]
  }

  /** The same items, due `gap` ticks earlier. */
  function Earlier(s: seq<Timed>, gap: int): (r: seq<Timed>)
    ensures |r| == |s|
    ensures forall k :: 0 <= k < |s| ==> r[k] == s[k].(at := s[k].at - gap)
  {
    seq(|s|, k requires 0 <= k < |s| => s[k].(at := s[k].at - gap))
  }

  lemma {:induction false} ScheduleShift(q: seq<Entry>, now: int, gap: int)
    ensures Schedule(q, now - gap) == Earlier(Schedule(q, now), gap)
  {
    if q != [] {
      ScheduleShift(q[1..], now + q[0].delay, gap);
    }
  }

  /** The absolute times come in order. */
  lemma {:induction false} ScheduleSorted(q: seq<Entry>, now: int)
    requires InOrder(q)
    ensures forall i, j :: 0 <= i < j < |q| ==> Schedule(q, now)[i].at <= Schedule(q, now)[j].at
  {
    if |q| > 1 {
      var s := Schedule(q[1..], now + q[0].delay);
      ScheduleSorted(q[1..], now + q[0].delay);
      assert forall j :: 0 < j < |s| ==> s[0].at <= s[j].at;
    }
  }

  /** How a stable priority queue takes in a new item: after every item due no later, and
      ahead of the rest. Those are brought forward alike, by the chord delay `lag` or by as
      much of it as keeps them from overtaking the new item. */
  function StableInsert(s: seq<Timed>, new_: Timed, lag: nat): (r: seq<Timed>) {
    if s == [] then [new_]
    else if s[0].at > new_.at then
      [new_] + Earlier(s, if s[0].at - new_.at < lag then s[0].at - new_.at else lag)
    else [s[0]] + StableInsert(s[1..], new_, lag)
  }

  /** In absolute times, `addtoQ` is insertion into a stable priority queue. */
  lemma {:induction false} InsertIsStable(q: seq<Entry>, wait: int, pitch: int, chan: int, lag: nat, now: int)
    ensures Schedule(Insert(q, wait, pitch, chan, lag), now) ==
            StableInsert(Schedule(q, now), Timed(now + wait, pitch, chan), lag)
  {
    if q == [] {
    } else if q[0].delay > wait {
      InsertAtFront(q, wait, pitch, chan, lag, now);
    } else {
      InsertIsStable(q[1..], wait - q[0].delay, pitch, chan, lag, now + q[0].delay);
      ScheduleCons(q[0], Insert(q[1..], wait - q[0].delay, pitch, chan, lag), now);
    }
  }

  lemma ScheduleCons(e: Entry, q: seq<Entry>, now: int)
    ensures Schedule([e] + q, now) == [Timed(now + e.delay, e.pitch, e.chan)] + Schedule(q, now + e.delay)
  {
    assert ([e] + q)[1..] == q;
  }

  lemma InsertAtFront(q: seq<Entry>, wait: int, pitch: int, chan: int, lag: nat, now: int)
    requires q != [] && q[0].delay > wait
    ensures Schedule(Insert(q, wait, pitch, chan, lag), now) ==
            StableInsert(Schedule(q, now), Timed(now + wait, pitch, chan), lag)
  {
    var gap := if q[0].delay - wait < lag then q[0].delay - wait else lag;
    var new_, moved := Entry(wait, pitch, chan), q[0].(delay := q[0].delay - wait - gap);
    assert Insert(q, wait, pitch, chan, lag) == [new_] + ([moved] + q[1..]);
    ScheduleCons(new_, [moved] + q[1..], now);
    ScheduleCons(moved, q[1..], now + wait);
    ScheduleShift(q, now, gap);
  }

  /** The items due by then stay in front, at their times; the later ones come behind, all
      earlier by the chord delay, or by the gap between the new item and the first of them if
      that is less. */
  lemma {:induction false} StableInsertPlace(s: seq<Timed>, new_: Timed, lag: nat, k: nat)
    requires k <= |s| && (forall j :: 0 <= j < k ==> s[j].at <= new_.at) && (k < |s| ==> s[k].at > new_.at)
    ensures StableInsert(s, new_, lag) ==
            s[..k] + [new_] + Earlier(s[k..], if k < |s| && s[k].at - new_.at < lag then s[k].at - new_.at else lag)
  {
    hide Earlier;
    if s == [] {
      NothingEarlier(lag);
    } else if k == 0 {
      assert s[0..] == s && s[..0] == [];
    } else {
      StableInsertPlace(s[1..], new_, lag, k - 1);
      assert s[1..][..k - 1] == s[1..k] && s[1..][k - 1..] == s[k..];
      assert [s[0]] + s[1..k] == s[..k];
    }
  }

  lemma NothingEarlier(gap: int)
    ensures Earlier([], gap) == []
  {
  }

  /** Without a chord delay nothing else changes. */
  lemma StableInsertNoDelay(s: seq<Timed>, new_: Timed, k: nat)
    requires k <= |s| && (forall j :: 0 <= j < k ==> s[j].at <= new_.at) && (k < |s| ==> s[k].at > new_.at)
    ensures StableInsert(s, new_, 0) == s[..k] + [new_] + s[k..]
  {
    StableInsertPlace(s, new_, 0, k);
    assert Earlier(s[k..], 0) == s[k..];
  }

  lemma {:induction false} InsertKeepsOrder(q: seq<Entry>, wait: int, pitch: int, chan: int, lag: int)
    requires InOrder(q)
    ensures InOrder(Insert(q, wait, pitch, chan, lag))
  {
    if q != [] && q[0].delay <= wait {
      var r := Insert(q[1..], wait - q[0].delay, pitch, chan, lag);
      InsertKeepsOrder(q[1..], wait - q[0].delay, pitch, chan, lag);
      assert r[0].delay >= 0;
    }
  }

  /** Adding an item that is due no earlier than now leaves every delay non-negative. */
  lemma {:induction false} InsertNonNegative(q: seq<Entry>, wait: nat, pitch: int, chan: int, lag: int)
    requires forall k :: 0 <= k < |q| ==> q[k].delay >= 0
    ensures forall k :: 0 <= k < |q| + 1 ==> Insert(q, wait, pitch, chan, lag)[k].delay >= 0
  {
    if q != [] && q[0].delay <= wait {
      InsertNonNegative(q[1..], wait - q[0].delay, pitch, chan, lag);
    }
  }

  /** `s` is the chain of cells of the memory `m` that starts at `head` and follows the
      next fields; -1 ends it. */
  ghost predicate Chain(m: seq<Cell>, head: int, s: seq<int>) {
    && head == (if s == [] then -1 else s[0])
    && (forall k :: 0 <= k < |s| ==> 0 <= s[k] < |m|)
    && (forall k {:trigger m[s[k]]} :: 0 <= k < |s| ==> m[s[k]].next == Following(s, k))
  }

  ghost function Following(s: seq<int>, k: nat): int {
    if k + 1 < |s| then s[k + 1] else -1
  }

  ghost predicate Distinct(s: seq<int>) {
    forall i, j :: 0 <= i < j < |s| ==> s[i] != s[j]
  }

  /** The conditions that `Qcheck` tests: the cells in use and the free ones are 0..49,
      each held exactly once. */
  ghost predicate Partition(used: seq<int>, free: seq<int>) {
    && |used| + |free| == QSIZE
    && Distinct(used) && Distinct(free)
    && (forall i, j :: 0 <= i < |used| && 0 <= j < |free| ==> used[i] != free[j])
    && (forall i :: 0 <= i < |used| ==> 0 <= used[i] < QSIZE)
    && (forall i :: 0 <= i < |free| ==> 0 <= free[i] < QSIZE)
  }

  ghost function Item(c: Cell): Entry {
    Entry(c.delay, c.pitch, c.chan)
  }

  ghost function Items(m: seq<Cell>, s: seq<int>): (q: seq<Entry>)
    requires forall k :: 0 <= k < |s| ==> 0 <= s[k] < |m|
    ensures |q| == |s|
    ensures forall k {:trigger q[k]} :: 0 <= k < |s| ==> q[k] == Item(m[s[k]])
  {
    seq(|s|, k requires 0 <= k < |s| && 0 <= s[k] < |m| => Item(m[s[k]]))
  }

  lemma TakeFree(used: seq<int>, free: seq<int>, k: nat)
    requires Partition(used, free) && free != [] && k <= |used|
    ensures Partition(used[..k] + [free[0]] + used[k..], free[1..])
  {
  }

  lemma HeadApart(used: seq<int>, free: seq<int>)
    requires Partition(used, free) && used != []
    ensures used[0] !in used[1..] && used[0] !in free
  {
  }

  lemma GiveBack(used: seq<int>, free: seq<int>)
    requires Partition(used, free) && used != []
    ensures Partition(used[1..], [used[0]] + free)
  {
  }

  lemma ChainTail(m: seq<Cell>, head: int, s: seq<int>)
    requires Chain(m, head, s) && s != []
    ensures Chain(m, m[head].next, s[1..])
  {
    assert m[s[0]].next == Following(s, 0);
    forall k {:trigger m[s[1..][k]]} | 0 <= k < |s[1..]|
      ensures m[s[1..][k]].next == Following(s[1..], k)
    {
      assert m[s[k + 1]].next == Following(s, k + 1);
    }
  }

  lemma ChainCons(m: seq<Cell>, head: int, s: seq<int>, i: int)
    requires Chain(m, head, s) && 0 <= i < |m| && m[i].next == head
    ensures Chain(m, i, [i] + s)
  {
    var s' := [i] + s;
    forall k {:trigger m[s'[k]]} | 0 <= k < |s'|
      ensures m[s'[k]].next == Following(s', k)
    {
      if k > 0 {
        assert m[s[k - 1]].next == Following(s, k - 1);
      }
    }
  }

  lemma ChainFrame(m: seq<Cell>, m': seq<Cell>, head: int, s: seq<int>)
    requires Chain(m, head, s) && |m'| == |m|
    requires forall c :: c in s ==> m'[c].next == m[c].next
    ensures Chain(m', head, s)
  {
    assert forall k :: 0 <= k < |s| ==> s[k] in s;
    forall k {:trigger m'[s[k]]} | 0 <= k < |s|
      ensures m'[s[k]].next == Following(s, k)
    {
      assert m[s[k]].next == Following(s, k);
    }
  }

  /** The two lists between them hold every one of the 50 cells. */
  lemma EveryCellHeld(used: seq<int>, free: seq<int>, c: int)
    requires Partition(used, free) && 0 <= c < QSIZE
    ensures (c in used) != (c in free) && QSIZE == 50
  {
    var s := used + free;
    DistinctSize(s);
    var held := set x | x in s;
    assert forall x :: x in s ==> x in used || x in free;
    if c !in held {
      StrictSubset(held, Below(QSIZE), c);
    }
  }

  lemma StrictSubset(a: set<int>, b: set<int>, c: int)
    requires a <= b && c in b && c !in a
    ensures |a| < |b|
  {
    assert a + (b - a) == b && c in b - a;
  }

  ghost function Below(n: nat): (s: set<int>)
    ensures |s| == n && forall c :: c in s <==> 0 <= c < n
  {
    if n == 0 then {} else Below(n - 1) + {n - 1}
  }

  lemma {:induction false} DistinctSize(s: seq<int>)
    requires Distinct(s)
    ensures |set x | x in s| == |s|
  {
    if s != [] {
      DistinctSize(s[1..]);
      assert (set x | x in s) == {s[0]} + set x | x in s[1..];
    }
  }

  lemma HeadAdvanced(m: seq<Cell>, m': seq<Cell>, s: seq<int>, t: int)
    requires (forall k :: 0 <= k < |s| ==> 0 <= s[k] < |m|) && Distinct(s) && s != []
    requires m' == m[s[0] := m[s[0]].(delay := m[s[0]].delay - t)]
    ensures Items(m', s) == Advance(Items(m, s), t)
  {
    forall k | 1 <= k < |s|
      ensures m'[s[k]] == m[s[k]]
    {
      assert s[k] != s[0];
    }
  }

  /** Cell `c` after the pointer updates of `addtoQ`: cell `i` goes in between `prev` and
      `cur`, and the item at `cur` now waits only for what is left of its delay. */
  function LinkedCell(cell: Cell, c: int, i: int, prev: int, cur: int, left: int, lag: int): Cell {
    if c == i then cell.(delay := left, next := cur)
    else if c == cur then
      var d := cell.delay - left - lag;
      cell.(delay := if d < 0 then 0 else d)
    else if c == prev then cell.(next := i)
    else cell
  }

  ghost predicate LinkedIn(m: seq<Cell>, m': seq<Cell>, i: int, prev: int, cur: int, left: int, lag: int) {
    && |m'| == |m|
    && forall c {:trigger m'[c]} :: 0 <= c < |m| ==> m'[c] == LinkedCell(m[c], c, i, prev, cur, left, lag)
  }

  /** The updates leave the free list alone. */
  lemma LinkInFree(m: seq<Cell>, m': seq<Cell>, head: int, used: seq<int>, free: seq<int>,
                   i: int, k: nat, left: int, lag: int)
    requires Partition(used, [i] + free) && k <= |used|
    requires Chain(m, head, free)
    requires LinkedIn(m, m', i, Previous(used, k), Current(used, k), left, lag)
    ensures Chain(m', head, free)
  {
    forall j | 0 <= j < |free|
      ensures m'[free[j]] == m[free[j]]
    {
      assert ([i] + free)[j + 1] == free[j] && ([i] + free)[0] == i;
    }
    ChainFrame(m, m', head, free);
  }

  lemma HeldApart(used: seq<int>, free: seq<int>, i: int, k: nat)
    requires Partition(used, [i] + free) && k <= |used|
    ensures i !in used && i != Previous(used, k) && i != Current(used, k) && 0 <= i < QSIZE
    ensures Previous(used, k) != Current(used, k) || Current(used, k) == -1
    ensures -1 <= Previous(used, k) < QSIZE && -1 <= Current(used, k) < QSIZE
  {
    assert ([i] + free)[0] == i;
  }

  ghost function Previous(s: seq<int>, k: nat): int
    requires k <= |s|
  {
    if k == 0 then -1 else s[k - 1]
  }

  ghost function Current(s: seq<int>, k: nat): int
    requires k <= |s|
  {
    if k < |s| then s[k] else -1
  }

  lemma LinkInChain(m: seq<Cell>, m': seq<Cell>, head: int, s: seq<int>, i: int, k: nat, left: int, lag: int)
    requires Chain(m, head, s) && Distinct(s) && k <= |s| && 0 <= i < |m| && i !in s
    requires LinkedIn(m, m', i, Previous(s, k), Current(s, k), left, lag)
    ensures Chain(m', if k == 0 then i else head, s[..k] + [i] + s[k..])
  {
    var s' := s[..k] + [i] + s[k..];
    forall j {:trigger m'[s'[j]]} | 0 <= j < |s'|
      ensures 0 <= s'[j] < |m| && m'[s'[j]].next == Following(s', j)
    {
      if j < k {
        assert s'[j] == s[j] && m[s[j]].next == Following(s, j);
      } else if j > k {
        assert s'[j] == s[j - 1] && m[s[j - 1]].next == Following(s, j - 1);
      }
    }
  }

  lemma LinkInItems(m: seq<Cell>, m': seq<Cell>, s: seq<int>, i: int, k: nat, left: int, lag: int)
    requires (forall j :: 0 <= j < |s| ==> 0 <= s[j] < |m|) && Distinct(s) && k <= |s| && 0 <= i < |m| && i !in s
    requires LinkedIn(m, m', i, Previous(s, k), Current(s, k), left, lag)
    requires k < |s| ==> m[s[k]].delay > left
    ensures forall c :: c in s[..k] + [i] + s[k..] ==> 0 <= c < |m'|
    ensures Items(m', s[..k] + [i] + s[k..]) ==
            Items(m, s)[..k] + Insert(Items(m, s)[k..], left, m[i].pitch, m[i].chan, lag)
  {
    var s' := s[..k] + [i] + s[k..];
    var q := Items(m, s);
    var r := Insert(q[k..], left, m[i].pitch, m[i].chan, lag);
    assert k < |s| ==> q[k..][0] == q[k] && q[k..][1..] == q[k + 1..];
    forall j | 0 <= j < |s'|
      ensures 0 <= s'[j] < |m| && Item(m'[s'[j]]) == (q[..k] + r)[j]
    {
      if j < k {
        assert s'[j] == s[j];
      } else if j > k {
        assert s'[j] == s[j - 1];
      }
    }
  }

  /** What the steps of `addtoQ` add up to. */
  lemma CellInserted(m: seq<Cell>, m': seq<Cell>, head: int, fhead: int, used: seq<int>, free: seq<int>,
                     i: int, wait: int, k: nat, left: int, lag: int)
    requires Chain(m, head, used) && Chain(m, fhead, free) && Partition(used, [i] + free)
    requires 0 <= i < |m| && (k, left) == Scan(Items(m, used), 0, wait) && k <= |used|
    requires LinkedIn(m, m', i, Previous(used, k), Current(used, k), left, lag)
    ensures var used' := used[..k] + [i] + used[k..];
            Chain(m', if k == 0 then i else head, used') && Chain(m', fhead, free) &&
            Partition(used', free) &&
            Items(m', used') == Insert(Items(m, used), wait, m[i].pitch, m[i].chan, lag)
  {
    var q := Items(m, used);
    assert q[0..] == q && ([i] + free)[1..] == free;
    InsertAtScan(q, 0, wait, m[i].pitch, m[i].chan, lag);
    HeldApart(used, free, i, k);
    LinkInChain(m, m', head, used, i, k, left, lag);
    LinkInItems(m, m', used, i, k, left, lag);
    LinkInFree(m, m', fhead, used, free, i, k, left, lag);
    TakeFree(used, [i] + free, k);
  }

  /** The class behind the globals Q, Qhead and freehead. */
  class Queue {
    const cells: array<Cell>
    var qhead: int
    var freehead: int
    ghost var used: seq<int>
    ghost var free: seq<int>

    ghost predicate Valid()
      reads this, cells
    {
      && cells.Length == QSIZE + 1
      && Chain(cells[..], qhead, used) && Chain(cells[..], freehead, free)
      && Partition(used, free)
    }

    /** The pending items, first to last. */
    ghost function Entries(): (q: seq<Entry>)
      reads this, cells
      requires Valid()
      ensures |q| == |used|
    {
      Items(cells[..], used)
    }

    /** `Qinit` */
    constructor ()
      ensures Valid() && fresh(cells) && Entries() == []
    {
      cells := new Cell[QSIZE + 1](_ => Cell(0, 0, 0, -1));
      qhead := -1;
      freehead := 0;
      used := [];
      free := seq(QSIZE, k => k);
      new;
      var i := 0;
      while i < QSIZE - 1
        invariant 0 <= i <= QSIZE - 1
        invariant forall k :: 0 <= k < i ==> cells[k].next == k + 1
        modifies cells
      {
        cells[i] := cells[i].(next := i + 1);
        i := i + 1;
      }
      cells[QSIZE - 1] := cells[QSIZE - 1].(next := -1);
    }

    /** The cell that Qhead names is the first pending item. */
    lemma HeadItem()
      requires Valid()
      ensures qhead == -1 <==> Entries() == []
      ensures qhead != -1 ==> 0 <= qhead < cells.Length && Entries()[0] == Item(cells[qhead])
    {
    }

    /** The scan in `addtoQ`: `prev` and `cur` are the cells on either side of the new
        item's place (-1 for the ends) and `left` is its wait after `prev`. */
    method FindPlace(wait: int) returns (prev: int, cur: int, left: int, ghost k: nat)
      requires Chain(cells[..], qhead, used)
      ensures (k, left) == Scan(Items(cells[..], used), 0, wait) && k <= |used|
      ensures prev == Previous(used, k)
      ensures cur == Current(used, k)
    {
      left := wait;
      prev := -1;
      cur := qhead;
      k := 0;
      ghost var q := Items(cells[..], used);
      while cur != -1 && cells[cur].delay <= left
        invariant 0 <= k <= |used|
        invariant prev == Previous(used, k) && cur == Current(used, k)
        invariant Scan(q, 0, wait) == Scan(q, k, left)
        decreases |used| - k
      {
        assert cells[..][used[k]].next == Following(used, k) && q[k] == Item(cells[cur]);
        left := left - cells[cur].delay;
        prev := cur;
        cur := cells[cur].next;
        k := k + 1;
      }
    }

    /** The pointer updates of `addtoQ` once the place is found. */
    method LinkCell(i: int, prev: int, cur: int, left: int, notedelay: int)
      requires 0 <= i < cells.Length && -1 <= prev < cells.Length && -1 <= cur < cells.Length
      requires i != prev && i != cur && (prev != cur || cur == -1)
      modifies this`qhead, cells
      ensures LinkedIn(old(cells[..]), cells[..], i, prev, cur, left, notedelay)
      ensures qhead == if prev == -1 then i else old(qhead)
    {
      if cur != -1 {
        var d := cells[cur].delay - left - notedelay;
        cells[cur] := cells[cur].(delay := if d < 0 then 0 else d);
      }
      cells[i] := cells[i].(next := cur, delay := left);
      if prev == -1 {
        qhead := i;
      } else {
        cells[prev] := cells[prev].(next := i);
      }
    }

    /** The state between taking cell `i` off the free list and linking it in. */
    ghost predicate Holding(i: int)
      reads this, cells
    {
      && cells.Length == QSIZE + 1
      && Chain(cells[..], qhead, used) && Chain(cells[..], freehead, free)
      && Partition(used, [i] + free)
    }

    /** The first step of `addtoQ`: take a free cell and fill it in. */
    method TakeCell(pitch: int, chan: int) returns (i: int)
      requires Valid() && freehead != -1
      modifies this, cells
      ensures Holding(i) && used == old(used) && qhead == old(qhead)
      ensures 0 <= i < QSIZE && cells[i].pitch == pitch && cells[i].chan == chan
      ensures Items(cells[..], used) == old(Entries())
    {
      ghost var m := cells[..];
      i := freehead;
      ChainTail(m, i, free);
      freehead := cells[i].next;
      cells[i] := cells[i].(pitch := pitch, chan := chan);
      assert free == [i] + free[1..];
      assert forall k :: 0 <= k < |used| ==> used[k] != free[0];
      ChainFrame(m, cells[..], qhead, used);
      ChainFrame(m, cells[..], freehead, free[1..]);
      free := free[1..];
    }

    /** `addtoQ` after it has worked out the wait in ticks. With no free cell it reports an
        error and leaves the queue as it was. */
    method AddToQ(wait: int, pitch: int, chan: int, notedelay: int) returns (ok: bool)
      requires Valid()
      modifies this, cells
      ensures Valid()
      ensures ok <==> |old(Entries())| < QSIZE
      ensures Entries() == if ok then Insert(old(Entries()), wait, pitch, chan, notedelay)
                           else old(Entries())
    {
      hide Insert, Scan, LinkedIn, Items;
      if freehead == -1 {
        return false;
      }
      var i := TakeCell(pitch, chan);
      ghost var m, u := cells[..], used;
      var prev, cur, left, k := FindPlace(wait);
      HeldApart(used, free, i, k);
      LinkCell(i, prev, cur, left, notedelay);
      CellInserted(m, cells[..], old(qhead), freehead, u, free, i, wait, k, left, notedelay);
      used := u[..k] + [i] + u[k..];
      ok := true;
    }

    /** `advanceQ`: time passes for the first item, and so for all behind it. */
    method AdvanceQ(t: int)
      requires Valid()
      modifies cells
      ensures Valid() && Entries() == Advance(old(Entries()), t)
    {
      if qhead != -1 {
        ghost var m := cells[..];
        cells[qhead] := cells[qhead].(delay := cells[qhead].delay - t);
        assert cells[..] == m[qhead := m[qhead].(delay := m[qhead].delay - t)];
        ChainFrame(m, cells[..], qhead, used);
        ChainFrame(m, cells[..], freehead, free);
        HeadAdvanced(m, cells[..], used, t);
      }
    }

    /** Unlinks the first cell and puts it on the free list. */
    method DropHead()
      requires Valid() && Entries() != []
      modifies this, cells
      ensures Valid() && Entries() == old(Entries())[1..]
    {
      ghost var m := cells[..];
      var i := qhead;
      ChainTail(m, i, used);
      qhead := cells[i].next;
      cells[i] := cells[i].(next := freehead);
      HeadApart(used, free);
      ChainFrame(m, cells[..], qhead, used[1..]);
      ChainFrame(m, cells[..], freehead, free);
      ChainCons(cells[..], freehead, free, i);
      GiveBack(used, free);
      freehead := i;
      used, free := used[1..], [i] + free;
    }

    /** `removefromQ`, always called on the head: fatal (the program exits) unless there is
        an item there and it is due now. */
    method RemoveFromQ(i: int) returns (fatal: bool)
      requires Valid() && i == qhead
      modifies this, cells
      ensures Valid()
      ensures fatal <==> old(Entries()) == [] || old(Entries())[0].delay != 0
      ensures Entries() == if fatal then old(Entries()) else old(Entries())[1..]
    {
      if i == -1 || cells[qhead].delay != 0 {
        return true;
      }
      DropHead();
      return false;
    }
  }
}
