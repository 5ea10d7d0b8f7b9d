/** Notes of a MIDI track, and the doubly linked lists that midi2abc.c keeps of them: the
    notes still sounding, and the notes of the chord being printed. */
module NoteLists {

  /** struct anote: times in ticks (`time`, `dtnext`, `tplay`), then in quantized units. */
  class Note {
    const pitch: int
    const chan: int
    const vel: int
    const time: int
    var dtnext: int
    var tplay: int
    var xnum: int
    var playnum: int
    var posnum: int
    var splitnum: int

    constructor (pitch: int, chan: int, vel: int, now: int)
      ensures this.pitch == pitch && this.chan == chan && this.vel == vel && time == now && tplay == now
    {
      this.pitch, this.chan, this.vel, time, tplay := pitch, chan, vel, now, now;
      dtnext, xnum, playnum, posnum, splitnum := 0, 0, 0, 0, 0;
    }
  }

  /** struct dlistx */
  class Node {
    const note: Note
    var next: Node?
    var last: Node?

    constructor (note: Note, next: Node?, last: Node?)
      ensures this.note == note && this.next == next && this.last == last
    {
      this.note, this.next, this.last := note, next, last;
    }
  }

  ghost function Link(s: seq<Node>, i: int): Node? {
    if 0 <= i < |s| then s[i] else null
  }

  ghost predicate NoRepeats(s: seq<Node>) {
    forall i, j :: 0 <= i < j < |s| ==> s[i] != s[j]
  }

  /** Each node points to its neighbours. */
  ghost predicate Chained(s: seq<Node>)
    reads s
  {
    && (forall i {:trigger s[i].next} :: 0 <= i < |s| ==> s[i].next == Link(s, i + 1))
    && (forall i {:trigger s[i].last} :: 0 <= i < |s| ==> s[i].last == Link(s, i - 1))
  }

  lemma OnlyAt(s: seq<Node>, k: int)
    requires NoRepeats(s)
    ensures 0 <= k < |s| ==> forall j :: 0 <= j < |s| && j != k ==> s[j] != s[k]
  {
  }

  lemma NoRepeatsWithout(s: seq<Node>, k: nat)
    requires NoRepeats(s) && k < |s|
    ensures NoRepeats(s[..k] + s[k + 1..])
  {
    var t := s[..k] + s[k + 1..];
    assert forall j :: 0 <= j < |t| ==> t[j] == s[if j < k then j else j + 1];
  }

  lemma NoRepeatsWith(s: seq<Node>, k: nat, n: Node)
    requires NoRepeats(s) && k <= |s| && n !in s
    ensures NoRepeats(s[..k] + [n] + s[k..])
  {
  }

  /** The neighbours of node k point past it. */
  lemma ChainedWithout(s: seq<Node>, k: nat)
    requires k < |s|
    requires forall i {:trigger s[i].next} :: 0 <= i < |s| && i != k ==>
               s[i].next == if i == k - 1 then Link(s, k + 1) else Link(s, i + 1)
    requires forall i {:trigger s[i].last} :: 0 <= i < |s| && i != k ==>
               s[i].last == if i == k + 1 then Link(s, k - 1) else Link(s, i - 1)
    ensures Chained(s[..k] + s[k + 1..])
  {
    var t := s[..k] + s[k + 1..];
    forall j | 0 <= j < |t|
      ensures t[j].next == Link(t, j + 1) && t[j].last == Link(t, j - 1)
    {
      assert t[j] == s[if j < k then j else j + 1];
    }
  }

  /** A new node points to both its neighbours, and they to it. */
  lemma ChainedWith(s: seq<Node>, k: nat, n: Node)
    requires k <= |s| && n.last == Link(s, k - 1) && n.next == Link(s, k)
    requires forall i {:trigger s[i].next} :: 0 <= i < |s| ==> s[i].next == if i == k - 1 then n else Link(s, i + 1)
    requires forall i {:trigger s[i].last} :: 0 <= i < |s| ==> s[i].last == if i == k then n else Link(s, i - 1)
    ensures Chained(s[..k] + [n] + s[k..])
  {
    var t := s[..k] + [n] + s[k..];
    forall j | 0 <= j < |t|
      ensures t[j].next == Link(t, j + 1) && t[j].last == Link(t, j - 1)
    {
      assert t[j] == if j < k then s[j] else if j == k then n else s[j - 1];
    }
  }

  /** The items of a list, first to last. */
  ghost function Notes(s: seq<Node>): (r: seq<Note>)
    ensures |r| == |s| && forall k {:trigger r[k]} :: 0 <= k < |s| ==> r[k] == s[k].note
  {
    seq(|s|, k requires 0 <= k < |s| => s[k].note)
  }

  /** A head pointer and a tail pointer with the nodes between them. */
  class NoteList {
    var head: Node?
    var tail: Node?
    ghost var nodes: seq<Node>

    /** The conditions that `checkchordlist` tests. */
    ghost predicate Valid()
      reads this, nodes
    {
      && head == Link(nodes, 0) && tail == Link(nodes, |nodes| - 1)
      && Chained(nodes) && NoRepeats(nodes)
    }

    ghost function Contents(): seq<Note>
      reads this
    {
      Notes(nodes)
    }

    constructor ()
      ensures Valid() && nodes == []
    {
      head, tail, nodes := null, null, [];
    }

    /** `noteplaying` */
    method Append(p: Note)
      requires Valid()
      modifies this, nodes
      ensures Valid() && Contents() == old(Contents()) + [p]
      ensures fresh(set x | x in nodes && x !in old(nodes))
    {
      hide NoRepeats;
      OnlyAt(nodes, |nodes| - 1);
      var newx := new Node(p, null, tail);
      if head == null {
        head := newx;
      }
      if tail == null {
        tail := newx;
      } else {
        tail.next := newx;
        tail := newx;
      }
      ChainedWith(nodes, |nodes|, newx);
      NoRepeatsWith(nodes, |nodes|, newx);
      assert nodes + [newx] == nodes[..|nodes|] + [newx] + nodes[|nodes|..];
      nodes := nodes + [newx];
    }

    /** Taking node `i` out of the list, as in `notestop` and `removefromchord`. */
    method Unlink(i: Node, ghost k: nat)
      requires Valid() && k < |nodes| && nodes[k] == i
      modifies this, nodes
      ensures Valid() && nodes == old(nodes)[..k] + old(nodes)[k + 1..]
      ensures i.next == old(i.next)
    {
      hide NoRepeats;
      OnlyAt(nodes, k - 1);
      OnlyAt(nodes, k + 1);
      assert i.next == Link(nodes, k + 1) && i.last == Link(nodes, k - 1);
      if i.last == null {
        head := i.next;
      } else {
        i.last.next := i.next;
      }
      if i.next == null {
        tail := i.last;
      } else {
        i.next.last := i.last;
      }
      ChainedWithout(nodes, k);
      NoRepeatsWithout(nodes, k);
      nodes := nodes[..k] + nodes[k + 1..];
    }

    /** A new node in front of the first one of a list that is not empty. */
    method Prepend(p: Note)
      requires Valid() && head != null
      modifies this, nodes
      ensures Valid() && Contents() == [p] + old(Contents())
      ensures fresh(set x | x in nodes && x !in old(nodes))
    {
      hide NoRepeats;
      OnlyAt(nodes, 0);
      var newx := new Node(p, head, null);
      head.last := newx;
      head := newx;
      ChainedWith(nodes, 0, newx);
      NoRepeatsWith(nodes, 0, newx);
      assert [newx] + nodes == nodes[..0] + [newx] + nodes[0..];
      nodes := [newx] + nodes;
    }

    /** The four assignments of a new node in between two others. */
    method LinkIn(newx: Node, place: Node, ghost k: nat)
      requires Valid() && 0 < k < |nodes| && place == nodes[k]
      requires newx !in nodes && newx.next == place && newx.last == place.last
      modifies this`nodes, nodes, newx
      ensures Valid() && nodes == old(nodes)[..k] + [newx] + old(nodes)[k..]
    {
      hide NoRepeats;
      OnlyAt(nodes, k - 1);
      OnlyAt(nodes, k);
      assert place.last == Link(nodes, k - 1);
      place.last := newx;
      newx.last.next := newx;
      ChainedWith(nodes, k, newx);
      NoRepeatsWith(nodes, k, newx);
      nodes := nodes[..k] + [newx] + nodes[k..];
    }

    /** A new node in between two others. */
    method InsertBetween(p: Note, place: Node, ghost k: nat)
      requires Valid() && 0 < k < |nodes| && place == nodes[k]
      modifies this, nodes
      ensures Valid() && Contents() == old(Contents())[..k] + [p] + old(Contents())[k..]
      ensures fresh(set x | x in nodes && x !in old(nodes))
    {
      hide Chained, NoRepeats;
      var newx := new Node(p, place, place.last);
      LinkIn(newx, place, k);
    }

    /** The insertions of `addtochord`: a new node in front of node k, or at the end. */
    method InsertBefore(p: Note, place: Node?, ghost k: nat)
      requires Valid() && k <= |nodes| && place == Link(nodes, k)
      modifies this, nodes
      ensures Valid() && Contents() == old(Contents())[..k] + [p] + old(Contents())[k..]
      ensures fresh(set x | x in nodes && x !in old(nodes))
    {
      if head == null || place == null {
        Append(p);
      } else if place == head {
        Prepend(p);
      } else {
        InsertBetween(p, place, k);
      }
    }
  }
}
