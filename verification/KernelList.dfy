/** list.c and list.h: the intrusive circular doubly linked list, with its end marker as a sentinel node
    and pxIndex as a roving pointer. The nodes are objects on the heap, and the pointer writes are those
    of the source. A ghost sequence says which nodes the ring goes through, starting with the end marker,
    and a ghost position where pxIndex is in it; the list is valid when every next and prev pointer,
    every container field and the count agree with that sequence. Taken as a value, items and position
    are a Rota of ListModel, and the three operations are proved to do to it what the functions there do. */
module KernelList {
  import opened Machine
  import opened ListModel

  /** ListItem_t. A node that was never inserted has no neighbours; pvContainer is null
      exactly while it is in no list (vListInitialiseItem). */
  class Item {
    var value: Tick
    var next: Item?
    var prev: Item?
    var container: List?

    constructor (v: Tick)
      ensures value == v && container == null
    {
      value, next, prev, container := v, null, null, null;
    }
  }

  /** List_t. */
  class List {
    const end: Item
    var index: Item
    var count: nat
    ghost var ring: seq<Item>
    ghost var pos: nat

    ghost predicate Valid()
      reads this, ring
    {
      && ring != [] && ring[0] == end && end.value == MAX_DELAY && end.container == null
      && NoDup(ring) && count == |ring| - 1
      && pos < |ring| && index == ring[pos]
      && Linked(ring)
      && Owned(ring, this)
    }

    /** The items and pxIndex, as a value. */
    ghost function View(): Rota<Item>
      reads this
      requires ring != []
    {
      Rota(ring[1..], pos)
    }

    /** vListInitialise. */
    constructor ()
      ensures Valid() && ring == [end] && pos == 0 && fresh(end)
    {
      var e := new Item(MAX_DELAY);
      end, index, count := e, e, 0;
      ring, pos := [e], 0;
      new;
      end.next := end;
      end.prev := end;
    }

    /** Puts x between two neighbours: shared by both insertions. */
    method LinkBetween(before: Item, x: Item, after: Item, ghost p: nat)
      requires Valid() && x !in ring && x.container == null
      requires 1 <= p <= |ring| && before == ring[p - 1] && after == ring[if p == |ring| then 0 else p]
      modifies this, x`next, x`prev, x`container, ring`next, ring`prev
      ensures Valid() && IsSpliced(old(ring), ring, p, x)
      ensures pos == if old(pos) < p then old(pos) else old(pos) + 1
    {
      hide NoDup;
      ghost var r, i := ring, pos;
      ring := Splice(r, p, x);
      pos := if i < p then i else i + 1;
      count := count + 1;
      x.container := this;
      SetLinks(before, x, after, r, p);
      ValidAfterInsert(this, r, i, p, x);
    }

    /** vListInsertEnd. */
    method InsertEnd(x: Item)
      requires Valid() && x !in ring && x.container == null
      modifies this, x`next, x`prev, x`container, ring`next, ring`prev
      ensures Valid()
      ensures IsSpliced(old(ring), ring, if old(pos) == 0 then |old(ring)| else old(pos), x)
      ensures pos == if old(pos) == 0 then 0 else old(pos) + 1
    {
      PrevInRing(ring, pos);
      LinkBetween(index.prev, x, index, if pos == 0 then |ring| else pos);
    }

    /** The search of vListInsert: the node behind which a key v goes, at position p - 1 of the
        ring. It stops for every key: one below the end marker's value stops there at the latest,
        and portMAX_DELAY goes straight to the back. */
    method Search(v: Tick) returns (cursor: Item, ghost p: nat)
      requires Valid()
      ensures 1 <= p <= |ring| && cursor == ring[p - 1]
      ensures forall i | 1 <= i < p :: ring[i].value <= v
      ensures p < |ring| ==> ring[p].value > v
    {
      if v == MAX_DELAY {
        PrevInRing(ring, 0);
        cursor, p := end.prev, |ring|;
      } else {
        cursor, p := end, 1;
        while cursor.next.value <= v
          invariant 1 <= p <= |ring| && cursor == ring[p - 1]
          invariant forall i | 1 <= i < p :: ring[i].value <= v
          decreases |ring| - p
        {
          cursor, p := cursor.next, p + 1;
        }
      }
    }

    /** vListInsert. */
    method Insert(x: Item) returns (ghost p: nat)
      requires Valid() && x !in ring && x.container == null
      modifies this, x`next, x`prev, x`container, ring`next, ring`prev
      ensures Valid()
      ensures IsSpliced(old(ring), ring, p, x)
      ensures forall i | 1 <= i < p :: old(ring)[i].value <= x.value
      ensures p < |old(ring)| ==> old(ring)[p].value > x.value
      ensures pos == if old(pos) < p then old(pos) else old(pos) + 1
    {
      var cursor;
      cursor, p := Search(x.value);
      LinkBetween(cursor, x, cursor.next, p);
    }

    /** The body of uxListRemove, on the list found through pvContainer. */
    method Detach(x: Item, ghost k: nat) returns (n: nat)
      requires Valid() && 1 <= k < |ring| && ring[k] == x
      modifies this, x`container, ring`next, ring`prev
      ensures Valid() && x.container == null && n == count
      ensures IsSpliced(ring, old(ring), k, x)
      ensures pos == if old(pos) < k then old(pos) else old(pos) - 1
    {
      hide NoDup, Bypassed, Linked;
      ghost var r, i := ring, pos;
      PrevInRing(r, k);
      if index == x {
        index := x.prev;
      }
      count := count - 1;
      ring := Unsplice(r, k);
      pos := if i < k then i else i - 1;
      Unlink(x, r, k);
      ValidAfterRemove(this, r, i, k, x);
      n := count;
    }

    /** listGET_OWNER_OF_NEXT_ENTRY: the next item of the walk, skipping the end marker. */
    method NextEntry() returns (x: Item)
      requires Valid() && |ring| > 1
      modifies this`index, this`pos
      ensures Valid()
      ensures pos == (if old(pos) + 1 < |ring| then old(pos) + 1 else 1) && x == ring[pos] && index == x
    {
      index := index.next;
      pos := if pos + 1 < |ring| then pos + 1 else 0;
      if index == end {
        index := index.next;
        pos := pos + 1;
      }
      x := index;
    }
  }

  /** uxListRemove. The item knows its list through pvContainer. */
  method Remove(x: Item, ghost k: nat) returns (n: nat)
    requires x.container != null && x.container.Valid()
    requires 1 <= k < |x.container.ring| && x.container.ring[k] == x
    modifies x.container, x`container, x.container.ring`next, x.container.ring`prev
    ensures x.container == null
    ensures var l := old(x.container);
      l.Valid() && n == l.count && IsSpliced(l.ring, old(x.container.ring), k, x)
      && l.pos == if old(x.container.pos) < k then old(x.container.pos) else old(x.container.pos) - 1
  {
    n := x.container.Detach(x, k);
  }

  /** The pointer writes of uxListRemove. The removed node keeps its own neighbours. */
  method Unlink(x: Item, ghost r: seq<Item>, ghost k: nat)
    requires Linked(r) && NoDup(r) && 1 <= k < |r| && r[k] == x
    modifies r`next, r`prev, x`container
    ensures Bypassed(r, k) && x.prev == r[k - 1] && x.container == null
    ensures forall j | 0 <= j < |r| && j != k :: r[j].container == old(r[j].container)
  {
    PrevInRing(r, k);
    x.next.prev := x.prev;
    x.prev.next := x.next;
    x.container := null;
  }

  /** The four pointer writes of an insertion. */
  method SetLinks(before: Item, x: Item, after: Item, ghost r: seq<Item>, ghost p: nat)
    requires Linked(r) && NoDup(r) && x !in r && 1 <= p <= |r|
    requires before == r[p - 1] && after == r[if p == |r| then 0 else p]
    modifies x`next, x`prev, r`next, r`prev
    ensures LinkedBut(r, p) && before.next == x && after.prev == x && x.prev == before && x.next == after
  {
    x.next := after;
    x.prev := before;
    before.next := x;
    after.prev := x;
  }

  ghost predicate Linked(ring: seq<Item>)
    reads ring
  {
    ring != []
    && ring[|ring| - 1].next == ring[0] && ring[0].prev == ring[|ring| - 1]
    && (forall k {:trigger ring[k].next} :: 0 <= k < |ring| - 1 ==> ring[k].next == ring[k + 1])
    && (forall k {:trigger ring[k].prev} :: 1 <= k < |ring| ==> ring[k].prev == ring[k - 1])
  }

  ghost predicate Owned(ring: seq<Item>, l: List)
    reads ring
  {
    forall k :: 1 <= k < |ring| ==> ring[k].container == l
  }

  /** r is ring with x put in at position p. */
  ghost predicate IsSpliced(ring: seq<Item>, r: seq<Item>, p: nat, x: Item) {
    1 <= p <= |ring| && |r| == |ring| + 1 && r[p] == x
    && (forall i | 0 <= i < p :: r[i] == ring[i])
    && (forall i | p < i < |r| :: r[i] == ring[i - 1])
  }

  lemma Splice(ring: seq<Item>, p: nat, x: Item) returns (r: seq<Item>)
    requires 1 <= p <= |ring| && NoDup(ring) && x !in ring
    ensures IsSpliced(ring, r, p, x) && NoDup(r)
  {
    r := ring[..p] + [x] + ring[p..];
    assert forall i | 0 <= i < |r| && i != p :: r[i] == ring[if i < p then i else i - 1];
  }

  /** Linked, but for the two links between position p - 1 and its successor. */
  ghost predicate LinkedBut(ring: seq<Item>, p: nat)
    reads ring
  {
    1 <= p <= |ring|
    && (p < |ring| ==> ring[|ring| - 1].next == ring[0] && ring[0].prev == ring[|ring| - 1])
    && (forall k {:trigger ring[k].next} :: 0 <= k < |ring| - 1 && k != p - 1 ==> ring[k].next == ring[k + 1])
    && (forall k {:trigger ring[k].prev} :: 1 <= k < |ring| && k != p ==> ring[k].prev == ring[k - 1])
  }

  lemma LinkedAfterInsert(ring: seq<Item>, r: seq<Item>, p: nat, x: Item)
    requires IsSpliced(ring, r, p, x) && LinkedBut(ring, p)
    requires x.prev == ring[p - 1] && ring[p - 1].next == x
    requires x.next == (if p == |ring| then ring[0] else ring[p]) && x.next != null && x.next.prev == x
    ensures Linked(r)
  {
  }

  lemma OwnedAfterInsert(ring: seq<Item>, r: seq<Item>, p: nat, x: Item, l: List)
    requires IsSpliced(ring, r, p, x) && Owned(ring, l) && x.container == l
    ensures Owned(r, l)
  {
    forall k | 1 <= k < |r| ensures r[k].container == l {
      assert k != p ==> r[k] == ring[if k < p then k else k - 1];
    }
  }

  lemma Unsplice(r: seq<Item>, k: nat) returns (ring: seq<Item>)
    requires 1 <= k < |r| && NoDup(r)
    ensures IsSpliced(ring, r, k, r[k]) && NoDup(ring) && ring[0] == r[0]
  {
    ring := r[..k] + r[k + 1..];
    assert forall i | 0 <= i < |ring| :: ring[i] == r[if i < k then i else i + 1];
  }

  /** The links once position k has been bypassed. */
  ghost predicate Bypassed(r: seq<Item>, k: nat)
    reads r
  {
    1 <= k < |r|
    && (forall i {:trigger r[i].next} :: 0 <= i < |r| - 1 && i != k - 1 && i != k ==> r[i].next == r[i + 1])
    && (forall i {:trigger r[i].prev} :: 1 <= i < |r| && i != k && i != k + 1 ==> r[i].prev == r[i - 1])
    && (k < |r| - 1 ==> r[k - 1].next == r[k + 1] && r[k + 1].prev == r[k - 1])
    && (k < |r| - 1 ==> r[|r| - 1].next == r[0] && r[0].prev == r[|r| - 1])
    && (k == |r| - 1 ==> r[k - 1].next == r[0] && r[0].prev == r[k - 1])
  }

  lemma LinkedAfterRemove(ring: seq<Item>, r: seq<Item>, k: nat, x: Item)
    requires IsSpliced(ring, r, k, x) && Bypassed(r, k)
    ensures Linked(ring)
  {
    assert forall i | 0 <= i < |ring| :: ring[i] == r[if i < k then i else i + 1];
  }

  lemma ValidAfterRemove(l: List, r: seq<Item>, i: nat, k: nat, x: Item)
    requires IsSpliced(l.ring, r, k, x) && NoDup(l.ring) && i < |r| && r[0] == l.end
    requires l.end.value == MAX_DELAY && l.end.container == null && l.count == |r| - 2
    requires l.pos == (if i < k then i else i - 1) && l.index == r[if i == k then k - 1 else i]
    requires Bypassed(r, k) && forall j | 1 <= j < |r| && j != k :: r[j].container == l
    ensures l.Valid()
  {
    LinkedAfterRemove(l.ring, r, k, x);
    OwnedAfterRemove(l.ring, r, k, x, l);
    assert forall j | 0 <= j < |l.ring| :: l.ring[j] == r[if j < k then j else j + 1];
  }

  lemma OwnedAfterRemove(ring: seq<Item>, r: seq<Item>, k: nat, x: Item, l: List)
    requires IsSpliced(ring, r, k, x) && forall i | 1 <= i < |r| && i != k :: r[i].container == l
    ensures Owned(ring, l)
  {
    forall i | 1 <= i < |ring| ensures ring[i].container == l {
      assert ring[i] == r[if i < k then i else i + 1];
    }
  }

  lemma ValidAfterInsert(l: List, r: seq<Item>, i: nat, p: nat, x: Item)
    requires IsSpliced(r, l.ring, p, x) && NoDup(l.ring) && i < |r| && r[0] == l.end
    requires l.end.value == MAX_DELAY && l.end.container == null && l.count == |r| && l.index == r[i]
    requires l.pos == if i < p then i else i + 1
    requires LinkedBut(r, p) && Owned(r, l) && x.container == l
    requires x.prev == r[p - 1] && r[p - 1].next == x
    requires x.next == (if p == |r| then r[0] else r[p]) && x.next != null && x.next.prev == x
    ensures l.Valid()
  {
    LinkedAfterInsert(r, l.ring, p, x);
    OwnedAfterInsert(r, l.ring, p, x, l);
  }

  /** What the ring operations mean for the list as a value. */
  lemma InsertEndView(ring: seq<Item>, r: seq<Item>, pos: nat, x: Item)
    requires pos < |ring| && IsSpliced(ring, r, if pos == 0 then |ring| else pos, x)
    ensures Rota(r[1..], if pos == 0 then 0 else pos + 1) == ListModel.InsertEnd(Rota(ring[1..], pos), x)
  {
    SpliceItems(ring, r, if pos == 0 then |ring| else pos, x);
    assert pos == 0 ==> ring[1..][..|ring| - 1] == ring[1..] && ring[1..][|ring| - 1..] == [];
  }

  lemma InsertView(ring: seq<Item>, r: seq<Item>, pos: nat, p: nat, x: Item)
    requires pos < |ring| && IsSpliced(ring, r, p, x)
    ensures Rota(r[1..], if pos < p then pos else pos + 1) == ListModel.InsertAt(Rota(ring[1..], pos), p - 1, x)
  {
    SpliceItems(ring, r, p, x);
  }

  lemma RemoveView(ring: seq<Item>, r: seq<Item>, pos: nat, k: nat, x: Item)
    requires pos < |r| && IsSpliced(ring, r, k, x)
    ensures Rota(ring[1..], if pos < k then pos else pos - 1) == ListModel.RemoveAt(Rota(r[1..], pos), k - 1)
  {
    var a, b := ring[1..], r[1..][..k - 1] + r[1..][k..];
    forall i | 0 <= i < |a| ensures a[i] == b[i] {
      assert a[i] == ring[i + 1] == r[if i + 1 < k then i + 1 else i + 2];
    }
    assert a == b;
  }

  lemma SpliceItems(ring: seq<Item>, r: seq<Item>, p: nat, x: Item)
    requires IsSpliced(ring, r, p, x)
    ensures r[1..] == ring[1..][..p - 1] + [x] + ring[1..][p - 1..]
  {
    var a, b := r[1..], ring[1..][..p - 1] + [x] + ring[1..][p - 1..];
    forall i | 0 <= i < |a| ensures a[i] == b[i] {
      assert i + 1 != p ==> r[i + 1] == ring[if i + 1 < p then i + 1 else i];
    }
  }

  ghost predicate SortedByValue(ring: seq<Item>)
    reads ring
  {
    forall i, j :: 1 <= i < j < |ring| ==> ring[i].value <= ring[j].value
  }

  /** An insertion where the search stopped keeps a sorted list sorted and is stable: the new item
      stands behind every item with an equal or lower key and in front of every higher one. */
  lemma InsertKeepsSorted(ring: seq<Item>, r: seq<Item>, p: nat, x: Item)
    requires IsSpliced(ring, r, p, x) && SortedByValue(ring)
    requires forall i | 1 <= i < p :: ring[i].value <= x.value
    requires p < |ring| ==> ring[p].value > x.value
    ensures SortedByValue(r)
    ensures forall i | 1 <= i < |r| && i != p :: r[i].value <= x.value <==> i < p
  {
    forall i | 1 <= i < |r| && i != p
      ensures r[i] == ring[if i < p then i else i - 1] && (r[i].value <= x.value <==> i < p)
    {
    }
  }

  lemma PrevInRing(ring: seq<Item>, k: nat)
    requires Linked(ring) && k < |ring|
    ensures ring[k].prev == ring[if k == 0 then |ring| - 1 else k - 1]
  {
  }
}
