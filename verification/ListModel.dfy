/** The value of a kernel list (list.c, list.h): the items in order, and where pxIndex points.
    The ring of the linked structure is the end marker followed by the items; `index` is a
    position in that ring, so 0 is the end marker and k is items[k - 1]. */
module ListModel {

  datatype Rota<T> = Rota(items: seq<T>, index: nat) {
    ghost predicate Valid() {
      index <= |items| && NoDup(items)
    }
  }

  predicate NoDup<T(==)>(s: seq<T>) {
    forall i, j :: 0 <= i < j < |s| ==> s[i] != s[j]
  }

  function IndexOf<T(==)>(s: seq<T>, x: T): (k: nat)
    requires x in s
    ensures k < |s| && s[k] == x && forall i | 0 <= i < k :: s[i] != x
  {
    if s[0] == x then 0 else 1 + IndexOf(s[1..], x)
  }

  /** vListInsertEnd: in front of pxIndex, the last place a walk from pxIndex reaches. */
  function InsertEnd<T>(r: Rota<T>, x: T): Rota<T> {
    if r.index == 0 || r.index > |r.items| then Rota(r.items + [x], 0)
    else Rota(r.items[..r.index - 1] + [x] + r.items[r.index - 1..], r.index + 1)
  }

  /** The linking step of vListInsert, once the search has found position k. */
  function InsertAt<T>(r: Rota<T>, k: nat, x: T): Rota<T>
    requires k <= |r.items|
  {
    Rota(r.items[..k] + [x] + r.items[k..], if r.index > k then r.index + 1 else r.index)
  }

  /** uxListRemove: pxIndex steps back when it pointed at the removed item. */
  function RemoveAt<T>(r: Rota<T>, k: nat): Rota<T>
    requires k < |r.items|
  {
    Rota(r.items[..k] + r.items[k + 1..], if r.index > k then r.index - 1 else r.index)
  }

  lemma InsertEndItems<T>(r: Rota<T>, x: T)
    requires r.index <= |r.items|
    ensures var k := if r.index == 0 then |r.items| else r.index - 1;
      var t := InsertEnd(r, x).items;
      |t| == |r.items| + 1 && t[k] == x
      && (forall i | 0 <= i < k :: t[i] == r.items[i]) && (forall i | k <= i < |r.items| :: t[i + 1] == r.items[i])
  {
  }

  lemma RemoveAtItems<T>(r: Rota<T>, k: nat)
    requires k < |r.items|
    ensures var t := RemoveAt(r, k).items;
      |t| == |r.items| - 1
      && (forall i | 0 <= i < k :: t[i] == r.items[i]) && (forall i | k <= i < |t| :: t[i] == r.items[i + 1])
  {
  }

  function Remove<T(==)>(r: Rota<T>, x: T): Rota<T> {
    if x in r.items then RemoveAt(r, IndexOf(r.items, x)) else r
  }

  /** listGET_OWNER_OF_NEXT_ENTRY, as the position pxIndex moves to. */
  function NextIndex<T>(r: Rota<T>): (p: nat)
    requires r.items != []
    ensures 1 <= p <= |r.items| || p == r.index + 1
  {
    if r.index < |r.items| then r.index + 1 else 1
  }

  /** Where the search of vListInsert stops: behind every leading key that is not above v. */
  function SearchPos(keys: seq<int>, v: int): (k: nat)
    ensures k <= |keys|
    ensures forall i :: 0 <= i < k ==> keys[i] <= v
    ensures k < |keys| ==> keys[k] > v
  {
    if keys == [] || keys[0] > v then 0 else 1 + SearchPos(keys[1..], v)
  }

  predicate Sorted(keys: seq<int>) {
    forall i, j :: 0 <= i < j < |keys| ==> keys[i] <= keys[j]
  }

  lemma InsertAtItems<T>(r: Rota<T>, k: nat, x: T)
    requires k <= |r.items|
    ensures var t := InsertAt(r, k, x).items;
      |t| == |r.items| + 1 && t[k] == x
      && (forall i | 0 <= i < k :: t[i] == r.items[i]) && (forall i | k <= i < |r.items| :: t[i + 1] == r.items[i])
  {
  }

  /** t is s with x put in at position k. */
  ghost predicate Grown<T(!new)>(s: seq<T>, t: seq<T>, k: nat, x: T) {
    k <= |s| && |t| == |s| + 1 && t[k] == x
    && (forall i | 0 <= i < k :: t[i] == s[i]) && (forall i | k < i < |t| :: t[i] == s[i - 1])
  }

  lemma GrownMembers<T(!new)>(s: seq<T>, t: seq<T>, k: nat, x: T)
    requires Grown(s, t, k, x)
    ensures forall y :: y in t <==> y == x || y in s
    ensures NoDup(t) <==> NoDup(s) && x !in s
  {
    assert forall i | 0 <= i < |s| :: s[i] == t[if i < k then i else i + 1];
    if NoDup(s) && x !in s {
      forall i, j | 0 <= i < j < |t| ensures t[i] != t[j] {
        assert i != k ==> t[i] == s[if i < k then i else i - 1];
        assert j != k ==> t[j] == s[if j < k then j else j - 1];
      }
    }
  }

  /** s without x. */
  function Without<T(==)>(s: seq<T>, x: T): seq<T> {
    if x in s then var k := IndexOf(s, x); s[..k] + s[k + 1..] else s
  }

  lemma WithoutItems<T(!new)>(s: seq<T>, x: T)
    requires NoDup(s)
    ensures var r := Without(s, x);
      NoDup(r) && (forall y :: y in r <==> y in s && y != x) && (x in s ==> Grown(r, s, IndexOf(s, x), x))
  {
    if x in s {
      GrownMembers(Without(s, x), s, IndexOf(s, x), x);
    }
  }

  lemma InsertEndValid<T(!new)>(r: Rota<T>, x: T)
    requires r.Valid() && x !in r.items
    ensures var t := InsertEnd(r, x);
      t.Valid() && |t.items| == |r.items| + 1 && forall y :: y in t.items <==> y == x || y in r.items
  {
    InsertEndItems(r, x);
    GrownMembers(r.items, InsertEnd(r, x).items, if r.index == 0 then |r.items| else r.index - 1, x);
  }

  lemma InsertAtValid<T(!new)>(r: Rota<T>, k: nat, x: T)
    requires r.Valid() && k <= |r.items| && x !in r.items
    ensures var t := InsertAt(r, k, x);
      t.Valid() && |t.items| == |r.items| + 1 && forall y :: y in t.items <==> y == x || y in r.items
  {
    InsertAtItems(r, k, x);
    GrownMembers(r.items, InsertAt(r, k, x).items, k, x);
  }

  lemma RemoveValid<T(!new)>(r: Rota<T>, x: T)
    requires r.Valid() && x in r.items
    ensures var t := Remove(r, x);
      t.Valid() && |t.items| == |r.items| - 1 && forall y :: y in t.items <==> y != x && y in r.items
  {
    var k := IndexOf(r.items, x);
    RemoveAtItems(r, k);
    GrownMembers(Remove(r, x).items, r.items, k, x);
  }
}
