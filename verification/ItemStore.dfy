/** A family of kernel lists and the items in them. `at` is each item's pvContainer: an item is
    in at most one list, and exactly the items of a list name it as their container. */
module ItemStore {
  import opened ListModel

  datatype Store<I(==), L(==)> = Store(lists: map<L, Rota<I>>, at: map<I, L>)

  function ListOf<I, L>(s: Store<I, L>, l: L): Rota<I> {
    if l in s.lists then s.lists[l] else Rota([], 0)
  }

  function Items<I, L>(s: Store<I, L>, l: L): seq<I> {
    ListOf(s, l).items
  }

  ghost predicate Valid<I(!new), L(!new)>(s: Store<I, L>) {
    && (forall l :: ListOf(s, l).Valid())
    && (forall i, l {:trigger i in Items(s, l)} :: i in Items(s, l) <==> i in s.at && s.at[i] == l)
  }

  /** uxListRemove. */
  function Take<I, L>(s: Store<I, L>, i: I): Store<I, L> {
    if i in s.at then Store(s.lists[s.at[i] := Remove(ListOf(s, s.at[i]), i)], s.at - {i}) else s
  }

  /** vListInsertEnd. */
  function PutEnd<I, L>(s: Store<I, L>, l: L, i: I): Store<I, L> {
    Store(s.lists[l := InsertEnd(ListOf(s, l), i)], s.at[i := l])
  }

  /** vListInsert, with the position its search found. */
  function PutAt<I, L>(s: Store<I, L>, l: L, k: nat, i: I): Store<I, L>
    requires k <= |Items(s, l)|
  {
    Store(s.lists[l := InsertAt(ListOf(s, l), k, i)], s.at[i := l])
  }

  /** listGET_OWNER_OF_NEXT_ENTRY moves pxIndex. */
  function Advance<I, L>(s: Store<I, L>, l: L): Store<I, L> {
    if Items(s, l) == [] then s
    else s.(lists := s.lists[l := ListOf(s, l).(index := NextIndex(ListOf(s, l)))])
  }

  lemma TakeValid<I(!new), L(!new)>(s: Store<I, L>, i: I)
    requires Valid(s) && i in s.at
    ensures i in Items(s, s.at[i]) && Valid(Take(s, i))
    ensures forall l :: l != s.at[i] ==> ListOf(Take(s, i), l) == ListOf(s, l)
    ensures |Items(Take(s, i), s.at[i])| == |Items(s, s.at[i])| - 1
    ensures Take(s, i).at == s.at - {i} && ListOf(Take(s, i), s.at[i]) == Remove(ListOf(s, s.at[i]), i)
  {
    assert i in Items(s, s.at[i]);
    var l := s.at[i];
    var r, s' := ListOf(s, l), Take(s, i);
    RemoveValid(r, i);
    forall m ensures ListOf(s', m).Valid() { assert ListOf(s, m).Valid(); }
    forall j, m ensures j in Items(s', m) <==> j in s'.at && s'.at[j] == m {
      assert j in Items(s, m) <==> j in s.at && s.at[j] == m;
    }
  }

  lemma PutEndValid<I(!new), L(!new)>(s: Store<I, L>, l: L, i: I)
    requires Valid(s) && i !in s.at
    ensures Valid(PutEnd(s, l, i))
    ensures forall m :: m != l ==> ListOf(PutEnd(s, l, i), m) == ListOf(s, m)
    ensures |Items(PutEnd(s, l, i), l)| == |Items(s, l)| + 1 && PutEnd(s, l, i).at == s.at[i := l]
  {
    assert ListOf(s, l).Valid();
    assert i !in Items(s, l);
    var r, s' := ListOf(s, l), PutEnd(s, l, i);
    InsertEndValid(r, i);
    forall m ensures ListOf(s', m).Valid() { assert ListOf(s, m).Valid(); }
    forall j, m ensures j in Items(s', m) <==> j in s'.at && s'.at[j] == m {
      assert j in Items(s, m) <==> j in s.at && s.at[j] == m;
    }
  }

  lemma PutAtValid<I(!new), L(!new)>(s: Store<I, L>, l: L, k: nat, i: I)
    requires Valid(s) && i !in s.at && k <= |Items(s, l)|
    ensures Valid(PutAt(s, l, k, i))
    ensures forall m :: m != l ==> ListOf(PutAt(s, l, k, i), m) == ListOf(s, m)
    ensures |Items(PutAt(s, l, k, i), l)| == |Items(s, l)| + 1 && PutAt(s, l, k, i).at == s.at[i := l]
    ensures ListOf(PutAt(s, l, k, i), l) == InsertAt(ListOf(s, l), k, i)
  {
    assert ListOf(s, l).Valid();
    assert i !in Items(s, l);
    var r, s' := ListOf(s, l), PutAt(s, l, k, i);
    InsertAtValid(r, k, i);
    forall m ensures ListOf(s', m).Valid() { assert ListOf(s, m).Valid(); }
    forall j, m ensures j in Items(s', m) <==> j in s'.at && s'.at[j] == m {
      assert j in Items(s, m) <==> j in s.at && s.at[j] == m;
    }
  }

  lemma AdvanceValid<I(!new), L(!new)>(s: Store<I, L>, l: L)
    requires Valid(s) && Items(s, l) != []
    ensures Valid(Advance(s, l)) && Advance(s, l).at == s.at
    ensures forall m :: Items(Advance(s, l), m) == Items(s, m)
  {
    var s' := Advance(s, l);
    assert ListOf(s, l).Valid();
    forall m ensures ListOf(s', m).Valid() && Items(s', m) == Items(s, m) {
      assert ListOf(s, m).Valid();
    }
  }
}
