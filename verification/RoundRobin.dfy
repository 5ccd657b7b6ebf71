/** Time slicing on a ready list: vListInsertEnd, uxListRemove and listGET_OWNER_OF_NEXT_ENTRY
    in any order, and how long a given item waits for its turn. */
module RoundRobin {
  import opened ListModel

  datatype Op<T> = InsertEnd(x: T) | Remove(x: T) | Next

  predicate Allowed<T(==)>(r: Rota<T>, op: Op<T>) {
    match op
    case InsertEnd(x) => x !in r.items
    case Remove(x) => x in r.items
    case Next => r.items != []
  }

  function Apply<T(==)>(r: Rota<T>, op: Op<T>): Rota<T>
    requires r.index <= |r.items| && Allowed(r, op)
  {
    match op
    case InsertEnd(x) => ListModel.InsertEnd(r, x)
    case Remove(x) => ListModel.Remove(r, x)
    case Next => r.(index := NextIndex(r))
  }

  predicate Legal<T(==)>(r: Rota<T>, ops: seq<Op<T>>)
    decreases |ops|
  {
    ops == [] || (r.index <= |r.items| && Allowed(r, ops[0]) && Legal(Apply(r, ops[0]), ops[1..]))
  }

  /** The items handed out by the Next operations of a run, in order. */
  function Served<T(==)>(r: Rota<T>, ops: seq<Op<T>>): seq<T>
    requires Legal(r, ops)
    decreases |ops|
  {
    if ops == [] then [] else
    var rest := Served(Apply(r, ops[0]), ops[1..]);
    if ops[0].Next? then [r.items[NextIndex(r) - 1]] + rest else rest
  }

  function Nexts<T>(ops: seq<Op<T>>): nat {
    if ops == [] then 0 else (if ops[0].Next? then 1 else 0) + Nexts(ops[1..])
  }

  predicate AtIndex<T(==)>(r: Rota<T>, x: T) {
    0 < r.index <= |r.items| && r.items[r.index - 1] == x
  }

  /** How many insertions of the run find pxIndex pointing at x: each of them lands in front of x. */
  function Overtakings<T(==)>(r: Rota<T>, ops: seq<Op<T>>, x: T): nat
    requires Legal(r, ops)
    decreases |ops|
  {
    if ops == [] then 0 else
    (if ops[0].InsertEnd? && AtIndex(r, x) then 1 else 0) + Overtakings(Apply(r, ops[0]), ops[1..], x)
  }

  /** The number of Next operations after which x is handed out, if nothing else happens. */
  function Turn<T(==)>(r: Rota<T>, x: T): (d: nat)
    requires r.index <= |r.items| && x in r.items
    ensures 1 <= d <= |r.items|
  {
    var q := IndexOf(r.items, x) + 1;
    if q > r.index then q - r.index else |r.items| - r.index + q
  }

  lemma FirstIndex<T>(s: seq<T>, x: T, k: nat)
    requires k < |s| && s[k] == x && forall i | 0 <= i < k :: s[i] != x
    ensures IndexOf(s, x) == k
  {
    var j := IndexOf(s, x);
    assert j <= k;
  }

  lemma IndexAfterInsert<T>(s: seq<T>, t: seq<T>, x: T, k: nat)
    requires x in s && k <= |s| && |t| == |s| + 1 && t[k] != x
    requires forall i | 0 <= i < k :: t[i] == s[i]
    requires forall i | k <= i < |s| :: t[i + 1] == s[i]
    ensures x in t && IndexOf(t, x) == (if IndexOf(s, x) < k then IndexOf(s, x) else IndexOf(s, x) + 1)
  {
    var q := IndexOf(s, x);
    var p := if q < k then q else q + 1;
    forall i | 0 <= i < p ensures t[i] != x {
      if i > k { assert t[i - 1 + 1] == s[i - 1]; }
    }
    assert q >= k ==> t[q + 1] == x;
    FirstIndex(t, x, p);
  }

  lemma IndexAfterRemove<T>(s: seq<T>, t: seq<T>, x: T, k: nat)
    requires x in s && k < |s| == |t| + 1 && s[k] != x
    requires forall i | 0 <= i < k :: t[i] == s[i]
    requires forall i | k <= i < |t| :: t[i] == s[i + 1]
    ensures x in t && IndexOf(t, x) == (if IndexOf(s, x) < k then IndexOf(s, x) else IndexOf(s, x) - 1)
  {
    var q := IndexOf(s, x);
    var p := if q < k then q else q - 1;
    assert t[p] == x;
    FirstIndex(t, x, p);
  }

  lemma ApplyValid<T(!new)>(r: Rota<T>, op: Op<T>)
    requires r.Valid() && Allowed(r, op)
    ensures Apply(r, op).Valid()
    ensures forall y :: y in Apply(r, op).items <==>
      (if op.InsertEnd? then y in r.items || y == op.x else y in r.items && (op.Remove? ==> y != op.x))
  {
    match op
    case InsertEnd(x) => InsertEndValid(r, x);
    case Remove(x) => RemoveValid(r, x);
    case Next =>
  }

  lemma TurnAfterInsert<T>(r: Rota<T>, y: T, x: T)
    requires r.Valid() && x in r.items && y !in r.items
    ensures var t := ListModel.InsertEnd(r, y);
      x in t.items && t.index <= |t.items| && Turn(t, x) == Turn(r, x) + (if AtIndex(r, x) then 1 else 0)
  {
    var k := if r.index == 0 then |r.items| else r.index - 1;
    InsertEndItems(r, y);
    IndexAfterInsert(r.items, ListModel.InsertEnd(r, y).items, x, k);
    assert AtIndex(r, x) ==> IndexOf(r.items, x) == k;
  }

  lemma TurnAfterRemove<T>(r: Rota<T>, y: T, x: T)
    requires r.index <= |r.items| && x in r.items && y in r.items && x != y
    ensures var t := ListModel.Remove(r, y);
      x in t.items && t.index <= |t.items| && Turn(r, x) - 1 <= Turn(t, x) <= Turn(r, x)
  {
    RemoveAtItems(r, IndexOf(r.items, y));
    IndexAfterRemove(r.items, ListModel.Remove(r, y).items, x, IndexOf(r.items, y));
  }

  /** One operation, exactly: only an insertion made while pxIndex points at x moves x further
      from its turn, and then by one place; Next moves it one place nearer or hands it out. */
  lemma TurnStep<T(!new)>(r: Rota<T>, op: Op<T>, x: T)
    requires r.Valid() && Allowed(r, op) && x in r.items && op != Remove(x)
    ensures Apply(r, op).Valid() && x in Apply(r, op).items
    ensures op.Next? ==> (Turn(r, x) == 1 <==> r.items[NextIndex(r) - 1] == x)
    ensures op.Next? && Turn(r, x) != 1 ==> Turn(Apply(r, op), x) == Turn(r, x) - 1
    ensures op.InsertEnd? ==> Turn(Apply(r, op), x) == Turn(r, x) + (if AtIndex(r, x) then 1 else 0)
    ensures op.Remove? ==> Turn(r, x) - 1 <= Turn(Apply(r, op), x) <= Turn(r, x)
  {
    ApplyValid(r, op);
    match op
    case InsertEnd(y) => TurnAfterInsert(r, y, x);
    case Remove(y) => TurnAfterRemove(r, y, x);
    case Next =>
  }

  /** Bounded waiting: x is handed out within Turn(r, x) Next operations, plus one for every
      insertion that overtook it. */
  lemma {:induction false} BoundedWaiting<T(!new)>(r: Rota<T>, ops: seq<Op<T>>, x: T)
    requires r.Valid() && Legal(r, ops) && x in r.items && Op.Remove(x) !in ops
    requires Nexts(ops) >= Turn(r, x) + Overtakings(r, ops, x)
    ensures x in Served(r, ops)
    decreases |ops|
  {
    var op := ops[0];
    TurnStep(r, op, x);
    if op.Next? && r.items[NextIndex(r) - 1] == x {
      assert Served(r, ops)[0] == x;
    } else {
      BoundedWaiting(Apply(r, op), ops[1..], x);
    }
  }

  /** Removing the item at pxIndex leaves pxIndex on its predecessor, and the next insertion then
      overtakes that predecessor, although it was not at pxIndex when the run began. */
  lemma PredecessorOvertaken<T>(x: T, y: T, z: T)
    requires x != y && x != z && y != z
    ensures var r := Rota([x, y], 2);
      var ops := [Op.Remove(y), Op.InsertEnd(z), Op.Next];
      r.Valid() && !AtIndex(r, x) && Turn(r, x) == 1 && Legal(r, ops) && Served(r, ops) == [z]
  {
    var r := Rota([x, y], 2);
    var r1, r2 := Rota([x], 1), Rota([z, x], 2);
    var ops := [Op.Remove(y), Op.InsertEnd(z), Op.Next];
    FirstIndex(r.items, x, 0);
    FirstIndex(r.items, y, 1);
    assert Apply(r, ops[0]) == r1;
    assert ops[1..][0] == Op.InsertEnd(z) && Apply(r1, Op<T>.InsertEnd(z)) == r2;
    assert ops[1..][1..] == [Op<T>.Next] && Legal(r2, [Op<T>.Next]) && Served(r2, [Op<T>.Next]) == [z];
    assert Legal(r1, ops[1..]) && Served(r1, ops[1..]) == [z];
  }
}
