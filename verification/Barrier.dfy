/** xEventGroupSync as a rendezvous. The tasks 0 to n - 1 each own a bit mask; every call sets the
    caller's mask and waits, without time-out, for the union of all of them. */
module Barrier {
  import opened EventBits
  import opened EventGroup

  /** The union of the masks of the tasks that are present. */
  function Union(masks: seq<Bits>, present: seq<bool>): Bits
    requires |masks| == |present|
  {
    if masks == [] then 0
    else Or(if present[0] then masks[0] else 0, Union(masks[1..], present[1..]))
  }

  function Everyone(n: nat): (present: seq<bool>)
    ensures |present| == n && forall i | 0 <= i < n :: present[i]
  {
    seq(n, _ => true)
  }

  /** What every task waits for. */
  function All(masks: seq<Bits>): Bits { Union(masks, Everyone(|masks|)) }

  /** Distinct bits, none empty, none of the kernel's. */
  ghost predicate Masks(masks: seq<Bits>) {
    && |masks| > 0 && (forall i | 0 <= i < |masks| :: masks[i] != 0 && User(masks[i]))
    && (forall i, j | 0 <= i < j < |masks| :: Misses(masks[i], masks[j]) && Misses(masks[j], masks[i]))
  }

  /** The group, and for each task how many calls it has made, how many have returned, and the value
      the last one returned. */
  datatype Meeting = Meeting(g: Group, entered: seq<nat>, left: seq<nat>, got: seq<Bits>)

  datatype Step = Enter(i: nat) | Leave(i: nat)

  predicate Sized(m: Meeting, n: nat) { |m.entered| == |m.left| == |m.got| == n }

  predicate Enabled(masks: seq<Bits>, m: Meeting, step: Step)
    requires Sized(m, |masks|)
  {
    match step
    case Enter(i) => i < |masks| && !Inside(m.g, i)
    case Leave(i) => i < |masks| && i in m.g.granted
  }

  /** xEventGroupSync by task i, up to where it returns or blocks. */
  function Call(masks: seq<Bits>, i: nat): EventGroup.Step
    requires i < |masks|
  {
    Sync(i, masks[i], All(masks), true)
  }

  /** Task i returns a value. */
  function Returned(m: Meeting, g: Group, i: nat, value: Bits): Meeting
    requires i < |m.left| && i < |m.got|
  {
    m.(g := g, left := m.left[i := m.left[i] + 1], got := m.got[i := value])
  }

  lemma {:induction false} UnionMisses(masks: seq<Bits>, present: seq<bool>, x: Bits)
    requires |masks| == |present|
    ensures Misses(Union(masks, present), x) <==> (forall i | 0 <= i < |masks| :: present[i] ==> Misses(masks[i], x))
  {
    Zero(x);
    hide Misses, Or;
    if masks != [] {
      UnionMisses(masks[1..], present[1..], x);
      OrMisses(if present[0] then masks[0] else 0, Union(masks[1..], present[1..]), x);
      forall i | 0 < i < |masks| ensures masks[i] == masks[1..][i - 1] && present[i] == present[1..][i - 1] {}
    }
  }

  lemma {:induction false} UnionCovers(masks: seq<Bits>, present: seq<bool>, i: nat)
    requires |masks| == |present| && i < |masks| && present[i]
    ensures Covers(Union(masks, present), masks[i])
  {
    CoversSelf(masks[i]);
    hide Covers, Or;
    var first, rest := if present[0] then masks[0] else 0, Union(masks[1..], present[1..]);
    if i == 0 {
      OrCovers(first, rest, masks[0]);
    } else {
      UnionCovers(masks[1..], present[1..], i - 1);
      OrCovers(rest, first, masks[i]);
    }
  }

  lemma CoversThrough(a: Bits, b: Bits, m: Bits)
    requires Covers(a, b) && Covers(b, m)
    ensures Covers(a, m)
  {
  }

  lemma NotBoth(a: Bits, m: Bits)
    requires Covers(a, m) && Misses(a, m)
    ensures m == 0
  {
  }

  predicate AllPresent(present: seq<bool>) { forall i | 0 <= i < |present| :: present[i] }

  /** The union is complete exactly when everyone is present. */
  lemma Complete(masks: seq<Bits>, present: seq<bool>)
    requires Masks(masks) && |present| == |masks|
    ensures Covers(Union(masks, present), All(masks)) <==> AllPresent(present)
  {
    if i :| 0 <= i < |masks| && !present[i] {
      assert Covers(All(masks), masks[i]) by { UnionCovers(masks, Everyone(|masks|), i); }
      hide Covers, Misses;
      if Covers(Union(masks, present), All(masks)) {
        CoversThrough(Union(masks, present), All(masks), masks[i]);
        UnionMisses(masks, present, masks[i]);
        NotBoth(Union(masks, present), masks[i]);
      }
    } else {
      assert present == Everyone(|masks|);
      CoversSelf(All(masks));
    }
  }

  lemma UserUnion(masks: seq<Bits>, present: seq<bool>)
    requires Masks(masks) && |present| == |masks|
    ensures User(Union(masks, present))
  {
    UnionMisses(masks, present, CONTROL);
  }

  lemma AllNonZero(masks: seq<Bits>)
    requires Masks(masks)
    ensures All(masks) != 0 && User(All(masks))
  {
    UserUnion(masks, Everyone(|masks|));
    UnionCovers(masks, Everyone(|masks|), 0);
  }

  lemma {:induction false} UnionAdd(masks: seq<Bits>, present: seq<bool>, i: nat)
    requires |masks| == |present| && i < |masks| && !present[i]
    ensures Union(masks, present[i := true]) == Or(Union(masks, present), masks[i])
  {
    var rest := Union(masks[1..], present[1..]);
    Zero(masks[i]);
    hide Or;
    assert present[i := true][1..] == if i == 0 then present[1..] else present[1..][i - 1 := true];
    if i == 0 {
      OrLaws(masks[0], rest, 0);
      Zero(rest);
    } else {
      UnionAdd(masks[1..], present[1..], i - 1);
      OrLaws(if present[0] then masks[0] else 0, rest, masks[i]);
    }
  }

  // ---- The two kinds of set ----

  lemma {:induction false} NobodyWoken(l: seq<Waiter>, bits: Bits, granted: map<Task, Grant>)
    requires forall w <- l :: !Satisfied(bits, w)
    ensures Staying(l, bits) == l && ToClear(l, bits) == 0 && Granting(granted, l, bits) == granted
  {
    Zero(0);
    hide Satisfied, Or;
    if l != [] {
      assert l == [l[0]] + l[1..];
      NobodyWoken(l[1..], bits, granted);
    }
  }

  lemma {:induction false} EveryoneWoken(l: seq<Waiter>, bits: Bits)
    requires forall w <- l :: Satisfied(bits, w)
    ensures Staying(l, bits) == []
  {
    hide Satisfied;
    if l != [] {
      assert l == [l[0]] + l[1..];
      EveryoneWoken(l[1..], bits);
    }
  }

  // ---- Steps ----

  lemma CallEnabled(masks: seq<Bits>, g: Group, i: nat)
    requires Masks(masks) && i < |masks| && !Inside(g, i)
    ensures EventGroup.Enabled(g, Call(masks, i))
  {
    AllNonZero(masks);
  }

  function Apply(masks: seq<Bits>, m: Meeting, step: Step): Meeting
    requires Masks(masks) && Sized(m, |masks|) && Enabled(masks, m, step)
  {
    match step
    case Enter(i) =>
      CallEnabled(masks, m.g, i);
      var g := EventGroup.Apply(m.g, Call(masks, i));
      var m1 := m.(g := g, entered := m.entered[i := m.entered[i] + 1]);
      (match Output(m.g, Call(masks, i))
       case Nothing => m1
       case Returns(value) => Returned(m1, g, i, value))
    case Leave(i) =>
      Returned(m, EventGroup.Apply(m.g, Collect(i)), i, Output(m.g, Collect(i)).value)
  }

  /** The tasks that have entered round r + 1. */
  function Present(m: Meeting, r: nat): (present: seq<bool>)
    ensures |present| == |m.entered| && forall i | 0 <= i < |present| :: present[i] == (m.entered[i] > r)
  {
    seq(|m.entered|, i requires 0 <= i < |m.entered| => m.entered[i] > r)
  }

  /** Where task i stands when r rounds are complete: waiting in round r + 1, or woken from round r and
      still to return, or outside. */
  ghost predicate Stands(masks: seq<Bits>, m: Meeting, r: nat, i: nat)
    requires Sized(m, |masks|) && i < |masks|
  {
    && r <= m.entered[i] <= r + 1
    && (Waits(m.g, i) <==> m.entered[i] == r + 1)
    && (i in m.g.granted ==> m.entered[i] == r && m.g.granted[i].value == Marked(All(masks)))
    && m.left[i] + (if i in m.g.granted then 1 else 0) == r
    && (m.left[i] > 0 ==> m.got[i] == All(masks))
  }

  ghost predicate ListOk(masks: seq<Bits>, g: Group) {
    && DistinctTasks(g.waiting) && g.late == map[]
    && (forall w <- g.waiting :: w.task < |masks| && w.value == ItemValue(All(masks), true, true))
  }

  /** r rounds are complete. */
  ghost predicate Inv(masks: seq<Bits>, m: Meeting, r: nat) {
    && Sized(m, |masks|) && ListOk(masks, m.g)
    && (forall i | 0 <= i < |masks| :: Stands(masks, m, r, i))
    && (exists i | 0 <= i < |masks| :: m.entered[i] == r)
    && m.g.bits == Union(masks, Present(m, r))
  }

  lemma LeaveKept(masks: seq<Bits>, m: Meeting, r: nat, i: nat)
    requires Masks(masks) && Inv(masks, m, r) && Enabled(masks, m, Leave(i))
    ensures Inv(masks, Apply(masks, m, Leave(i)), r)
  {
    var m' := Apply(masks, m, Leave(i));
    AllNonZero(masks);
    MarkedParts(All(masks));
    assert Stands(masks, m, r, i);
    hide All, Marked, Without, User;
    assert Present(m', r) == Present(m, r);
    forall j | 0 <= j < |masks| ensures Stands(masks, m', r, j) { assert Stands(masks, m, r, j); }
    var j :| 0 <= j < |masks| && m.entered[j] == r;
    assert m'.entered[j] == r;
  }

  /** The waiting tasks' condition is that everyone is present. */
  lemma Waiters(masks: seq<Bits>, m: Meeting, bits: Bits)
    requires Masks(masks) && ListOk(masks, m.g)
    ensures forall w <- m.g.waiting :: Satisfied(bits, w) <==> Covers(bits, All(masks))
  {
    AllNonZero(masks);
    hide All, Covers, Misses, Wanted, WaitsForAll;
    forall w | w in m.g.waiting ensures Satisfied(bits, w) <==> Covers(bits, All(masks)) {
      ItemValueParts(w.task, All(masks), true, true);
    }
  }

  lemma NotLast(masks: seq<Bits>, m: Meeting, r: nat, i: nat)
    requires Masks(masks) && Inv(masks, m, r) && Enabled(masks, m, Enter(i))
    requires !AllPresent(Present(m, r)[i := true])
    ensures Inv(masks, Apply(masks, m, Enter(i)), r)
  {
    var all, m' := Or(m.g.bits, masks[i]), Apply(masks, m, Enter(i));
    assert Stands(masks, m, r, i);
    UnionAdd(masks, Present(m, r), i);
    Complete(masks, Present(m, r)[i := true]);
    Waiters(masks, m, all);
    NobodyWoken(m.g.waiting, all, m.g.granted);
    WithoutNothing(all);
    hide All, Marked, Without, Or, Satisfied, ItemValue, Covers;
    assert m'.g == m.g.(bits := all, waiting := m.g.waiting + [Waiter(i, ItemValue(All(masks), true, true))]);
    assert Present(m', r) == Present(m, r)[i := true];
    forall j | 0 <= j < |masks| ensures Stands(masks, m', r, j) {
      assert Stands(masks, m, r, j);
      StillWaits(m.g, m'.g, i, j);
    }
    var j :| 0 <= j < |masks| && !Present(m, r)[i := true][j];
    assert Stands(masks, m, r, j) && m'.entered[j] == r;
  }

  lemma WithoutNothing(a: Bits)
    ensures Without(a, 0) == a
  {
  }

  lemma StillWaits(g: Group, g': Group, i: nat, j: nat)
    requires |g'.waiting| == |g.waiting| + 1 && g'.waiting[..|g.waiting|] == g.waiting && g'.waiting[|g.waiting|].task == i
    ensures Waits(g', j) <==> Waits(g, j) || j == i
  {
    assert g'.waiting == g.waiting + [g'.waiting[|g.waiting|]];
    if j == i { assert g'.waiting[|g.waiting|] in g'.waiting; }
  }

  /** The group when the last task enters: everyone is woken with the union, and no bit stays set. */
  lemma LastGroup(masks: seq<Bits>, m: Meeting, r: nat, i: nat)
    requires Masks(masks) && Inv(masks, m, r) && Enabled(masks, m, Enter(i))
    requires AllPresent(Present(m, r)[i := true]) && EventGroup.Enabled(m.g, Call(masks, i))
    ensures var g', all := EventGroup.Apply(m.g, Call(masks, i)), All(masks);
      && Output(m.g, Call(masks, i)) == Returns(all)
      && g'.bits == 0 && g'.waiting == [] && g'.late == map[]
      && (forall w <- m.g.waiting :: w.task in g'.granted && g'.granted[w.task] == Grant(w, Marked(all)))
      && (forall t :: !Waits(m.g, t) ==> (t in g'.granted <==> t in m.g.granted) && (t in g'.granted ==> g'.granted[t] == m.g.granted[t]))
  {
    var all := Or(m.g.bits, masks[i]);
    assert Stands(masks, m, r, i);
    UnionAdd(masks, Present(m, r), i);
    assert Present(m, r)[i := true] == Everyone(|masks|);
    assert all == All(masks);
    CoversSelf(all);
    Waiters(masks, m, all);
    EveryoneWoken(m.g.waiting, all);
    SetWakes(m.g, masks[i]);
    WithoutTwice(all, ToClear(m.g.waiting, all));
    hide All, Marked, Without, Or, Satisfied, ItemValue, Covers;
    forall t | !Waits(m.g, t) ensures !Woken(m.g.waiting, all, t) {}
  }

  lemma WithoutTwice(a: Bits, b: Bits)
    ensures Without(Without(a, b), a) == 0
  {
  }

  lemma {:induction false} NobodyPresent(masks: seq<Bits>, present: seq<bool>)
    requires |masks| == |present| && forall i | 0 <= i < |present| :: !present[i]
    ensures Union(masks, present) == 0
  {
    Zero(0);
    hide Or;
    if masks != [] {
      NobodyPresent(masks[1..], present[1..]);
    }
  }

  lemma Last(masks: seq<Bits>, m: Meeting, r: nat, i: nat)
    requires Masks(masks) && Inv(masks, m, r) && Enabled(masks, m, Enter(i))
    requires AllPresent(Present(m, r)[i := true])
    ensures Inv(masks, Apply(masks, m, Enter(i)), r + 1)
  {
    var m', r' := Apply(masks, m, Enter(i)), r + 1;
    CallEnabled(masks, m.g, i);
    LastGroup(masks, m, r, i);
    assert Stands(masks, m, r, i);
    forall j | 0 <= j < |masks| && j != i ensures m.entered[j] == r + 1 {
      assert Present(m, r)[i := true][j] && Stands(masks, m, r, j);
    }
    NobodyPresent(masks, Present(m', r'));
    hide All, Marked, EventGroup.Apply, Output, Satisfied, ItemValue, Call;
    forall j | 0 <= j < |masks| ensures Stands(masks, m', r', j) {
      assert Stands(masks, m, r, j);
    }
    assert m'.entered[i] == r';
  }

  // ---- Runs ----

  lemma StepKept(masks: seq<Bits>, m: Meeting, r: nat, step: Step) returns (r': nat)
    requires Masks(masks) && Inv(masks, m, r) && Enabled(masks, m, step)
    ensures Inv(masks, Apply(masks, m, step), r')
  {
    r' := r;
    match step {
      case Leave(i) => LeaveKept(masks, m, r, i);
      case Enter(i) =>
        if AllPresent(Present(m, r)[i := true]) {
          Last(masks, m, r, i);
          r' := r + 1;
        } else {
          NotLast(masks, m, r, i);
        }
    }
  }

  ghost predicate Legal(masks: seq<Bits>, m: Meeting, steps: seq<Step>)
    requires Masks(masks) && Sized(m, |masks|)
    decreases |steps|
  {
    steps == [] || (Enabled(masks, m, steps[0]) && Legal(masks, Apply(masks, m, steps[0]), steps[1..]))
  }

  ghost function Exec(masks: seq<Bits>, m: Meeting, steps: seq<Step>): (e: Meeting)
    requires Masks(masks) && Sized(m, |masks|) && Legal(masks, m, steps)
    ensures Sized(e, |masks|)
    decreases |steps|
  {
    if steps == [] then m else Exec(masks, Apply(masks, m, steps[0]), steps[1..])
  }

  lemma {:induction false} RunKept(masks: seq<Bits>, m: Meeting, r: nat, steps: seq<Step>) returns (r': nat)
    requires Masks(masks) && Inv(masks, m, r) && Legal(masks, m, steps)
    ensures Inv(masks, Exec(masks, m, steps), r')
    decreases |steps|
  {
    hide Stands, ListOk, Apply;
    r' := r;
    if steps != [] {
      r' := StepKept(masks, m, r, steps[0]);
      r' := RunKept(masks, Apply(masks, m, steps[0]), r', steps[1..]);
    }
  }

  function Start(n: nat): (m: Meeting)
    ensures Sized(m, n)
  {
    Meeting(Group(0, [], map[], map[]), seq(n, _ => 0), seq(n, _ => 0), seq(n, _ => 0))
  }

  /** After every run of the rendezvous: a call of round k has returned only if every task has made its
      k-th call, every call that returned gave the union of all bits, and once every task has made its
      k-th call none of them waits in it any more. */
  lemma Rendezvous(masks: seq<Bits>, steps: seq<Step>, k: nat)
    requires Masks(masks) && Legal(masks, Start(|masks|), steps)
    ensures var m := Exec(masks, Start(|masks|), steps);
      && (forall i, j | 0 <= i < |masks| && 0 <= j < |masks| :: m.left[i] <= m.entered[j])
      && (forall i | 0 <= i < |masks| :: m.left[i] > 0 ==> m.got[i] == All(masks))
      && ((forall j | 0 <= j < |masks| :: m.entered[j] >= k) ==>
            forall i | 0 <= i < |masks| :: Waits(m.g, i) ==> m.entered[i] > k)
  {
    var n := |masks|;
    StartInv(masks);
    hide Start, Legal, Exec, Inv;
    var r := RunKept(masks, Start(n), 0, steps);
    Rounds(masks, Exec(masks, Start(n), steps), r);
  }

  lemma StartInv(masks: seq<Bits>)
    requires Masks(masks)
    ensures Inv(masks, Start(|masks|), 0)
  {
    var n := |masks|;
    NobodyPresent(masks, Present(Start(n), 0));
    hide All, Marked;
    assert forall i | 0 <= i < n :: Stands(masks, Start(n), 0, i);
    assert Start(n).entered[0] == 0;
  }

  /** What the invariant of round r says of all the rounds. */
  lemma Rounds(masks: seq<Bits>, m: Meeting, r: nat)
    requires Inv(masks, m, r)
    ensures Sized(m, |masks|)
    ensures forall i, j | 0 <= i < |masks| && 0 <= j < |masks| :: m.left[i] <= m.entered[j]
    ensures forall i | 0 <= i < |masks| :: m.left[i] > 0 ==> m.got[i] == All(masks)
    ensures forall i | 0 <= i < |masks| :: Waits(m.g, i) ==> m.entered[i] == r + 1
    ensures exists x | 0 <= x < |masks| :: m.entered[x] == r
  {
    var n := |masks|;
    hide All, Marked, ListOk;
    forall i, j | 0 <= i < n && 0 <= j < n
      ensures m.left[i] <= m.entered[j] && (m.left[i] > 0 ==> m.got[i] == All(masks))
      ensures Waits(m.g, i) ==> m.entered[i] == r + 1
    {
      assert Stands(masks, m, r, i) && Stands(masks, m, r, j);
    }
    var x :| 0 <= x < n && m.entered[x] == r;
  }
}
