/** What the elementary list moves of tasks.c keep: every task in one list, ready tasks in the list of their
    own priority, the bitmap, and the order and timing of the two delayed lists. A task that moves is for a
    moment in no list, so the invariant is stated for a state in which a set of tasks is between two lists;
    taking a task out and putting it in again are proved separately, each with the bookkeeping that goes
    with it, and the operations of the other modules are put together from these. */
module SchedulerLists {
  import opened Machine
  import opened ListModel
  import opened ItemStore
  import opened Scheduler

  /** Every task but those of `out` is in exactly one state list, and nobody else is in any. */
  ghost predicate Linked(s: Sched, out: set<Task>) {
    Valid(s.state) && Valid(s.event) && s.state.at.Keys == s.tcbs.Keys - out && s.event.at.Keys <= s.tcbs.Keys
  }

  ghost predicate OwnPriority(s: Sched) {
    forall t {:trigger s.state.at[t]} :: t in s.state.at && s.state.at[t].Ready? ==> s.state.at[t].p == Prio(s, t)
  }

  ghost predicate Bounded(s: Sched) {
    s.levels <= 32 && forall t :: t in s.tcbs ==> s.tcbs[t].prio < s.levels && s.tcbs[t].base < s.levels
  }

  /** Bit p of uxTopReadyPriority is set exactly when ready list p is not empty. */
  ghost predicate Bits(s: Sched) {
    forall p {:trigger p in s.top} {:trigger InState(s, Ready(p))} :: p in s.top <==> InState(s, Ready(p)) != []
  }

  ghost predicate InOrder(tcbs: map<Task, Tcb>, items: seq<Task>) {
    forall i, j :: 0 <= i < j < |items| ==> Wake(tcbs, items[i]) <= Wake(tcbs, items[j])
  }

  /** The delayed lists say when each task is due: a task in the current list within this run of
      the tick counter, one in the overflow list in the next. No task is due before `floor`. */
  ghost predicate Due(s: Sched, floor: nat) {
    && (forall t {:trigger InList(s, t, CurrentList(s))} :: InList(s, t, CurrentList(s)) ==>
         T(s, t).due == Stamp(s.epoch, Wake(s.tcbs, t)) && T(s, t).due >= floor && s.next <= Wake(s.tcbs, t))
    && (forall t {:trigger InList(s, t, OverflowList(s))} :: InList(s, t, OverflowList(s)) ==>
         T(s, t).due == Stamp(s.epoch + 1, Wake(s.tcbs, t)))
  }

  ghost predicate Ordered(s: Sched) {
    InOrder(s.tcbs, InState(s, DelayedA)) && InOrder(s.tcbs, InState(s, DelayedB))
  }

  /** The whole list invariant, in a state where the tasks of `out` are between two lists. */
  ghost predicate Core(s: Sched, out: set<Task>, floor: nat) {
    Linked(s, out) && OwnPriority(s) && Bounded(s) && Bits(s) && Ordered(s) && Due(s, floor)
  }

  // ---- order along a delayed list ----

  lemma InOrderRemove(tcbs: map<Task, Tcb>, r: Rota<Task>, x: Task)
    requires InOrder(tcbs, r.items)
    ensures InOrder(tcbs, Remove(r, x).items)
  {
    if x in r.items {
      var k := IndexOf(r.items, x);
      RemoveAtItems(r, k);
      var t := Remove(r, x).items;
      forall i, j | 0 <= i < j < |t| ensures Wake(tcbs, t[i]) <= Wake(tcbs, t[j]) {
        assert t[i] == r.items[if i < k then i else i + 1];
        assert t[j] == r.items[if j < k then j else j + 1];
      }
    }
  }

  lemma InOrderInsert(tcbs: map<Task, Tcb>, r: Rota<Task>, x: Task, k: nat)
    requires InOrder(tcbs, r.items) && k == SearchPos(WakeKeys(tcbs, r.items), Wake(tcbs, x))
    ensures k <= |r.items| && InOrder(tcbs, InsertAt(r, k, x).items)
  {
    SearchSplits(tcbs, r.items, Wake(tcbs, x));
    InsertAtItems(r, k, x);
    GrownInOrder(tcbs, r.items, InsertAt(r, k, x).items, k, x);
  }

  lemma SearchSplits(tcbs: map<Task, Tcb>, items: seq<Task>, v: Tick)
    requires InOrder(tcbs, items)
    ensures var k := SearchPos(WakeKeys(tcbs, items), v);
      k <= |items| && forall i | 0 <= i < |items| :: i < k <==> Wake(tcbs, items[i]) <= v
  {
    var keys := WakeKeys(tcbs, items);
    var k := SearchPos(keys, v);
    forall i | 0 <= i < |items| ensures i < k <==> Wake(tcbs, items[i]) <= v {
      assert keys[i] == Wake(tcbs, items[i]);
      if k <= i { assert keys[k] == Wake(tcbs, items[k]); }
    }
  }

  lemma GrownInOrder(tcbs: map<Task, Tcb>, s: seq<Task>, t: seq<Task>, k: nat, x: Task)
    requires InOrder(tcbs, s) && Grown(s, t, k, x)
    requires forall i | 0 <= i < |s| :: i < k <==> Wake(tcbs, s[i]) <= Wake(tcbs, x)
    ensures InOrder(tcbs, t)
  {
    forall i, j | 0 <= i < j < |t| ensures Wake(tcbs, t[i]) <= Wake(tcbs, t[j]) {
      assert i != k ==> t[i] == s[if i < k then i else i - 1];
      assert j != k ==> t[j] == s[if j < k then j else j - 1];
    }
  }

  // ---- taking a task out of its list ----

  lemma TakeOrdered(s: Sched, t: Task)
    requires Valid(s.state) && Ordered(s) && t in s.state.at
    ensures Ordered(RemoveState(s, t))
  {
    hide InOrder, Valid, Take;
    TakeValid(s.state, t);
    var l := s.state.at[t];
    if l == DelayedA || l == DelayedB {
      InOrderRemove(s.tcbs, ListOf(s.state, l), t);
    }
  }

  /** A step that files no task in a delayed list and leaves the clock alone. */
  lemma DueFrame(s: Sched, s': Sched, floor: nat)
    requires Due(s, floor) && s'.swapped == s.swapped && s'.epoch == s.epoch && s'.next == s.next
    requires forall t {:trigger IsDelayed(s', t)} :: IsDelayed(s', t) ==>
      t in s.state.at && s'.state.at[t] == s.state.at[t] && T(s', t).due == T(s, t).due && T(s', t).wake == T(s, t).wake
    ensures Due(s', floor)
  {
    assert CurrentList(s') == CurrentList(s) && OverflowList(s') == OverflowList(s);
    forall t, l | InList(s', t, l) && (l == DelayedA || l == DelayedB)
      ensures InList(s, t, l) && T(s', t).due == T(s, t).due && Wake(s'.tcbs, t) == Wake(s.tcbs, t)
    {
      assert IsDelayed(s', t);
    }
  }

  /** Leaving any list with the bookkeeping of taskRESET_READY_PRIORITY. */
  lemma UnreadyCore(s: Sched, t: Task, floor: nat)
    requires Core(s, {}, floor) && t in s.tcbs
    ensures Core(Unready(s, t, Prio(s, t)), {t}, floor)
    ensures Unready(s, t, Prio(s, t)).state.at == s.state.at - {t}
    ensures forall l :: l != s.state.at[t] ==> InState(Unready(s, t, Prio(s, t)), l) == InState(s, l)
  {
    hide Valid, Take, Bits, Ordered, Due, Unready;
    UnreadyParts(s, t);
    UnreadyBits(s, t);
    UnreadyOrdered(s, t);
    DueFrame(s, Unready(s, t, Prio(s, t)), floor);
  }

  lemma UnreadyParts(s: Sched, t: Task)
    requires Valid(s.state) && t in s.state.at
    ensures var s' := Unready(s, t, Prio(s, t));
      && s' == s.(state := s'.state, top := s'.top) && Valid(s'.state) && s'.state.at == s.state.at - {t}
      && (s'.top == s.top || s'.top == s.top - {Prio(s, t)})
      && forall l :: l != s.state.at[t] ==> InState(s', l) == InState(s, l)
  {
    hide Valid, Take;
    TakeValid(s.state, t);
  }

  lemma UnreadyOrdered(s: Sched, t: Task)
    requires Valid(s.state) && Ordered(s) && t in s.state.at
    ensures Ordered(Unready(s, t, Prio(s, t)))
  {
    hide Valid, Take, Emptied, InOrder;
    TakeOrdered(s, t);
  }

  lemma UnreadyBits(s: Sched, t: Task)
    requires Valid(s.state) && OwnPriority(s) && Bits(s) && t in s.state.at
    ensures Bits(Unready(s, t, Prio(s, t)))
  {
    hide Valid, Take;
    TakeValid(s.state, t);
    var s', p := Unready(s, t, Prio(s, t)), Prio(s, t);
    forall q ensures q in s'.top <==> InState(s', Ready(q)) != [] {
      assert q in s.top <==> InState(s, Ready(q)) != [];
      if q == p && s.state.at[t] != Ready(p) {
        assert InState(s', Ready(p)) == InState(s, Ready(p));
      }
    }
  }

  // ---- putting a task into a list ----

  lemma AddReadyCore(s: Sched, t: Task, floor: nat)
    requires Core(s, {t}, floor) && t in s.tcbs
    ensures Core(AddReady(s, t), {}, floor)
    ensures AddReady(s, t).state.at == s.state.at[t := Ready(Prio(s, t))]
    ensures forall l :: l != Ready(Prio(s, t)) ==> InState(AddReady(s, t), l) == InState(s, l)
  {
    hide Valid, PutEnd, InOrder, Due;
    PutEndValid(s.state, Ready(Prio(s, t)), t);
    DueFrame(s, AddReady(s, t), floor);
  }

  /** Into the suspended or the termination list. */
  lemma PutCore(s: Sched, t: Task, l: ListId, floor: nat)
    requires Core(s, {t}, floor) && t in s.tcbs && (l == Suspended || l == Terminated)
    ensures Core(s.(state := PutEnd(s.state, l, t)), {}, floor)
    ensures |Items(PutEnd(s.state, l, t), l)| == |InState(s, l)| + 1
    ensures PutEnd(s.state, l, t).at == s.state.at[t := l]
    ensures forall m :: m != l ==> Items(PutEnd(s.state, l, t), m) == InState(s, m)
  {
    hide Valid, PutEnd, InOrder, Due;
    PutEndValid(s.state, l, t);
    DueFrame(s, s.(state := PutEnd(s.state, l, t)), floor);
  }

  /** From whatever list to the ready list: the ready bit ends up set either way. */
  lemma MoveToReadyCore(s: Sched, t: Task, floor: nat)
    requires Core(s, {}, floor) && t in s.tcbs
    ensures Core(AddReady(RemoveState(s, t), t), {}, floor)
    ensures AddReady(RemoveState(s, t), t).state.at == s.state.at[t := Ready(Prio(s, t))]
    ensures forall l :: l != s.state.at[t] && l != Ready(Prio(s, t)) ==>
      InState(AddReady(RemoveState(s, t), t), l) == InState(s, l)
  {
    hide Core, Unready, AddReady;
    var u := Unready(s, t, Prio(s, t));
    UnreadyCore(s, t, floor);
    UnreadyFrame(s, t);
    AddReadyCore(u, t, floor);
    ReadyEitherWay(s, t);
  }

  lemma UnreadyFrame(s: Sched, t: Task)
    ensures var u := Unready(s, t, Prio(s, t)); u.tcbs == s.tcbs && u == s.(state := Take(s.state, t), top := u.top)
  {
  }

  lemma ReadyEitherWay(s: Sched, t: Task)
    ensures AddReady(RemoveState(s, t), t) == AddReady(Unready(s, t, Prio(s, t)), t)
  {
    hide Take, PutEnd;
    assert s.top - {Prio(s, t)} + {Prio(s, t)} == s.top + {Prio(s, t)};
  }

  /** Changing a control block without changing when the task wakes. The priority may change
      only while the task is in no ready list. */
  lemma SetTcbCore(s: Sched, t: Task, tcb: Tcb, out: set<Task>, floor: nat)
    requires Core(s, out, floor) && t in s.tcbs
    requires tcb.wake == s.tcbs[t].wake && tcb.due == s.tcbs[t].due && tcb.prio < s.levels && tcb.base < s.levels
    requires tcb.prio == s.tcbs[t].prio || !IsReady(s, t)
    ensures Core(SetTcb(s, t, tcb), out, floor)
  {
    hide Valid, Due;
    var s' := SetTcb(s, t, tcb);
    assert forall x :: Wake(s'.tcbs, x) == Wake(s.tcbs, x);
    DueFrame(s, s', floor);
  }

  lemma ResetNextCore(s: Sched, out: set<Task>, floor: nat)
    requires Core(s, out, floor)
    ensures Core(ResetNext(s), out, floor)
  {
    var s', c := ResetNext(s), CurrentList(s);
    forall t | InList(s, t, c) ensures s'.next <= Wake(s.tcbs, t) {
      assert t in InState(s, c);
      assert InOrder(s.tcbs, InState(s, c));
    }
    assert CurrentList(s') == c && OverflowList(s') == OverflowList(s);
    assert forall t, l :: InList(s', t, l) ==> InList(s, t, l);
  }

  /** Order depends only on the wake times of the tasks in the list. */
  lemma SameOrder(s: Sched, tcbs: map<Task, Tcb>, t: Task)
    requires Linked(s, {t}) && Ordered(s) && forall x :: x != t ==> Wake(tcbs, x) == Wake(s.tcbs, x)
    ensures InOrder(tcbs, InState(s, DelayedA)) && InOrder(tcbs, InState(s, DelayedB))
  {
    assert t !in s.state.at;
    assert t !in InState(s, DelayedA) && t !in InState(s, DelayedB);
  }

  lemma FiledDue(s: Sched, t: Task, n: Tick)
    requires Linked(s, {t}) && Due(s, Now(s) + 1) && t in s.tcbs && n >= 1
    requires FileDelayed(s, t, n).state.at == s.state.at[t := if Add32(s.tick, n) < s.tick then OverflowList(s) else CurrentList(s)]
    ensures Due(FileDelayed(s, t, n), Now(s) + 1)
  {
    hide PutAt, Valid;
    var s' := FileDelayed(s, t, n);
    assert CurrentList(s') == CurrentList(s) && OverflowList(s') == OverflowList(s);
    assert forall x, l :: x != t && InList(s', x, l) ==> InList(s, x, l);
    assert forall x :: x != t ==> T(s', x) == T(s, x);
  }

  /** prvAddCurrentTaskToDelayedList files a task that blocks for n >= 1 ticks so that it is due
      at exactly Now(s) + n, in the current list or, past the wrap, in the overflow list. */
  lemma FileDelayedCore(s: Sched, t: Task, n: Tick)
    requires Core(s, {t}, Now(s) + 1) && t in s.tcbs && n >= 1
    ensures var s' := FileDelayed(s, t, n);
      Core(s', {}, Now(s) + 1) && IsDelayed(s', t) && T(s', t).due == Now(s) + n
    ensures forall x :: x != t ==> (IsDelayed(FileDelayed(s, t, n), x) <==> IsDelayed(s, x))
  {
    hide Valid, InOrder, PutAt, InsertAt, SearchPos;
    var s' := FileDelayed(s, t, n);
    var w := Add32(s.tick, n);
    var l := if w < s.tick then OverflowList(s) else CurrentList(s);
    var k := SearchPos(WakeKeys(s'.tcbs, InState(s, l)), w);
    SameOrder(s, s'.tcbs, t);
    PutAtValid(s.state, l, k, t);
    InOrderInsert(s'.tcbs, ListOf(s.state, l), t, k);
    FiledDue(s, t, n);
  }
}
