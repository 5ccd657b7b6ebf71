/** The report of uxTaskGetSystemState, and what it does to the order in which tasks run. The report is collected by
    walking every state list with listGET_OWNER_OF_NEXT_ENTRY, the macro by which the scheduler takes turns, and each
    walk leaves pxIndex one place further than it was. A task that reports before it yields therefore has the scheduler
    pass over the task after it. */
module SystemState {
  import opened ListModel
  import opened ItemStore
  import RoundRobin
  import opened Scheduler
  import opened SchedulerLists
  import opened SchedulerTick
  import opened SchedulerResume
  import opened SchedulerSteps
  import opened SchedulerRuns
  import opened SchedulerScenes

  datatype TaskState = Running | Runnable | Blocked | OnHold | Gone      // eTaskState

  /** TaskStatus_t. */
  datatype Status = Status(task: Task, prio: nat, base: nat, state: TaskState)

  /** What a task is doing, by the list its state item is in. */
  function TrueState(s: Sched, t: Task): TaskState {
    if t == s.current then Running
    else if t !in s.state.at then Gone
    else match s.state.at[t]
    case Ready(_) => Runnable
    case Terminated => Gone
    case Suspended => if t in s.event.at then Blocked else OnHold
    case _ => Blocked
  }

  /** All that is reported of a task. */
  function Known(s: Sched, t: Task): Status { Status(t, Prio(s, t), T(s, t).base, TrueState(s, t)) }

  function Infos(s: Sched, ts: seq<Task>): (r: seq<Status>)
    ensures |r| == |ts|
  {
    seq(|ts|, i requires 0 <= i < |ts| => Known(s, ts[i]))
  }

  /** One walk round a list: it starts behind the next entry and ends with it. */
  function Cycle<X>(r: Rota<X>): (c: seq<X>)
    ensures |c| == |r.items|
  {
    if r.items == [] || r.index > |r.items| then r.items else r.items[NextIndex(r)..] + r.items[..NextIndex(r)]
  }

  /** Where pxIndex is in such a walk, k entries after its start. */
  function Around<X>(r: Rota<X>, k: nat): nat
    requires r.items != [] && k <= |r.items|
  {
    var p := NextIndex(r);
    if p + k <= |r.items| then p + k else p + k - |r.items|
  }

  lemma AroundStep<X>(r: Rota<X>, k: nat)
    requires r.Valid() && k < |r.items|
    ensures var n := Around(r, k + 1);
      && 1 <= Around(r, k) <= |r.items| && NextIndex(r.(index := Around(r, k))) == n
      && 1 <= n <= |r.items| && Cycle(r)[k] == r.items[n - 1] && Cycle(r)[..k + 1] == Cycle(r)[..k] + [Cycle(r)[k]]
      && (Cycle(r)[k] == r.items[NextIndex(r) - 1] <==> k + 1 == |r.items|)
  {
    assert |r.items[NextIndex(r)..]| == |r.items| - NextIndex(r);
  }

  /** A family of lists with the pxIndex of l moved. */
  function Turned<L>(s: Store<Task, L>, l: L, index: nat): Store<Task, L> {
    s.(lists := s.lists[l := ListOf(s, l).(index := index)])
  }

  /** The state that prvListTasksWithinSingleList is told for each list. */
  function StateIn(l: ListId): TaskState {
    match l
    case Ready(_) => Runnable
    case DelayedA => Blocked
    case DelayedB => Blocked
    case Suspended => OnHold
    case Terminated => Gone
  }

  /** The ready lists from the highest priority down to p. */
  function Levels(levels: nat, p: nat): seq<ListId>
    decreases levels - p
  {
    if p >= levels then [] else Levels(levels, p + 1) + [Ready(p)]
  }

  /** The lists in the order they are walked. */
  function Order(s: Sched): seq<ListId> {
    Levels(s.levels, 0) + [CurrentList(s), OverflowList(s), Terminated, Suspended]
  }

  /** The array filled in so far, when the lists of ids have been walked. */
  function Report(s: Sched, ids: seq<ListId>): seq<Status> {
    if ids == [] then [] else
    var l := ids[|ids| - 1];
    Report(s, ids[..|ids| - 1]) + Infos(s, Cycle(ListOf(s.state, l)))
  }

  /** And what the walks have left behind. */
  function Walked(state: Store<Task, ListId>, ids: seq<ListId>): Store<Task, ListId> {
    if ids == [] then state else Advance(Walked(state, ids[..|ids| - 1]), ids[|ids| - 1])
  }

  // ---- One walk ----

  /** The items of l name l as their container. */
  ghost predicate Housed(s: Store<Task, ListId>, l: ListId) {
    ListOf(s, l).Valid() && forall t <- Items(s, l) :: t in s.at && s.at[t] == l
  }

  lemma ValidHoused(s: Store<Task, ListId>, l: ListId)
    requires Valid(s)
    ensures Housed(s, l)
  {
    assert ListOf(s, l).Valid();
    forall t | t in Items(s, l) ensures t in s.at && s.at[t] == l {}
  }

  /** One more entry of the walk round l, in a state where k have been taken. */
  lemma WalkStep(s: Sched, v: Sched, l: ListId, k: nat)
    requires Housed(s.state, l) && k < |Items(s.state, l)|
    requires v == s.(state := Turned(s.state, l, Around(ListOf(s.state, l), k)))
    ensures var r, c := ListOf(s.state, l), Cycle(ListOf(s.state, l));
      && Items(v.state, l) == r.items && Housed(v.state, l)
      && Advance(v.state, l) == Turned(s.state, l, Around(r, k + 1))
      && r.items[NextIndex(ListOf(v.state, l)) - 1] == c[k]
      && (c[k] == r.items[NextIndex(r) - 1] <==> k + 1 == |r.items|)
      && Infos(s, c[..k + 1]) == Infos(s, c[..k]) + [Known(v, c[k])]
  {
    AroundStep(ListOf(s.state, l), k);
    hide Cycle, Around;
  }

  lemma WalkStart(s: Sched, l: ListId)
    requires Housed(s.state, l) && Items(s.state, l) != []
    ensures var r, n := ListOf(s.state, l), |Items(s.state, l)|;
      && Advance(s.state, l) == Turned(s.state, l, Around(r, 0)) == Turned(s.state, l, Around(r, n))
      && Infos(s, Cycle(r)[..0]) == [] && Cycle(r)[..n] == Cycle(r)
      && 1 <= NextIndex(r) <= n && r.index <= n
  {
  }

  // ---- The report ----

  lemma CycleMembers<X(!new)>(r: Rota<X>)
    requires r.Valid()
    ensures NoDup(Cycle(r)) && forall x :: x in Cycle(r) <==> x in r.items
  {
    if r.items != [] {
      var p, c := NextIndex(r), Cycle(r);
      assert r.items == r.items[..p] + r.items[p..];
      forall i, j | 0 <= i < j < |c| ensures c[i] != c[j] {
        assert forall k | 0 <= k < |c| :: c[k] == r.items[if k + p < |c| then k + p else k + p - |c|];
      }
    }
  }

  ghost predicate Exact(s: Sched, ids: seq<ListId>, r: seq<Status>) {
    && (forall i | 0 <= i < |r| ::
         r[i].task in s.state.at && s.state.at[r[i].task] in ids
         && r[i] == Known(s, r[i].task))
    && (forall t {:trigger s.state.at[t]} ::
         t in s.state.at && s.state.at[t] in ids ==> exists i | 0 <= i < |r| :: r[i].task == t)
    && (forall i, j | 0 <= i < j < |r| :: r[i].task != r[j].task)
  }

  lemma {:induction false} ReportParts(s: Sched, ids: seq<ListId>)
    requires Valid(s.state) && NoDup(ids)
    ensures Exact(s, ids, Report(s, ids)) && |Report(s, ids)| == TotalLength(s, ids)
    decreases |ids|
  {
    if ids != [] {
      var front, l := ids[..|ids| - 1], ids[|ids| - 1];
      ReportParts(s, front);
      assert ListOf(s.state, l).Valid();
      assert ids == front + [l] && l !in front;
      CycleMembers(ListOf(s.state, l));
      assert forall t :: t in Items(s.state, l) <==> t in s.state.at && s.state.at[t] == l;
      OneList(s, front, l, Report(s, front), Cycle(ListOf(s.state, l)));
    }
  }

  lemma OneList(s: Sched, front: seq<ListId>, l: ListId, r: seq<Status>, c: seq<Task>)
    requires Exact(s, front, r) && l !in front && NoDup(c)
    requires forall t :: t in c <==> t in s.state.at && s.state.at[t] == l
    ensures Exact(s, front + [l], r + Infos(s, c))
  {
    var all := r + Infos(s, c);
    forall i | |r| <= i < |all|
      ensures all[i].task == c[i - |r|] && all[i].task in c && all[i] == Known(s, c[i - |r|])
    {
    }
    forall t | t in s.state.at && s.state.at[t] in front + [l] ensures exists i | 0 <= i < |all| :: all[i].task == t {
      if s.state.at[t] in front {
        var i :| 0 <= i < |r| && r[i].task == t;
        assert all[i] == r[i];
      } else {
        var i :| 0 <= i < |c| && c[i] == t;
        assert all[|r| + i].task == t;
      }
    }
  }

  lemma {:induction false} LevelsFacts(levels: nat, p: nat)
    requires p <= levels
    ensures NoDup(Levels(levels, p)) && |Levels(levels, p)| == levels - p
    ensures forall l :: l in Levels(levels, p) <==> l.Ready? && p <= l.p < levels
    decreases levels - p
  {
    if p < levels { LevelsFacts(levels, p + 1); }
  }

  lemma OrderFacts(s: Sched)
    ensures NoDup(Order(s)) && |Order(s)| == s.levels + 4
    ensures forall l :: l in Order(s) <==> (l.Ready? ==> l.p < s.levels)
  {
    LevelsFacts(s.levels, 0);
    var a, b := Levels(s.levels, 0), [CurrentList(s), OverflowList(s), Terminated, Suspended];
    RestFacts(s, b);
    hide Levels;
    assert Order(s) == a + b;
    forall l ensures l in a + b <==> l in a || l in b {}
  }

  lemma RestFacts(s: Sched, b: seq<ListId>)
    requires b == [CurrentList(s), OverflowList(s), Terminated, Suspended]
    ensures NoDup(b) && forall l :: l in b <==> !l.Ready?
  {
    assert forall l :: l in b <==> l == b[0] || l == b[1] || l == b[2] || l == b[3];
  }

  /** The report names every task exactly once, with what it is doing. */
  ghost predicate Complete(s: Sched, r: seq<Status>) {
    && (forall t :: t in s.tcbs ==> exists i | 0 <= i < |r| :: r[i].task == t)
    && (forall i, j | 0 <= i < j < |r| :: r[i].task != r[j].task)
    && forall i | 0 <= i < |r| :: r[i].task in s.tcbs && r[i].task in s.state.at
         && r[i] == Known(s, r[i].task)
  }

  /** That is what is reported, of every state; and the report is as long as uxCurrentNumberOfTasks,
      so that it fits any array that passes the test of its size. */
  lemma ReportExact(s: Sched)
    requires Inv(s)
    ensures Complete(s, Report(s, Order(s))) && |Report(s, Order(s))| == s.numTasks
  {
    hide Inv, Order, Complete, Report, Valid;
    AllListed(s);
    ReportParts(s, Order(s));
    LengthsAreMembers(s, Order(s));
    assert Members(s, Order(s)) == s.tcbs.Keys;
    ExactComplete(s, Order(s), Report(s, Order(s)));
  }

  lemma ExactComplete(s: Sched, ids: seq<ListId>, r: seq<Status>)
    requires Exact(s, ids, r) && s.state.at.Keys == s.tcbs.Keys
    requires forall t :: t in s.state.at ==> s.state.at[t] in ids
    ensures Complete(s, r)
  {
    hide TrueState;
    forall t | t in s.tcbs ensures exists i | 0 <= i < |r| :: r[i].task == t {
      assert t in s.state.at.Keys;
    }
  }

  /** No state list is left out. */
  lemma AllListed(s: Sched)
    requires Inv(s)
    ensures Valid(s.state) && NoDup(Order(s)) && s.state.at.Keys == s.tcbs.Keys && |s.tcbs.Keys| == s.numTasks
    ensures forall t :: t in s.state.at ==> s.state.at[t] in Order(s)
  {
    OrderFacts(s);
    hide Order;
    forall t | t in s.state.at ensures s.state.at[t] in Order(s) {
      assert t in s.state.at.Keys;
      assert t in s.tcbs;
    }
  }

  // ---- What the walk does to the lists ----

  /** Every list walked has its pxIndex one place further, as if one entry had been handed out. */
  lemma {:induction false} WalkedFacts(s: Store<Task, ListId>, ids: seq<ListId>)
    requires Valid(s) && NoDup(ids)
    ensures var w := Walked(s, ids);
      && Valid(w) && w.at == s.at
      && forall l :: ListOf(w, l) == if l in ids && Items(s, l) != [] then ListOf(s, l).(index := NextIndex(ListOf(s, l)))
                                     else ListOf(s, l)
    decreases |ids|
  {
    if ids != [] {
      var front, l := ids[..|ids| - 1], ids[|ids| - 1];
      assert ids == front + [l] && l !in front;
      WalkedFacts(s, front);
      var w := Walked(s, front);
      assert ListOf(w, l) == ListOf(s, l);
      if Items(s, l) != [] { AdvanceValid(w, l); }
    }
  }

  function WalkAll(s: Sched): Sched { s.(state := Walked(s.state, Order(s))) }

  /** The walk moves no task, and the invariant survives it. */
  lemma WalkKept(s: Sched)
    requires Inv(s)
    ensures var w := WalkAll(s);
      && Inv(w) && w.state.at == s.state.at && (Preemptive(s) ==> Preemptive(w))
      && forall l :: InState(w, l) == InState(s, l)
  {
    AllListed(s);
    hide Core, Order, Walked, Valid, Counted;
    var w := WalkAll(s);
    WalkedFacts(s.state, Order(s));
    forall l ensures InState(w, l) == InState(s, l) {
      assert ListOf(w.state, l).items == ListOf(s.state, l).items;
    }
    WalkCore(s, w, Now(s) + 1);
    WalkCounted(s, w);
  }

  lemma WalkCore(s: Sched, w: Sched, floor: nat)
    requires Core(s, {}, floor) && w == s.(state := w.state) && w.state.at == s.state.at && Valid(w.state)
    requires forall l :: InState(w, l) == InState(s, l)
    ensures Core(w, {}, floor)
  {
    hide Valid, Due, InOrder, InState;
    DueFrame(s, w, floor);
  }

  lemma WalkCounted(s: Sched, w: Sched)
    requires Counted(s) && w == s.(state := w.state) && w.state.at == s.state.at
    requires InState(w, Terminated) == InState(s, Terminated)
    ensures Counted(w) && (Preemptive(s) ==> Preemptive(w))
  {
    forall t ensures InList(w, t, Terminated) == InList(s, t, Terminated) && Pending(w, t) == Pending(s, t) {}
    forall t ensures Prio(w, t) == Prio(s, t) && IsReady(w, t) == IsReady(s, t) {}
  }

  /** On a ready list the task whose turn was next has lost it, and the others have moved up. */
  lemma TurnLost(s: Sched, t: Task)
    requires Inv(s) && IsReady(s, t)
    ensures var l := s.state.at[t];
      var r, r' := ListOf(s.state, l), ListOf(WalkAll(s).state, l);
      r.Valid() && r'.Valid() && t in r.items && t in r'.items
      && RoundRobin.Turn(r', t) == if RoundRobin.Turn(r, t) == 1 then |r.items| else RoundRobin.Turn(r, t) - 1
  {
    hide Inv, Order, Walked, RoundRobin.Turn;
    AllListed(s);
    var l := s.state.at[t];
    var r := ListOf(s.state, l);
    WalkedFacts(s.state, Order(s));
    assert t in Items(s.state, l);
    assert r.Valid();
    hide Valid;
    NextTurn(r, t);
  }

  lemma NextTurn(r: Rota<Task>, t: Task)
    requires r.Valid() && t in r.items
    ensures var r' := r.(index := NextIndex(r));
      r'.Valid() && RoundRobin.Turn(r', t) == if RoundRobin.Turn(r, t) == 1 then |r.items| else RoundRobin.Turn(r, t) - 1
  {
  }

  // ---- The walks one after another ----

  lemma WalksBegin(s: Sched)
    ensures Levels(s.levels, s.levels) == [] && Report(s, []) == [] && Walked(s.state, []) == s.state
  {
  }

  lemma {:induction false} LevelsSuffix(levels: nat, p: nat)
    requires p <= levels
    ensures Levels(levels, p) <= Levels(levels, 0)
    decreases p
  {
    if p > 0 { LevelsSuffix(levels, p - 1); }
  }

  lemma NextLevel(s: Sched, p: nat)
    requires 0 < p <= s.levels
    ensures Levels(s.levels, p - 1) == Levels(s.levels, p) + [Ready(p - 1)] <= Order(s)
  {
    LevelsSuffix(s.levels, p - 1);
  }

  lemma OrderParts(s: Sched)
    ensures var ids, c, o := Levels(s.levels, 0), CurrentList(s), OverflowList(s);
      && Order(s) == ids + [c, o, Terminated] + [Suspended] && ids + [c, o, Terminated] == ids + [c, o] + [Terminated]
      && ids + [c, o] == ids + [c] + [o]
  {
    hide Levels;
  }

  lemma {:induction false} ReportGrows(s: Sched, ids: seq<ListId>, all: seq<ListId>)
    requires ids <= all
    ensures |Report(s, ids)| <= |Report(s, all)|
    decreases |all|
  {
    if |ids| < |all| {
      ReportGrows(s, ids, all[..|all| - 1]);
    } else {
      assert ids == all;
    }
  }

  lemma OneWalk(s: Sched, v: Sched, ids: seq<ListId>, l: ListId)
    requires Inv(s) && ids + [l] <= Order(s) && v == s.(state := Walked(s.state, ids))
    ensures var r := ListOf(v.state, l);
      && Housed(v.state, l) && |Report(s, ids)| + |r.items| <= s.numTasks
      && Walked(s.state, ids + [l]) == Advance(v.state, l)
      && Report(s, ids + [l]) == Report(s, ids) + Infos(v, Cycle(r))
  {
    hide Inv, Order, Valid, Report, Walked, Complete;
    AllListed(s);
    ReportExact(s);
    ReportGrows(s, ids + [l], Order(s));
    PartOfOrder(ids, l, Order(s));
    WalkedFacts(s.state, ids);
    ValidHoused(v.state, l);
    Unrolled(s, v, ids, l);
  }

  lemma PartOfOrder(ids: seq<ListId>, l: ListId, all: seq<ListId>)
    requires ids + [l] <= all && NoDup(all)
    ensures NoDup(ids) && l !in ids
  {
    assert forall i | 0 <= i < |ids| :: ids[i] == all[i];
    assert l == all[|ids|];
  }

  lemma Unrolled(s: Sched, v: Sched, ids: seq<ListId>, l: ListId)
    requires v == s.(state := Walked(s.state, ids)) && ListOf(v.state, l) == ListOf(s.state, l) && v.state.at == s.state.at
    ensures Walked(s.state, ids + [l]) == Advance(v.state, l)
    ensures Report(s, ids + [l]) == Report(s, ids) + Infos(v, Cycle(ListOf(v.state, l)))
  {
    assert (ids + [l])[..|ids|] == ids;
    SameInfos(s, v, Cycle(ListOf(s.state, l)));
    hide Cycle, Infos;
  }

  lemma SameInfos(s: Sched, v: Sched, ts: seq<Task>)
    requires v == s.(state := v.state) && v.state.at == s.state.at
    ensures Infos(v, ts) == Infos(s, ts)
  {
    forall t ensures Known(v, t) == Known(s, t) {}
  }

  lemma HaltKept(s: Sched)
    requires Inv(s)
    ensures Inv(s.(suspended := s.suspended + 1))
  {
    var s1 := s.(suspended := s.suspended + 1);
    hide Core;
    SameListsCore(s, s1, {}, Now(s) + 1);
    SameListsFacts(s, s1);
  }

  lemma SameReport(s: Sched, s1: Sched)
    requires s1 == s.(suspended := s1.suspended)
    ensures Order(s1) == Order(s) && Report(s1, Order(s)) == Report(s, Order(s))
  {
    SameReportOf(s, s1, Order(s));
  }

  lemma {:induction false} SameReportOf(s: Sched, s1: Sched, ids: seq<ListId>)
    requires s1 == s.(suspended := s1.suspended)
    ensures Report(s1, ids) == Report(s, ids)
    decreases |ids|
  {
    if ids != [] { SameReportOf(s, s1, ids[..|ids| - 1]); }
  }

  // ---- A task that asks before it yields ----

  /** The whole call, when no interrupt comes in between. */
  function GetSystemState(s: Sched, arraySize: nat): Sched {
    var s1 := s.(suspended := s.suspended + 1);
    ResumeAll(if arraySize >= s1.numTasks then WalkAll(s1) else s1)
  }

  /** The running task makes the call and then yields. */
  function Slice(s: Sched, arraySize: nat): Sched {
    Apply(Apply(GetSystemState(s, arraySize), Yield), PendSv)
  }

  function Slices(s: Sched, arraySize: nat, k: nat): Sched
    decreases k
  {
    if k == 0 then s else Slices(Slice(s, arraySize), arraySize, k - 1)
  }

  function TopList(s: Sched): Rota<Task> { ListOf(s.state, Ready(Prio(s, s.current))) }

  /** The running task is a highest ready one, at pxIndex of its ready list. */
  predicate OnTop(s: Sched) {
    var r := TopList(s);
    s.suspended == 0 && 1 <= r.index <= |r.items| && r.items[r.index - 1] == s.current
    && Prio(s, s.current) == HighestBelow(s.top, s.levels)
  }

  lemma CallKept(s: Sched, arraySize: nat)
    requires Inv(s) && s.suspended == 0
    ensures var g := GetSystemState(s, arraySize);
      Inv(g) && g == s.(state := if arraySize >= s.numTasks then Walked(s.state, Order(s)) else s.state,
                        owed := s.owed || s.yieldPending)
  {
    var s1 := s.(suspended := 1);
    Halted(s, s1);
    hide Inv, Order, Walked, ResumeAll;
    SameReport(s, s1);
    WalkKept(s1);
    var w := if arraySize >= s1.numTasks then WalkAll(s1) else s1;
    NothingHeld(w);
  }

  lemma HeadPending(s: Sched)
    requires Valid(s.event) && InEvent(s, PendingReady) != []
    ensures Pending(s, InEvent(s, PendingReady)[0])
  {
    assert InEvent(s, PendingReady)[0] in Items(s.event, PendingReady);
  }

  lemma Halted(s: Sched, s1: Sched)
    requires Inv(s) && s.suspended == 0 && s1 == s.(suspended := 1)
    ensures Inv(s1) && s1.pended == 0 && InEvent(s1, PendingReady) == []
  {
    if InEvent(s, PendingReady) != [] { HeadPending(s); }
    hide Core;
    SameListsCore(s, s1, {}, Now(s) + 1);
    SameListsFacts(s, s1);
  }

  /** Resuming when nothing was held back. */
  lemma NothingHeld(w: Sched)
    requires Inv(w) && w.suspended == 1 && w.pended == 0 && InEvent(w, PendingReady) == []
    ensures Inv(ResumeAll(w)) && ResumeAll(w) == w.(suspended := 0, owed := w.owed || w.yieldPending)
  {
    NonePending(w);
    hide Core;
    SameListsCore(w, ResumeAll(w), {}, Now(w) + 1);
    SameListsFacts(w, ResumeAll(w));
  }

  /** pxIndex two entries further. */
  function TwoOn(n: nat, index: nat): nat
    requires n > 0
  {
    (index + 1) % n + 1
  }

  lemma TwiceNext(r: Rota<Task>)
    requires 1 <= r.index <= |r.items|
    ensures NextIndex(r.(index := NextIndex(r))) == TwoOn(|r.items|, r.index)
  {
  }

  lemma SliceTurns(s: Sched, arraySize: nat)
    requires Inv(s) && OnTop(s) && arraySize >= s.numTasks
    ensures var s' := Slice(s, arraySize);
      && Inv(s') && OnTop(s') && s'.numTasks == s.numTasks
      && TopList(s') == TopList(s).(index := TwoOn(|TopList(s).items|, TopList(s).index))
  {
    var g := GetSystemState(s, arraySize);
    CurrentListed(s);
    hide Inv, Valid, Order, GetSystemState, Walked;
    CallKept(s, arraySize);
    AllListed(s);
    WalkedFacts(s.state, Order(s));
    SwitchedOn(s, g);
  }

  lemma CurrentListed(s: Sched)
    requires Inv(s) && OnTop(s)
    ensures s.current in s.state.at && s.state.at[s.current] == Ready(Prio(s, s.current))
  {
    assert s.current in Items(s.state, Ready(Prio(s, s.current)));
  }

  lemma SwitchedOn(s: Sched, g: Sched)
    requires Inv(g) && OnTop(s) && g == s.(state := g.state, owed := g.owed)
    requires ListOf(g.state, Ready(Prio(s, s.current))) == TopList(s).(index := NextIndex(TopList(s)))
    ensures var s' := Apply(Apply(g, Yield), PendSv);
      && Inv(s') && OnTop(s') && s'.numTasks == s.numTasks
      && TopList(s') == TopList(s).(index := TwoOn(|TopList(s).items|, TopList(s).index))
  {
    var y := Apply(g, Yield);
    var l := Ready(Prio(s, s.current));
    TwiceNext(TopList(s));
    var s' := Apply(y, PendSv);
    hide Inv, Kept, TwoOn;
    StepKept(g, Yield);
    StepKept(y, PendSv);
    assert ListOf(y.state, l).items == TopList(s).items;
    assert s'.current in InState(y, l) && ListOf(s'.state, l).index == TwoOn(|TopList(s).items|, TopList(s).index);
    ListedPrio(y, l, s'.current);
  }

  lemma ListedPrio(s: Sched, l: ListId, t: Task)
    requires Inv(s) && t in InState(s, l) && l.Ready?
    ensures Prio(s, t) == l.p
  {
    assert t in Items(s.state, l);
  }

  /** Where pxIndex is, counting from 0, when it has moved on two entries k times. */
  function After(n: nat, index: nat, k: nat): (p: nat)
    requires n > 0 && index > 0
    ensures p < n
  {
    (index - 1 + 2 * k) % n
  }

  lemma AfterStep(n: nat, index: nat, k: nat)
    requires 1 <= index <= n
    ensures After(n, index, 0) == index - 1
    ensures k > 0 ==> After(n, TwoOn(n, index), k - 1) == After(n, index, k)
  {
    if k > 0 { Around2(index + 1, 2 * k - 2, n); }
  }

  lemma Around2(x: nat, y: nat, n: nat)
    requires n > 0
    ensures (x % n + y) % n == (x + y) % n
  {
    var q := x / n;
    Rest(x, q, x % n, n);
    Multiple(x % n + y, q, n);
    assert x + y == x % n + y + q * n;
  }

  /** The rest of a division is the only one there is. */
  lemma Rest(x: nat, q: int, r: nat, n: nat)
    requires n > 0
    ensures x == x / n * n + x % n
    ensures x == q * n + r && r < n ==> r == x % n
  {
    if x == q * n + r && r < n {
      var d := q - x / n;
      assert d * n == q * n - x / n * n;
      if d != 0 { Large(d, n); }
    }
  }

  lemma Large(d: int, n: int)
    requires d != 0 && n > 0
    ensures d * n >= n || d * n <= 0 - n
  {
    if d > 0 { NotLess(d, n); } else { NotLess(0 - d, n); }
  }

  lemma {:induction false} NotLess(d: nat, n: int)
    requires d > 0 && n > 0
    ensures d * n >= n
    decreases d
  {
    if d > 1 { NotLess(d - 1, n); }
  }

  lemma Multiple(x: nat, q: nat, n: nat)
    requires n > 0
    ensures (x + q * n) % n == x % n
  {
    Rest(x, 0, 0, n);
    assert x + q * n == (x / n + q) * n + x % n;
    Rest(x + q * n, x / n + q, x % n, n);
  }

  /** The rounds hand out every second task of the list: after k of them the one 2 * k places on. */
  lemma {:induction false} Served(s: Sched, arraySize: nat, k: nat)
    requires Inv(s) && OnTop(s) && arraySize >= s.numTasks
    ensures var r := TopList(s);
      Slices(s, arraySize, k).current == r.items[After(|r.items|, r.index, k)]
    decreases k
  {
    hide Inv, After, TwoOn, Slice, TopList, HighestBelow, Prio;
    var r := TopList(s);
    AfterStep(|r.items|, r.index, k);
    if k > 0 {
      var s' := Slice(s, arraySize);
      assert Slices(s, arraySize, k) == Slices(s', arraySize, k - 1);
      hide Slices;
      SliceTurns(s, arraySize);
      Served(s', arraySize, k - 1);
    }
  }

  /** With an even number of tasks in the list, every second one never runs: its turn goes by in a call. */
  lemma NeverServed(s: Sched, arraySize: nat, k: nat, j: nat)
    requires Inv(s) && OnTop(s) && arraySize >= s.numTasks
    requires var r := TopList(s); |r.items| % 2 == 0 && j < |r.items| && j % 2 != (r.index - 1) % 2
    ensures Slices(s, arraySize, k).current != TopList(s).items[j]
  {
    var r := TopList(s);
    hide Inv, TopList, Slices, After, HighestBelow, Prio;
    Served(s, arraySize, k);
    EvenRest(|r.items|, r.index, k);
    Distinct(s);
    hide OnTop;
  }

  lemma EvenRest(n: nat, index: nat, k: nat)
    requires 1 <= index <= n && n % 2 == 0
    ensures After(n, index, k) % 2 == (index - 1) % 2
  {
    var x, m := index - 1 + 2 * k, n / 2;
    var q := x / n;
    Rest(x, 0, 0, n);
    hide After;
    assert q * n == 2 * (q * m);
  }

  lemma Distinct(s: Sched)
    requires Inv(s)
    ensures NoDup(TopList(s).items)
  {
    assert ListOf(s.state, Ready(Prio(s, s.current))).Valid();
  }

  /** With an odd number every task runs, within as many rounds as there are tasks. */
  lemma ServedInTime(s: Sched, arraySize: nat, j: nat) returns (k: nat)
    requires Inv(s) && OnTop(s) && arraySize >= s.numTasks
    requires var r := TopList(s); |r.items| % 2 == 1 && j < |r.items|
    ensures k < |TopList(s).items| && Slices(s, arraySize, k).current == TopList(s).items[j]
  {
    var r := TopList(s);
    hide Inv, TopList, Slices, After, HighestBelow, Prio;
    k := Rounds(|r.items|, r.index, j);
    Served(s, arraySize, k);
    hide OnTop, After;
  }

  lemma Rounds(n: nat, index: nat, j: nat) returns (k: nat)
    requires n % 2 == 1 && j < n && 1 <= index <= n
    ensures k < n && After(n, index, k) == j
  {
    var i := index - 1;
    var d := if j >= i then j - i else j - i + n;
    k := if d % 2 == 0 then d / 2 else (d + n) / 2;
    var rounds := if j >= i then (if d % 2 == 0 then 0 else 1) else if d % 2 == 0 then 1 else 2;
    assert i + 2 * k == j + rounds * n;
    hide After;
    Arrives(n, index, k, j, rounds);
  }

  lemma Arrives(n: nat, index: nat, k: nat, j: nat, rounds: nat)
    requires j < n && index > 0 && index - 1 + 2 * k == j + rounds * n
    ensures After(n, index, k) == j
  {
    Rest(j + rounds * n, rounds, j, n);
  }

  /** There are such states: two tasks of priority 1 are created, and the first of them runs. */
  lemma TwoOnTop() returns (steps: seq<Step>)
    ensures Legal(Started(4, 0), steps)
    ensures var s := Exec(Started(4, 0), steps); Inv(s) && OnTop(s) && |TopList(s).items| == 2
  {
    var s := Started(4, 0);
    steps := [];
    assert Legal(s, steps) && Exec(s, steps) == s;
    Starts();
    StartedInv(4, 0);
    hide Legal, Exec, Shows, Apply, Enabled, Inv;
    Creates1(Exec(s, steps));
    steps := More(s, steps, CreateTask(1, 1));
    Runs1(Exec(s, steps));
    steps := More(s, steps, PendSv);
    Joined(Exec(s, steps));
    steps := More(s, steps, CreateTask(2, 1));
    RunKept(s, steps);
  }

  lemma Joined(s: Sched)
    requires Shows(s, RUNS1)
    ensures Enabled(s, CreateTask(2, 1))
    ensures var s' := Apply(s, CreateTask(2, 1)); OnTop(s') && |TopList(s').items| == 2
  {
    Highest({0, 1}, 1);
  }
}
