/** Whole runs of the scheduler: any interleaving of task calls, interrupts and switches. */
module SchedulerRuns {
  import opened Machine
  import opened ListModel
  import opened ItemStore
  import opened Scheduler
  import opened SchedulerLists
  import opened SchedulerTick
  import opened SchedulerResume
  import opened SchedulerSteps
  import opened SchedulerPriority
  import opened SchedulerSwitch

  /** Every step keeps the invariant, the timing of the tasks it does not touch, and preemption
      except in the cases Strands names; StaleBit is the one case in which the invariant is lost. */
  lemma StepKept(s: Sched, step: Step)
    requires Inv(s) && Enabled(s, step)
    ensures Inv(Apply(s, step)) <==> !StaleBit(s, step)
    ensures !StaleBit(s, step) ==> Kept(s, step)
  {
    hide Inv, Kept, Apply;
    match step {
      case Tick => TickKept(s);
      case PendSv => PendSvKept(s);
      case SuspendScheduler => FlagsKept(s, step);
      case ResumeScheduler => ResumeSchedulerKept(s);
      case Yield => FlagsKept(s, step);
      case Delay(n) => DelayKept(s, n);
      case WaitOrdered(q, n) => WaitOrderedKept(s, q, n);
      case WaitUnordered(q, v, n) => WaitUnorderedKept(s, q, v, n);
      case WakeFirst(q) => WakeFirstKept(s, q);
      case WakeOne(t, v) => WakeOneKept(s, t, v);
      case SuspendTask(t) => SuspendTaskKept(s, t);
      case ResumeTask(t) => ResumeTaskKept(s, t);
      case ResumeFromIsr(t) => ResumeFromIsrKept(s, t);
      case CreateTask(t, p) => CreateTaskKept(s, t, p);
      case DeleteTask(t) => DeleteTaskKept(s, t);
      case CleanUp => CleanUpKept(s);
      case SetPriority(t, p) => SetPriorityKept(s, t, p);
      case ResetItemValue => ResetItemKept(s);
      case TakeMutex => TakeMutexKept(s);
      case GiveMutex(q) => GiveMutexKept(s, q);
      case InheritPriority(t) => InheritKept(s, t);
      case MutexTimeout(t, p) =>
        if StaleBit(s, step) { StaleBitBreaks(s, t, p); } else { MutexTimeoutKept(s, t, p); }
    }
    KeptInv(s, step);
  }

  lemma KeptInv(s: Sched, step: Step)
    ensures Kept(s, step) ==> Inv(Apply(s, step))
  {
  }

  // ---- runs ----

  /** Every step of the run may be taken, and none is the one that loses the invariant. */
  predicate Legal(s: Sched, steps: seq<Step>)
    decreases |steps|
  {
    steps == [] || (Enabled(s, steps[0]) && !StaleBit(s, steps[0]) && Legal(Apply(s, steps[0]), steps[1..]))
  }

  function Exec(s: Sched, steps: seq<Step>): Sched
    decreases |steps|
  {
    if steps == [] then s else Exec(Apply(s, steps[0]), steps[1..])
  }

  ghost predicate NeverStrands(s: Sched, steps: seq<Step>)
    decreases |steps|
  {
    steps == [] || (!Strands(s, steps[0]) && NeverStrands(Apply(s, steps[0]), steps[1..]))
  }

  /** No step of the run moves t for a reason other than its time having come. */
  predicate NeverTouches(s: Sched, steps: seq<Step>, t: Task)
    decreases |steps|
  {
    steps == [] || (!Touches(s, steps[0], t) && NeverTouches(Apply(s, steps[0]), steps[1..], t))
  }

  predicate Possible(s: Sched, steps: seq<Step>)
    decreases |steps|
  {
    steps == [] || (Enabled(s, steps[0]) && Possible(Apply(s, steps[0]), steps[1..]))
  }

  /** The invariant holds in every state of the run. */
  ghost predicate Throughout(s: Sched, steps: seq<Step>)
    decreases |steps|
  {
    Inv(s) && (steps == [] || Throughout(Apply(s, steps[0]), steps[1..]))
  }

  ghost predicate PreemptiveThroughout(s: Sched, steps: seq<Step>)
    decreases |steps|
  {
    Preemptive(s) && (steps == [] || PreemptiveThroughout(Apply(s, steps[0]), steps[1..]))
  }

  /** Of all runs, exactly the legal ones keep the invariant throughout; and of these, exactly those in which
      nobody is stranded keep preemption. */
  lemma {:induction false} RunExact(s: Sched, steps: seq<Step>)
    requires Inv(s) && Possible(s, steps)
    ensures Throughout(s, steps) <==> Legal(s, steps)
    ensures Preemptive(s) && Legal(s, steps) ==> (PreemptiveThroughout(s, steps) <==> NeverStrands(s, steps))
    decreases |steps|
  {
    hide Inv, Preemptive, Apply, Enabled, Strands, StaleBit;
    if steps != [] {
      var s' := Apply(s, steps[0]);
      StepKept(s, steps[0]);
      if Inv(s') {
        if Preemptive(s) { KeptPreempts(s, steps[0]); }
        RunExact(s', steps[1..]);
      }
    }
  }

  lemma KeptPreempts(s: Sched, step: Step)
    requires Kept(s, step) && Preemptive(s)
    ensures Preemptive(Apply(s, step)) <==> !Strands(s, step)
  {
    hide Inv, Apply, Strands, Preemptive;
  }

  /** The list invariant, the tick bookkeeping and preemption hold after every run. */
  lemma {:induction false} RunKept(s: Sched, steps: seq<Step>)
    requires Inv(s) && Legal(s, steps)
    ensures Inv(Exec(s, steps)) && Now(s) <= Now(Exec(s, steps))
    ensures Preemptive(s) && NeverStrands(s, steps) ==> Preemptive(Exec(s, steps))
    decreases |steps|
  {
    hide Inv, Preemptive, Apply, Enabled, Strands;
    if steps != [] {
      StepKept(s, steps[0]);
      KeptNow(s, steps[0]);
      RunKept(Apply(s, steps[0]), steps[1..]);
    }
  }

  lemma KeptNow(s: Sched, step: Step)
    requires Kept(s, step)
    ensures Inv(Apply(s, step)) && Now(s) <= Now(Apply(s, step))
    ensures Preemptive(s) && !Strands(s, step) ==> Preemptive(Apply(s, step))
    ensures forall t :: !Touches(s, step, t) ==> OnTime(s, Apply(s, step), t)
  {
    hide Inv, Apply, Strands, Preemptive;
  }

  /** Over any run that does not touch t, t stays delayed exactly until its due time. */
  lemma {:induction false} RunOnTime(s: Sched, steps: seq<Step>, t: Task)
    requires Inv(s) && Legal(s, steps) && NeverTouches(s, steps, t)
    ensures OnTime(s, Exec(s, steps), t)
    decreases |steps|
  {
    hide Inv, Preemptive, Apply, Enabled, Strands, Touches, OnTime;
    if steps == [] {
      OnTimeNow(s, t);
    } else {
      var m := Apply(s, steps[0]);
      StepKept(s, steps[0]);
      KeptNow(s, steps[0]);
      RunOnTime(m, steps[1..], t);
      RunKept(m, steps[1..]);
      OnTimeTwice(s, m, Exec(m, steps[1..]), t);
    }
  }

  lemma OnTimeNow(s: Sched, t: Task)
    requires Inv(s)
    ensures OnTime(s, s, t)
  {
    hide Core;
    if IsDelayed(s, t) { DelayedLater(s, t); }
  }

  /** The step blocks the running task for n ticks: a delay, or a wait that is not indefinite. */
  predicate BlocksFor(step: Step, n: Machine.Tick) {
    match step
    case Delay(m) => m == n
    case WaitOrdered(_, m) => m == n != MAX_DELAY
    case WaitUnordered(_, _, m) => m == n != MAX_DELAY
    case _ => false
  }

  /** Exact wake-up. A task that blocks for n >= 1 ticks at unbounded time Now(s) is, after any run
      that does not wake, suspend or delete it otherwise, in a delayed list if and only if the
      time has not yet reached Now(s) + n, however often the tick counter has wrapped. */
  lemma ExactWakeUp(s: Sched, step: Step, n: Machine.Tick, steps: seq<Step>)
    requires Inv(s) && Enabled(s, step) && BlocksFor(step, n)
    requires Legal(Apply(s, step), steps) && NeverTouches(Apply(s, step), steps, s.current)
    ensures IsDelayed(Exec(Apply(s, step), steps), s.current) <==> Now(Exec(Apply(s, step), steps)) < Now(s) + n
  {
    hide Inv, Apply, Core;
    StepKept(s, step);
    NotStale(s, step, n);
    KeptNow(s, step);
    match step {
      case Delay(_) => DelayBlocks(s, n);
      case WaitOrdered(q, _) => OrderedBlocks(s, q, n);
      case WaitUnordered(q, v, _) => UnorderedBlocks(s, q, v, n);
    }
    RunOnTime(Apply(s, step), steps, s.current);
  }

  lemma NotStale(s: Sched, step: Step, n: Machine.Tick)
    requires BlocksFor(step, n)
    ensures !StaleBit(s, step)
  {
  }

  lemma Blocked(s: Sched, n: Machine.Tick, indefinitely: bool)
    requires Core(s, {}, Now(s) + 1) && IsReady(s, s.current) && s.current in s.tcbs && n >= 1
    requires indefinitely ==> n != MAX_DELAY
    ensures var s' := BlockCurrent(s, n, indefinitely);
      IsDelayed(s', s.current) && T(s', s.current).due == Now(s) + n && Now(s') == Now(s)
  {
    hide Core, FileDelayed;
    var t := s.current;
    OwnList(s, t);
    UnreadyCore(s, t, Now(s) + 1);
    UnreadyFrame(s, t);
    FileDelayedCore(Unready(s, t, Prio(s, t)), t, n);
    FileFrame(Unready(s, t, Prio(s, t)), t, n);
  }

  lemma DelayBlocks(s: Sched, n: Machine.Tick)
    requires Inv(s) && Enabled(s, Delay(n))
    ensures var s' := Apply(s, Delay(n));
      IsDelayed(s', s.current) && T(s', s.current).due == Now(s) + n && Now(s') == Now(s)
  {
    hide Core, BlockCurrent;
    Blocked(s, n, false);
  }

  lemma OrderedBlocks(s: Sched, q: nat, n: Machine.Tick)
    requires Inv(s) && Enabled(s, WaitOrdered(q, n)) && n != MAX_DELAY
    ensures var s' := Apply(s, WaitOrdered(q, n));
      IsDelayed(s', s.current) && T(s', s.current).due == Now(s) + n && Now(s') == Now(s)
  {
    hide Core, BlockCurrent, PutAt, SearchPos;
    var k := SearchPos(EventKeys(s.tcbs, InEvent(s, WaitList(q))), T(s, s.current).eventValue);
    PutEventCore(s, WaitList(q), k, s.current);
    Blocked(s.(event := PutAt(s.event, WaitList(q), k, s.current)), n, true);
  }

  lemma UnorderedBlocks(s: Sched, q: nat, v: Machine.Tick, n: Machine.Tick)
    requires Inv(s) && Enabled(s, WaitUnordered(q, v, n)) && n != MAX_DELAY
    ensures var s' := Apply(s, WaitUnordered(q, v, n));
      IsDelayed(s', s.current) && T(s', s.current).due == Now(s) + n && Now(s') == Now(s)
  {
    hide Core, BlockCurrent, PutEnd;
    var m := SetTcb(s, s.current, T(s, s.current).(eventValue := MarkInUse(v)));
    BoundedTcb(s, s.current);
    SetTcbCore(s, s.current, T(s, s.current).(eventValue := MarkInUse(v)), {}, Now(s) + 1);
    PutEventCore(m, WaitList(q), 0, s.current);
    Blocked(m.(event := PutEnd(m.event, WaitList(q), s.current)), n, true);
  }

  // ---- where runs start ----

  /** The scheduler as vTaskStartScheduler leaves it with the idle task alone. */
  function Started(levels: nat, idle: Task): Sched {
    Sched(levels, idle, map[idle := Tcb(0, 0, 0, 0, levels, 0)],
      Store(map[Ready(0) := Rota([idle], 0)], map[idle := Ready(0)]), Store(map[], map[]),
      {0}, idle, false, 0, MAX_DELAY, 0, 0, false, 1, 0, false, false, 0, 0)
  }

  lemma StartedInv(levels: nat, idle: Task)
    requires 1 <= levels <= 32
    ensures Inv(Started(levels, idle)) && Preemptive(Started(levels, idle))
  {
    var s := Started(levels, idle);
    assert forall l :: ListOf(s.state, l) == if l == Ready(0) then Rota([idle], 0) else Rota([], 0);
    assert forall e :: ListOf(s.event, e) == Rota([], 0);
    assert forall t :: t in s.tcbs <==> t == idle;
    assert s.tcbs.Keys == {idle};
    assert forall t, l :: t in InState(s, l) <==> t == idle && l == Ready(0);
  }

  // ---- suspension defers ----

  predicate FromInterrupt(step: Step) { step.Tick? || step.WakeFirst? || step.ResumeFromIsr? }

  /** While the scheduler is suspended no interrupt moves a task between state lists: ticks are
      pended one for one, and woken tasks wait on the pending ready list. */
  lemma SuspendedDefers(s: Sched, step: Step)
    requires Inv(s) && Enabled(s, step) && s.suspended > 0 && FromInterrupt(step)
    ensures var s' := Apply(s, step);
      s'.state == s.state && s'.top == s.top && s'.suspended == s.suspended && Now(s') == Now(s)
      && s'.pended == s.pended + (if step.Tick? then 1 else 0)
      && (step.WakeFirst? ==> Pending(s', InEvent(s, WaitList(step.q))[0]))
  {
    hide Inv, WakeHead, Switch, ResumeAll;
    match step {
      case WakeFirst(q) => WakePends(s, q);
      case _ =>
    }
  }

  lemma WakePends(s: Sched, q: nat)
    requires s.suspended > 0 && InEvent(s, WaitList(q)) != []
    ensures var s', h := WakeHead(s, q), InEvent(s, WaitList(q))[0];
      Pending(s', h) && s' == s.(event := s'.event, yieldPending := s'.yieldPending, owed := s'.owed)
  {
    hide Take;
  }

  /** A task an interrupt has woken is in its ready list before the first pended tick is replayed,
      so no replayed tick can time it out as well. */
  lemma WokenOnce(s: Sched, t: Task)
    requires Inv(s) && s.suspended == 1 && Pending(s, t)
    ensures var r := ReadyPended(s.(suspended := 0));
      IsReady(r, t) && t !in r.event.at && forall n :: !DueWithin(r, n, t)
    ensures IsReady(ResumeAll(s), t) && Now(ResumeAll(s)) == Now(s) + s.pended
  {
    hide Core, ReadyPended, ResumeAll, EventsLive;
    var s0 := s.(suspended := 0);
    SameListsCore(s, s0, {}, Now(s) + 1);
    LiveToo(s, s0);
    ReadyPendedExact(s0);
    PendingKnown(s, t);
    assert Pending(s0, t);
    var r := ReadyPended(s0).(next := s.next);
    assert r.state.at[t] == Ready(Prio(s0, t));
    ResumedExact(s);
    assert ResumeAll(s).state.at[t] == Ready(Prio(s, t));
  }

  // ---- conservation of tasks ----

  function ReadyIds(n: nat): seq<ListId> { if n == 0 then [] else ReadyIds(n - 1) + [Ready(n - 1)] }

  /** Every state list of the kernel. */
  function StateIds(levels: nat): seq<ListId> {
    ReadyIds(levels) + [DelayedA, DelayedB, Suspended, Terminated]
  }

  function TotalLength(s: Sched, ids: seq<ListId>): nat {
    if ids == [] then 0 else TotalLength(s, ids[..|ids| - 1]) + |InState(s, ids[|ids| - 1])|
  }

  ghost function SetOf(l: seq<Task>): set<Task> { set t | t in l }

  lemma {:induction false} SetOfSeq(l: seq<Task>)
    requires NoDup(l)
    ensures |SetOf(l)| == |l|
  {
    if l == [] {
      assert SetOf(l) == {};
    } else {
      var front, x := l[..|l| - 1], l[|l| - 1];
      assert NoDup(front) && x !in front;
      SetOfSeq(front);
      assert l == front + [x];
      assert SetOf(l) == SetOf(front) + {x};
    }
  }

  ghost function Members(s: Sched, ids: seq<ListId>): set<Task> {
    set t | t in s.state.at && s.state.at[t] in ids
  }

  lemma {:induction false} LengthsAreMembers(s: Sched, ids: seq<ListId>)
    requires Valid(s.state) && NoDup(ids)
    ensures TotalLength(s, ids) == |Members(s, ids)|
    decreases |ids|
  {
    if ids == [] {
      assert Members(s, ids) == {};
    } else {
      var k := |ids| - 1;
      var front, l := ids[..k], ids[k];
      assert ids == front + [l] && l !in front;
      LengthsAreMembers(s, front);
      ListMembers(s, l);
      MembersSplit(s, ids, front, l);
    }
  }

  lemma ListMembers(s: Sched, l: ListId)
    requires Valid(s.state)
    ensures |Members(s, [l])| == |InState(s, l)|
  {
    assert ListOf(s.state, l).Valid();
    SetOfSeq(InState(s, l));
    assert Members(s, [l]) == SetOf(InState(s, l));
  }

  lemma MembersSplit(s: Sched, ids: seq<ListId>, front: seq<ListId>, l: ListId)
    requires ids == front + [l] && l !in front
    ensures |Members(s, ids)| == |Members(s, front)| + |Members(s, [l])|
  {
    assert Members(s, ids) == Members(s, front) + Members(s, [l]);
    assert Members(s, front) !! Members(s, [l]);
  }

  lemma StateIdsFacts(levels: nat)
    ensures NoDup(StateIds(levels))
    ensures forall l: ListId :: l in StateIds(levels) <==> (l.Ready? ==> l.p < levels)
  {
    ReadyIdsFacts(levels);
    var r, ids := ReadyIds(levels), StateIds(levels);
    assert forall i | 0 <= i < levels :: ids[i] == r[i];
    forall l: ListId ensures l in ids <==> (l.Ready? ==> l.p < levels) {
      if l.Ready? && l.p < levels { assert r[l.p] == l; }
      assert l in ids <==> l in r || l in [DelayedA, DelayedB, Suspended, Terminated];
    }
    assert ids[levels] == DelayedA && ids[levels + 1] == DelayedB && ids[levels + 2] == Suspended
      && ids[levels + 3] == Terminated;
  }

  lemma ReadyIdsFacts(n: nat)
    ensures |ReadyIds(n)| == n && forall i | 0 <= i < n :: ReadyIds(n)[i] == Ready(i)
  {
  }

  /** The state lists together hold every task exactly once: their lengths add up to
      uxCurrentNumberOfTasks, deleted tasks waiting for the idle task included. */
  lemma TasksConserved(s: Sched, steps: seq<Step>)
    requires Inv(s) && Legal(s, steps)
    ensures var s' := Exec(s, steps);
      TotalLength(s', StateIds(s'.levels)) == s'.numTasks && |InState(s', Terminated)| == s'.deleted
  {
    RunKept(s, steps);
    Conserved(Exec(s, steps));
  }

  lemma Conserved(s: Sched)
    requires Inv(s)
    ensures TotalLength(s, StateIds(s.levels)) == s.numTasks && |InState(s, Terminated)| == s.deleted
  {
    hide Valid, InOrder, Due, Bits;
    StateIdsFacts(s.levels);
    LengthsAreMembers(s, StateIds(s.levels));
    forall t | t in s.state.at ensures s.state.at[t] in StateIds(s.levels) {
      assert t in s.tcbs.Keys;
    }
    assert Members(s, StateIds(s.levels)) == s.tcbs.Keys;
  }
}
