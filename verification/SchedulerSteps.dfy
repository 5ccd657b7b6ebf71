/** Every operation of the scheduler as a step, the invariant all steps keep, and preemption. `Enabled`
    says what the source demands of the caller of each operation, `Apply` what the operation does, `Inv`
    what holds between any two of them. `Kept` is what each operation is proved to do beside keeping
    `Inv`: time never goes back, a running task stays a highest ready one or a switch is on its way, and
    a delayed task that the operation does not touch leaves the delayed lists exactly when it is due.
    The operations that are proved here move one task between two lists or none. */
module SchedulerSteps {
  import opened Machine
  import opened ListModel
  import opened ItemStore
  import opened Scheduler
  import opened SchedulerLists
  import opened SchedulerTick
  import opened SchedulerResume

  datatype Step =
    | Tick                                    // tick interrupt: xTaskIncrementTick
    | PendSv                                  // vTaskSwitchContext
    | SuspendScheduler                        // vTaskSuspendAll
    | ResumeScheduler                         // xTaskResumeAll
    | Yield                                   // portYIELD_WITHIN_API, taskYIELD
    | Delay(n: Machine.Tick)                  // the blocking part of vTaskDelay and vTaskDelayUntil
    | WaitOrdered(q: nat, n: Machine.Tick)    // vTaskPlaceOnEventList
    | WaitUnordered(q: nat, v: Machine.Tick, n: Machine.Tick)  // vTaskPlaceOnUnorderedEventList
    | WakeFirst(q: nat)                       // xTaskRemoveFromEventList, from a task or an interrupt
    | WakeOne(t: Task, v: Machine.Tick)       // vTaskRemoveFromUnorderedEventList
    | SuspendTask(t: Task) | ResumeTask(t: Task) | ResumeFromIsr(t: Task)
    | CreateTask(t: Task, p: nat) | DeleteTask(t: Task) | CleanUp
    | SetPriority(t: Task, p: nat)
    | ResetItemValue                          // uxTaskResetEventItemValue
    | TakeMutex | GiveMutex(q: nat) | InheritPriority(t: Task) | MutexTimeout(t: Task, p: nat)

  /** The running task is executing code of its own. */
  predicate TaskRuns(s: Sched) { IsReady(s, s.current) && !s.blocking }

  predicate Alive(s: Sched, t: Task) { t in s.tcbs && !InList(s, t, Terminated) }

  /** The running task may block: the scheduler is suspended around it, and the idle task never does. */
  predicate MayBlock(s: Sched, n: Machine.Tick) {
    TaskRuns(s) && s.suspended > 0 && s.current != s.idle && n >= 1
  }

  /** What the source asserts or documents of each caller. */
  predicate Enabled(s: Sched, step: Step) {
    match step
    case Tick => true
    case PendSv => s.owed
    case SuspendScheduler => TaskRuns(s)
    case ResumeScheduler => s.suspended > 0
    case Yield => s.suspended == 0
    case Delay(n) => MayBlock(s, n)
    case WaitOrdered(_, n) => MayBlock(s, n) && s.current !in s.event.at
    case WaitUnordered(_, v, n) => MayBlock(s, n) && s.current !in s.event.at && v < IN_USE
    case WakeFirst(q) => InEvent(s, WaitList(q)) != []
    case WakeOne(t, v) => s.suspended > 0 && t in s.event.at && v < IN_USE
    case SuspendTask(t) => TaskRuns(s) && Alive(s, t) && t != s.idle && (t == s.current ==> s.suspended == 0)
    case ResumeTask(t) => TaskRuns(s) && t in s.tcbs
    case ResumeFromIsr(t) => t in s.tcbs
    case CreateTask(t, p) => TaskRuns(s) && t !in s.tcbs && p < s.levels
    case DeleteTask(t) => TaskRuns(s) && Alive(s, t) && t != s.idle && (t == s.current ==> s.suspended == 0)
    case CleanUp => TaskRuns(s) && s.deleted > 0
    case SetPriority(t, p) => TaskRuns(s) && t in s.tcbs && p < s.levels
    case ResetItemValue => TaskRuns(s)
    case TakeMutex => TaskRuns(s)
    case GiveMutex(_) => TaskRuns(s) && T(s, s.current).held > 0
    case InheritPriority(t) => TaskRuns(s) && t in s.tcbs
    case MutexTimeout(t, p) => TaskRuns(s) && t in s.tcbs && p < s.levels
  }

  function Apply(s: Sched, step: Step): Sched {
    match step
    case Tick =>
      var r := IncrementTick(s);
      r.s.(owed := s.owed || r.switch, delivered := s.delivered + 1)
    case PendSv => Switch(s)
    case SuspendScheduler => s.(suspended := s.suspended + 1)
    case ResumeScheduler => ResumeAll(s)
    case Yield => s.(owed := true, blocking := false)
    case Delay(n) => BlockCurrent(s, n, false).(blocking := true)
    case WaitOrdered(q, n) => BlockOn(s, q, n).(blocking := true)
    case WaitUnordered(q, v, n) => BlockUnordered(s, q, v, n).(blocking := true)
    case WakeFirst(q) => WakeHead(s, q)
    case WakeOne(t, v) => WakeUnordered(s, t, v)
    case SuspendTask(t) => Scheduler.SuspendTask(s, t)
    case ResumeTask(t) => Resume(s, t)
    case ResumeFromIsr(t) => ResumeFromISR(s, t)
    case CreateTask(t, p) => Create(s, t, p)
    case DeleteTask(t) => Delete(s, t)
    case CleanUp => Cleanup(s)
    case SetPriority(t, p) => PrioritySet(s, t, p)
    case ResetItemValue => ResetItem(s)
    case TakeMutex => Scheduler.TakeMutex(s)
    case GiveMutex(q) => Scheduler.GiveMutex(s, q)
    case InheritPriority(t) => Inherit(s, t)
    case MutexTimeout(t, p) => DisinheritAfterTimeout(s, t, p)
  }

  /** Counters and life cycle: the termination list is as long as uxDeletedTasksWaitingCleanUp says,
      the idle task is always ready, pending wake-ups exist only while the scheduler is suspended,
      and every tick delivered has been counted or is pended. */
  ghost predicate Counted(s: Sched) {
    && |InState(s, Terminated)| == s.deleted && |s.tcbs| == s.numTasks
    && IsReady(s, s.idle) && s.current in s.tcbs
    && EventsLive(s)
    && (s.suspended == 0 ==> s.pended == 0 && forall t :: !Pending(s, t))
    && Now(s) + s.pended == s.delivered
  }

  ghost predicate Inv(s: Sched) { Core(s, {}, Now(s) + 1) && Counted(s) }

  /** No ready task outranks the running one, unless a switch is on its way. */
  ghost predicate Preemptive(s: Sched) {
    s.owed || s.yieldPending || forall t :: IsReady(s, t) ==> Prio(s, t) <= Prio(s, s.current)
  }

  /** The step may move t between lists for a reason of its own, not because its time has come. */
  predicate Touches(s: Sched, step: Step, t: Task) {
    match step
    case Delay(_) => t == s.current
    case WaitOrdered(_, _) => t == s.current
    case WaitUnordered(_, _, _) => t == s.current
    case WakeFirst(q) => s.suspended == 0 && InEvent(s, WaitList(q)) != [] && t == InEvent(s, WaitList(q))[0]
    case GiveMutex(q) => s.suspended == 0 && InEvent(s, WaitList(q)) != [] && t == InEvent(s, WaitList(q))[0]
    case WakeOne(x, _) => t == x
    case SuspendTask(x) => t == x
    case DeleteTask(x) => t == x
    case CreateTask(x, _) => t == x
    case ResumeScheduler => s.suspended == 1 && t in s.event.at && s.event.at[t] == PendingReady
    case _ => false
  }

  /** t keeps its due time and leaves the delayed lists exactly when unbounded time reaches it. */
  ghost predicate OnTime(s: Sched, s': Sched, t: Task) {
    && (IsDelayed(s', t) <==> IsDelayed(s, t) && T(s, t).due > Now(s'))
    && (IsDelayed(s', t) ==> T(s', t).due == T(s, t).due)
  }

  predicate Quiet(s: Sched) { !s.owed && !s.yieldPending }

  /** The two steps that can leave a higher ready task waiting. Disinheriting asks for a switch, but
      a waiting task that does not outrank the giver answers for it (queue.c:811-837). A mutex
      time-out raises the holder to a base priority that was set while it ran on an inherited one
      (tasks.c:1552-1562), or lowers the running task itself, without asking for a switch. */
  ghost predicate Strands(s: Sched, step: Step) {
    match step
    case GiveMutex(q) =>
      var r := Disinherit(s);
      Quiet(s) && r.switch && InEvent(s, WaitList(q)) != []
      && Prio(r.s, InEvent(s, WaitList(q))[0]) <= Prio(r.s, s.current)
      && exists t :: IsReady(r.s, t) && Prio(r.s, t) > Prio(r.s, s.current)
    case MutexTimeout(t, p) =>
      Quiet(s) && T(s, t).held == 1 && IsReady(s, t)
      && if t == s.current then exists x :: IsReady(s, x) && x != t && Prio(s, x) > (if T(s, t).base < p then p else T(s, t).base)
         else p > Prio(s, s.current) || T(s, t).base > Prio(s, s.current)
    case _ => false
  }

  /** The time-out step clears the bit of the new priority instead of the old one (tasks.c:4035):
      the old bit stays set although its list is now empty. */
  predicate StaleBit(s: Sched, step: Step) {
    step.MutexTimeout? && T(s, step.t).held == 1
    && Prio(s, step.t) != (if T(s, step.t).base < step.p then step.p else T(s, step.t).base)
    && IsReady(s, step.t) && |InState(s, Ready(Prio(s, step.t)))| == 1
  }

  ghost predicate Kept(s: Sched, step: Step) {
    && Inv(Apply(s, step))
    && Now(s) <= Now(Apply(s, step))
    && (Preemptive(s) ==> (Preemptive(Apply(s, step)) <==> !Strands(s, step)))
    && forall t :: !Touches(s, step, t) ==> OnTime(s, Apply(s, step), t)
  }

  lemma DelayedLater(s: Sched, t: Task)
    requires Core(s, {}, Now(s) + 1) && IsDelayed(s, t)
    ensures T(s, t).due > Now(s)
  {
    NotOverdue(s, t);
  }

  lemma TickKept(s: Sched)
    requires Inv(s)
    ensures Kept(s, Tick)
  {
    hide Core, IncrementTick;
    var r, s' := IncrementTick(s), Apply(s, Tick);
    if s.suspended > 0 {
      SuspendedTick(s);
    } else {
      TickExact(s);
      forall t ensures Pending(s', t) ==> Pending(s, t) {
        if t in s'.event.at { assert s'.event.at[t] == s.event.at[t]; }
      }
      forall t | IsReady(s', t) ensures IsReady(s, t) || DueNext(s, t) {
        assert r.s.state.at[t] == s'.state.at[t];
      }
      assert forall t :: Prio(s', t) == Prio(s, t);
      assert forall t :: DueNext(s, t) && Prio(s, t) >= Prio(s, s.current) ==> Challenger(s, t);
    }
    forall t | IsDelayed(s, t) ensures T(s, t).due > Now(s) { DelayedLater(s, t); }
    SameListsCore(r.s, s', {}, Now(r.s) + 1);
  }

  lemma SuspendedTick(s: Sched)
    requires Core(s, {}, Now(s) + 1) && s.suspended > 0
    ensures IncrementTick(s) == Ticked(s.(pended := s.pended + 1), s.yieldPending)
    ensures Core(IncrementTick(s).s, {}, Now(s) + 1)
  {
    SameListsCore(s, s.(pended := s.pended + 1), {}, Now(s) + 1);
  }

  /** Counted, but for a step that only changes flags and counters. */
  lemma SameListsFacts(s: Sched, s': Sched)
    requires SameLists(s, s') && EventsLive(s)
    ensures EventsLive(s') && InState(s', Terminated) == InState(s, Terminated)
    ensures forall t :: Pending(s', t) <==> Pending(s, t)
    ensures forall t :: Prio(s', t) == Prio(s, t) && IsReady(s', t) == IsReady(s, t)
    ensures forall t :: IsDelayed(s', t) == IsDelayed(s, t) && T(s', t) == T(s, t)
  {
    forall t ensures InList(s', t, Terminated) == InList(s, t, Terminated) {}
  }

  /** Steps that move nothing. */
  lemma FlagsKept(s: Sched, step: Step)
    requires Inv(s) && Enabled(s, step) && (step.Yield? || step.SuspendScheduler?)
    ensures Kept(s, step)
  {
    hide Core;
    SameListsCore(s, Apply(s, step), {}, Now(s) + 1);
    SameListsFacts(s, Apply(s, step));
    forall t | IsDelayed(s, t) ensures T(s, t).due > Now(s) { DelayedLater(s, t); }
  }

  /** The running task leaves its ready list for a delayed list or the suspended list. */
  lemma BlockCore(s: Sched, n: Machine.Tick, indefinitely: bool)
    requires Core(s, {}, Now(s) + 1) && IsReady(s, s.current) && s.current in s.tcbs && n >= 1
    ensures var s' := BlockCurrent(s, n, indefinitely);
      Core(s', {}, Now(s) + 1) && InState(s', Terminated) == InState(s, Terminated)
      && s' == s.(state := s'.state, top := s'.top, next := s'.next, tcbs := s'.tcbs)
      && s'.tcbs.Keys == s.tcbs.Keys && s'.state.at.Keys == s.state.at.Keys
      && (forall t :: t != s.current ==> T(s', t) == T(s, t))
      && T(s', s.current).prio == T(s, s.current).prio
      && (forall t {:trigger s'.state.at[t]} :: t in s.state.at && t != s.current ==> s'.state.at[t] == s.state.at[t])
      && (s'.state.at[s.current] == Suspended || IsDelayed(s', s.current))
  {
    hide Core, FileDelayed, PutEnd, Take;
    var t := s.current;
    OwnList(s, t);
    var u := Unready(s, t, Prio(s, t));
    UnreadyCore(s, t, Now(s) + 1);
    UnreadyFrame(s, t);
    if n == MAX_DELAY && indefinitely {
      PutCore(u, t, Suspended, Now(s) + 1);
    } else {
      FileDelayedCore(u, t, n);
      FileFrame(u, t, n);
    }
  }

  lemma OwnList(s: Sched, t: Task)
    requires Core(s, {}, Now(s) + 1) && IsReady(s, t)
    ensures s.state.at[t] == Ready(Prio(s, t)) && UnreadyDirect(s, t, Prio(s, t)) == Unready(s, t, Prio(s, t))
    ensures Prio(s, t) in s.top
  {
    assert t in InState(s, s.state.at[t]);
    UnreadyEither(s, t, Prio(s, t));
  }

  lemma UnreadyEither(s: Sched, t: Task, p: nat)
    requires InList(s, t, Ready(p))
    ensures UnreadyDirect(s, t, p) == Unready(s, t, p)
  {
    hide Take;
  }

  lemma FileFrame(s: Sched, t: Task, n: Machine.Tick)
    requires t in s.tcbs
    ensures var s' := FileDelayed(s, t, n);
      s' == s.(state := s'.state, next := s'.next, tcbs := s'.tcbs) && s'.tcbs.Keys == s.tcbs.Keys
      && (forall x :: x != t ==> T(s', x) == T(s, x)) && T(s', t).prio == T(s, t).prio
      && s'.state.at == s.state.at[t := if Add32(s.tick, n) < s.tick then OverflowList(s) else CurrentList(s)]
      && InState(s', Terminated) == InState(s, Terminated)
  {
    hide InsertAt, SearchPos;
  }

  /** A step that moves at most the items of task t, and no priority. */
  ghost predicate Moved(s: Sched, s': Sched, t: Task) {
    && s' == s.(state := s'.state, event := s'.event, top := s'.top, next := s'.next, tcbs := s'.tcbs,
                yieldPending := s'.yieldPending, owed := s'.owed, blocking := s'.blocking)
    && s'.tcbs.Keys == s.tcbs.Keys && s'.state.at.Keys == s.state.at.Keys
    && Prio(s', t) == Prio(s, t)
    && (forall x :: x != t ==> T(s', x) == T(s, x))
    && (forall x {:trigger s'.state.at[x]} :: x in s.state.at && x != t ==> s'.state.at[x] == s.state.at[x])
    && (forall x :: x != t && x in s'.event.at ==> x in s.event.at && s'.event.at[x] == s.event.at[x])
    && InState(s', Terminated) == InState(s, Terminated)
    && (t in s'.event.at ==> !InList(s', t, Terminated))
    && (s.suspended == 0 ==> !Pending(s', t))
    && (t == s.idle ==> IsReady(s', t))
    && (s.owed ==> s'.owed) && (s.yieldPending ==> s'.yieldPending)
  }

  lemma MovedKept(s: Sched, step: Step, t: Task)
    requires !Strands(s, step)
    requires Inv(s) && Moved(s, Apply(s, step), t) && Core(Apply(s, step), {}, Now(s) + 1)
    requires Touches(s, step, t) || OnTime(s, Apply(s, step), t)
    requires var s' := Apply(s, step);
      s'.owed || s'.yieldPending || !IsReady(s', t) || IsReady(s, t) || Prio(s, t) <= Prio(s, s.current)
    ensures Kept(s, step)
  {
    hide Core, Apply, Strands, Touches;
    var s' := Apply(s, step);
    forall x | IsDelayed(s, x) ensures T(s, x).due > Now(s) { DelayedLater(s, x); }
    AtKeys(s);
    AtKeys(s');
    MovedCounted(s, s', t);
    forall x | x != t ensures IsDelayed(s', x) == IsDelayed(s, x) && IsReady(s', x) == IsReady(s, x) {
      if x in s.state.at { assert s'.state.at[x] == s.state.at[x]; }
    }
  }

  lemma AtKeys(s: Sched)
    requires Core(s, {}, Now(s) + 1)
    ensures s.state.at.Keys == s.tcbs.Keys
  {
  }

  lemma MovedCounted(s: Sched, s': Sched, t: Task)
    requires Counted(s) && Moved(s, s', t) && s.state.at.Keys == s.tcbs.Keys
    ensures Counted(s')
  {
    forall x | x in s'.event.at ensures !InList(s', x, Terminated) {
      if x != t && x in s.state.at { assert s'.state.at[x] == s.state.at[x] && !InList(s, x, Terminated); }
    }
    if s.suspended == 0 {
      forall x ensures !Pending(s', x) {
        if x != t && x in s'.event.at { assert !Pending(s, x); }
      }
    }
    assert |s'.tcbs.Keys| == |s.tcbs.Keys|;
    if s.idle != t { assert s'.state.at[s.idle] == s.state.at[s.idle]; }
  }

  lemma DelayKept(s: Sched, n: Machine.Tick)
    requires Inv(s) && Enabled(s, Delay(n))
    ensures Kept(s, Delay(n))
  {
    hide Core, BlockCurrent;
    BlockCore(s, n, false);
    var s' := Apply(s, Delay(n));
    SameListsCore(BlockCurrent(s, n, false), s', {}, Now(s) + 1);
    assert Moved(s, s', s.current);
    MovedKept(s, Delay(n), s.current);
  }

  lemma PutEventCore(s: Sched, e: EventId, k: nat, t: Task)
    requires Core(s, {}, Now(s) + 1) && t in s.tcbs && t !in s.event.at
    ensures Core(s.(event := PutEnd(s.event, e, t)), {}, Now(s) + 1) && PutEnd(s.event, e, t).at == s.event.at[t := e]
    ensures k <= |InEvent(s, e)| ==>
      Core(s.(event := PutAt(s.event, e, k, t)), {}, Now(s) + 1) && PutAt(s.event, e, k, t).at == s.event.at[t := e]
  {
    hide PutEnd, PutAt;
    PutEndValid(s.event, e, t);
    EventCore(s, PutEnd(s.event, e, t), {}, Now(s) + 1);
    if k <= |InEvent(s, e)| {
      PutAtValid(s.event, e, k, t);
      EventCore(s, PutAt(s.event, e, k, t), {}, Now(s) + 1);
    }
  }

  lemma WaitOrderedKept(s: Sched, q: nat, n: Machine.Tick)
    requires Inv(s) && Enabled(s, WaitOrdered(q, n))
    ensures Kept(s, WaitOrdered(q, n))
  {
    hide Core, BlockCurrent, PutAt, SearchPos;
    var items := InEvent(s, WaitList(q));
    var k := SearchPos(EventKeys(s.tcbs, items), T(s, s.current).eventValue);
    var e := s.(event := PutAt(s.event, WaitList(q), k, s.current));
    PutEventCore(s, WaitList(q), k, s.current);
    BlockCore(e, n, true);
    var s' := Apply(s, WaitOrdered(q, n));
    var b := BlockCurrent(e, n, true);
    SameListsCore(b, s', {}, Now(s) + 1);
    assert forall x :: T(s', x) == T(b, x) && (x != s.current ==> T(e, x) == T(s, x));
    assert Moved(s, s', s.current);
    MovedKept(s, WaitOrdered(q, n), s.current);
  }

  lemma WaitUnorderedKept(s: Sched, q: nat, v: Machine.Tick, n: Machine.Tick)
    requires Inv(s) && Enabled(s, WaitUnordered(q, v, n))
    ensures Kept(s, WaitUnordered(q, v, n))
  {
    hide Core, BlockCurrent, PutEnd;
    var m := SetTcb(s, s.current, T(s, s.current).(eventValue := MarkInUse(v)));
    BoundedTcb(s, s.current);
    SetTcbCore(s, s.current, T(s, s.current).(eventValue := MarkInUse(v)), {}, Now(s) + 1);
    PutEventCore(m, WaitList(q), 0, s.current);
    var e := m.(event := PutEnd(m.event, WaitList(q), s.current));
    BlockCore(e, n, true);
    var s' := Apply(s, WaitUnordered(q, v, n));
    var b := BlockCurrent(e, n, true);
    SameListsCore(b, s', {}, Now(s) + 1);
    assert forall x :: T(s', x) == T(b, x) && (x != s.current ==> T(e, x) == T(s, x));
    assert Moved(s, s', s.current);
    MovedKept(s, WaitUnordered(q, v, n), s.current);
  }

  lemma BoundedTcb(s: Sched, t: Task)
    requires Core(s, {}, Now(s) + 1) && t in s.tcbs
    ensures s.tcbs[t].prio < s.levels <= 32 && s.tcbs[t].base < s.levels
  {
  }

  lemma HeadWaits(s: Sched, q: nat)
    requires Inv(s) && InEvent(s, WaitList(q)) != []
    ensures var t := InEvent(s, WaitList(q))[0];
      t in s.event.at && s.event.at[t] == WaitList(q) && t in s.tcbs && t in s.state.at && s.state.at[t] != Terminated
  {
    var t := InEvent(s, WaitList(q))[0];
    assert t in InEvent(s, WaitList(q));
    assert !InList(s, t, Terminated);
  }

  /** A task taken off its event list and made ready. */
  lemma ReadiedMoved(s: Sched, t: Task)
    requires Inv(s) && t in s.tcbs && t in s.state.at && s.state.at[t] != Terminated
    ensures var m := AddReady(RemoveState(RemoveEvent(s, t), t), t);
      Core(m, {}, Now(s) + 1) && Moved(s, m, t) && IsReady(m, t)
  {
    hide Core, AddReady;
    var e := RemoveEvent(s, t);
    RemoveEventCore(s, t, {}, Now(s) + 1);
    TimeOutSwap(s, t);
    TimeOutClock(s, t);
    AtKeys(s);
    MoveToReadyCore(e, t, Now(s) + 1);
    var m := AddReady(RemoveState(e, t), t);
    assert InState(m, Terminated) == InState(e, Terminated) == InState(s, Terminated);
  }

  lemma FlagsMoved(s: Sched, m: Sched, s': Sched, t: Task)
    requires Core(m, {}, Now(s) + 1) && Moved(s, m, t)
    requires s' == m.(yieldPending := s'.yieldPending, owed := s'.owed)
    requires (m.owed ==> s'.owed) && (m.yieldPending ==> s'.yieldPending)
    ensures Core(s', {}, Now(s) + 1) && Moved(s, s', t) && IsReady(s', t) == IsReady(m, t)
    ensures s'.epoch == s.epoch && s'.tick == s.tick
  {
    hide Core;
    SameListsCore(m, s', {}, Now(s) + 1);
    assert forall x :: T(s', x) == T(m, x);
    assert InList(s', t, Terminated) == InList(m, t, Terminated);
  }

  /** While the scheduler is suspended a woken task's event item goes to the pending ready list. */
  lemma PendedMoved(s: Sched, t: Task)
    requires Inv(s) && s.suspended > 0 && t in s.tcbs && t in s.state.at && s.state.at[t] != Terminated
    ensures var m := PutPending(RemoveEvent(s, t), t);
      Core(m, {}, Now(s) + 1) && Moved(s, m, t) && m.state == s.state && m.tcbs == s.tcbs
  {
    hide Core, PutEnd, Take, EventsLive, PutAt;
    var e := RemoveEvent(s, t);
    RemoveEventCore(s, t, {}, Now(s) + 1);
    PutEventCore(e, PendingReady, 0, t);
  }

  lemma WakeFirstKept(s: Sched, q: nat)
    requires Inv(s) && Enabled(s, WakeFirst(q))
    ensures Kept(s, WakeFirst(q))
  {
    hide Core, AddReady, Moved, PutPending, RemoveEvent, RemoveState;
    HeadWaits(s, q);
    var t, s' := InEvent(s, WaitList(q))[0], Apply(s, WakeFirst(q));
    var m;
    if s.suspended == 0 {
      ReadiedMoved(s, t);
      m := AddReady(RemoveState(RemoveEvent(s, t), t), t);
    } else {
      PendedMoved(s, t);
      m := PutPending(RemoveEvent(s, t), t);
    }
    FlagsMoved(s, m, s', t);
    SameState(s, s', t);
    MovedKept(s, WakeFirst(q), t);
  }

  lemma SameState(s: Sched, s': Sched, t: Task)
    requires Inv(s) && s'.epoch == s.epoch && s'.tick == s.tick
    ensures s'.state == s.state && s'.tcbs == s.tcbs ==> OnTime(s, s', t) && IsReady(s', t) == IsReady(s, t)
  {
    if IsDelayed(s, t) { DelayedLater(s, t); }
  }

  lemma WakeOneKept(s: Sched, t: Task, v: Machine.Tick)
    requires Inv(s) && Enabled(s, WakeOne(t, v))
    ensures Kept(s, WakeOne(t, v))
  {
    hide Core, AddReady, Moved, RemoveEvent, RemoveState;
    var tcb := T(s, t).(eventValue := MarkInUse(v));
    var e, s' := SetTcb(s, t, tcb), Apply(s, WakeOne(t, v));
    LentInv(s, t, tcb);
    ReadiedMoved(e, t);
    var m := AddReady(RemoveState(RemoveEvent(e, t), t), t);
    MovedFrom(s, e, m, t);
    FlagsMoved(s, m, s', t);
    MovedKept(s, WakeOne(t, v), t);
  }

  /** Only the event item's value changes. */
  lemma LentInv(s: Sched, t: Task, tcb: Tcb)
    requires Inv(s) && t in s.event.at && tcb == T(s, t).(eventValue := tcb.eventValue)
    ensures Inv(SetTcb(s, t, tcb)) && t in s.tcbs && t in s.state.at && s.state.at[t] != Terminated
    ensures Prio(SetTcb(s, t, tcb), t) == Prio(s, t)
  {
    hide Valid, InOrder, Due, Bits;
    assert !InList(s, t, Terminated);
    BoundedTcb(s, t);
    SetTcbCore(s, t, tcb, {}, Now(s) + 1);
    var s' := SetTcb(s, t, tcb);
    assert s'.tcbs.Keys == s.tcbs.Keys;
    assert |s'.tcbs.Keys| == |s.tcbs.Keys|;
    forall x ensures InList(s', x, Terminated) == InList(s, x, Terminated) && Pending(s', x) == Pending(s, x) {}
  }

  lemma MovedFrom(s: Sched, e: Sched, m: Sched, t: Task)
    requires e == s.(tcbs := e.tcbs) && e.tcbs.Keys == s.tcbs.Keys && (forall x :: x != t ==> T(e, x) == T(s, x))
    requires Prio(e, t) == Prio(s, t) && Moved(e, m, t)
    ensures Moved(s, m, t) && Now(e) == Now(s)
  {
    forall x | x != t ensures T(m, x) == T(s, x) { assert T(m, x) == T(e, x); }
    assert Pending(e, t) == Pending(s, t);
  }

  lemma SuspendTaskKept(s: Sched, t: Task)
    requires Inv(s) && Enabled(s, SuspendTask(t))
    ensures Kept(s, SuspendTask(t))
  {
    hide Core, Unready, RemoveEvent, PutEnd, Moved;
    var u := Unready(s, t, Prio(s, t));
    UnreadyCore(s, t, Now(s) + 1);
    UnreadyFrame(s, t);
    var e := RemoveEvent(u, t);
    RemoveEventCore(u, t, {t}, Now(s) + 1);
    RemoveEventFrame(u, t);
    PutCore(e, t, Suspended, Now(s) + 1);
    var p := PutSuspended(e, t);
    ResetNextCore(p, {}, Now(s) + 1);
    AtKeys(s);
    SuspendMoved(s, u, e, p, t);
    NextMoved(s, p, t);
    FlagsMoved(s, ResetNext(p), Apply(s, SuspendTask(t)), t);
    SuspendedNotReady(p, Apply(s, SuspendTask(t)), t);
    MovedKept(s, SuspendTask(t), t);
  }

  lemma RemoveEventFrame(s: Sched, t: Task)
    ensures var e := RemoveEvent(s, t); e == s.(event := e.event) && Now(e) == Now(s)
  {
  }

  lemma SuspendedNotReady(m: Sched, s': Sched, t: Task)
    requires s'.state == m.state && InList(m, t, Suspended)
    ensures !IsReady(s', t) && !IsDelayed(s', t)
  {
  }

  lemma SuspendMoved(s: Sched, u: Sched, e: Sched, p: Sched, t: Task)
    requires t in s.tcbs && t != s.idle && s.state.at.Keys == s.tcbs.Keys && s.state.at[t] != Terminated
    requires u == s.(state := u.state, top := u.top) && u.state.at == s.state.at - {t}
    requires forall l :: l != s.state.at[t] ==> InState(u, l) == InState(s, l)
    requires e == u.(event := e.event) && e.event.at == s.event.at - {t}
    requires p == e.(state := p.state) && p.state.at == e.state.at[t := Suspended]
    requires forall l :: l != Suspended ==> InState(p, l) == InState(e, l)
    ensures Moved(s, p, t) && InList(p, t, Suspended)
  {
    assert InState(p, Terminated) == InState(e, Terminated) == InState(u, Terminated);
  }

  lemma NextMoved(s: Sched, p: Sched, t: Task)
    requires Moved(s, p, t)
    ensures var m := ResetNext(p);
      Moved(s, m, t) && m.state == p.state && m == p.(next := m.next)
  {
    var m := ResetNext(p);
    assert forall x :: T(m, x) == T(p, x);
    assert Pending(m, t) == Pending(p, t) && IsReady(m, t) == IsReady(p, t);
    assert InList(m, t, Terminated) == InList(p, t, Terminated);
  }

  lemma ReadiedOnly(s: Sched, t: Task)
    requires Inv(s) && t in s.tcbs && t !in s.event.at && s.state.at.Keys == s.tcbs.Keys && s.state.at[t] == Suspended
    ensures var m := AddReady(RemoveState(s, t), t);
      Core(m, {}, Now(s) + 1) && Moved(s, m, t) && IsReady(m, t)
  {
    ReadiedMoved(s, t);
    NoEvent(s, t);
  }

  lemma NoEvent(s: Sched, t: Task)
    requires t !in s.event.at
    ensures RemoveEvent(s, t) == s
  {
  }

  lemma NotDelayedEither(s: Sched, s': Sched, t: Task)
    requires InList(s, t, Suspended) && IsReady(s', t)
    ensures OnTime(s, s', t)
  {
  }

  lemma UnchangedKept(s: Sched, step: Step)
    requires Inv(s) && Apply(s, step) == s && (Preemptive(s) ==> !Strands(s, step))
    ensures Kept(s, step)
  {
    hide Core, Apply, Strands;
    forall t | IsDelayed(s, t) ensures T(s, t).due > Now(s) { DelayedLater(s, t); }
  }

  lemma ResumeTaskKept(s: Sched, t: Task)
    requires Inv(s) && Enabled(s, ResumeTask(t))
    ensures Kept(s, ResumeTask(t))
  {
    hide Core, AddReady, RemoveState, Moved, OnTime, Preemptive;
    var s' := Apply(s, ResumeTask(t));
    if t == s.current || !IsSuspended(s, t) {
      UnchangedKept(s, ResumeTask(t));
    } else {
      AtKeys(s);
      ReadiedOnly(s, t);
      FlagsMoved(s, AddReady(RemoveState(s, t), t), s', t);
      NotDelayedEither(s, s', t);
      MovedKept(s, ResumeTask(t), t);
    }
  }

  lemma ResumeFromIsrKept(s: Sched, t: Task)
    requires Inv(s) && Enabled(s, ResumeFromIsr(t))
    ensures Kept(s, ResumeFromIsr(t))
  {
    if !IsSuspended(s, t) {
      UnchangedKept(s, ResumeFromIsr(t));
    } else if s.suspended > 0 {
      ResumePended(s, t);
    } else {
      ResumeDirect(s, t);
    }
  }

  lemma ResumePended(s: Sched, t: Task)
    requires Inv(s) && Enabled(s, ResumeFromIsr(t)) && IsSuspended(s, t) && s.suspended > 0
    ensures Kept(s, ResumeFromIsr(t))
  {
    hide Core, Moved, OnTime, Preemptive, PutPending, RemoveEvent;
    var s' := Apply(s, ResumeFromIsr(t));
    AtKeys(s);
    PendedMoved(s, t);
    NoEvent(s, t);
    FlagsMoved(s, PutPending(s, t), s', t);
    SameState(s, s', t);
    MovedKept(s, ResumeFromIsr(t), t);
  }

  lemma ResumeDirect(s: Sched, t: Task)
    requires Inv(s) && Enabled(s, ResumeFromIsr(t)) && IsSuspended(s, t) && s.suspended == 0
    ensures Kept(s, ResumeFromIsr(t))
  {
    hide Core, AddReady, RemoveState, Moved, OnTime, Preemptive;
    var s' := Apply(s, ResumeFromIsr(t));
    AtKeys(s);
    ReadiedOnly(s, t);
    FlagsMoved(s, AddReady(RemoveState(s, t), t), s', t);
    NotDelayedEither(s, s', t);
    MovedKept(s, ResumeFromIsr(t), t);
  }

  // ---- changing priorities ----

  /** A step that changes the priority of t and, if t is ready, its ready list. */
  ghost predicate Reprioritised(s: Sched, s': Sched, t: Task) {
    && s' == s.(state := s'.state, top := s'.top, tcbs := s'.tcbs, owed := s'.owed)
    && s'.tcbs.Keys == s.tcbs.Keys && s'.state.at.Keys == s.state.at.Keys
    && T(s', t).wake == T(s, t).wake && T(s', t).due == T(s, t).due
    && (forall x :: x != t ==> T(s', x) == T(s, x))
    && (forall x {:trigger s'.state.at[x]} :: x in s.state.at && (x != t || !IsReady(s, t)) ==> s'.state.at[x] == s.state.at[x])
    && (IsReady(s, t) ==> IsReady(s', t))
    && InState(s', Terminated) == InState(s, Terminated)
  }

  lemma ReprioKept(s: Sched, step: Step, t: Task)
    requires Inv(s) && Reprioritised(s, Apply(s, step), t) && Core(Apply(s, step), {}, Now(s) + 1)
    requires Preemptive(s) ==> (Preemptive(Apply(s, step)) <==> !Strands(s, step))
    ensures Kept(s, step)
  {
    hide Core, Apply, Strands, Touches, Preemptive;
    ReprioInv(s, Apply(s, step), t);
  }

  lemma ReprioInv(s: Sched, s': Sched, t: Task)
    requires Inv(s) && Reprioritised(s, s', t) && Core(s', {}, Now(s) + 1)
    ensures Inv(s') && Now(s') == Now(s) && forall x :: OnTime(s, s', x)
  {
    hide Core;
    forall x | IsDelayed(s, x) ensures T(s, x).due > Now(s) { DelayedLater(s, x); }
    AtKeys(s);
    AtKeys(s');
    forall x ensures IsDelayed(s', x) == IsDelayed(s, x) && InList(s', x, Terminated) == InList(s, x, Terminated)
      && IsReady(s', x) == IsReady(s, x) && Pending(s', x) == Pending(s, x)
    {
      if x in s.state.at && (x != t || !IsReady(s, t)) { assert s'.state.at[x] == s.state.at[x]; }
    }
    assert |s'.tcbs.Keys| == |s.tcbs.Keys|;
  }

  lemma ReprioReady(s: Sched, s': Sched, t: Task)
    requires Core(s, {}, Now(s) + 1) && Reprioritised(s, s', t)
    ensures forall x :: IsReady(s', x) == IsReady(s, x)
  {
    AtKeys(s);
    forall x ensures IsReady(s', x) == IsReady(s, x) {
      if x in s.state.at && (x != t || !IsReady(s, t)) { assert s'.state.at[x] == s.state.at[x]; }
    }
  }

  /** Out of one ready list, a new priority, into the list of that priority. */
  lemma RelistCore(s: Sched, t: Task, tcb: Tcb)
    requires Core(s, {}, Now(s) + 1) && IsReady(s, t) && t in s.tcbs
    requires tcb.wake == s.tcbs[t].wake && tcb.due == s.tcbs[t].due && tcb.prio < s.levels && tcb.base < s.levels
    ensures var m := AddReady(SetTcb(Unready(s, t, Prio(s, t)), t, tcb), t);
      Core(m, {}, Now(s) + 1) && Reprioritised(s, m, t)
  {
    hide Core, Unready, AddReady;
    OwnList(s, t);
    var u := Unready(s, t, Prio(s, t));
    UnreadyCore(s, t, Now(s) + 1);
    UnreadyFrame(s, t);
    SetTcbCore(u, t, tcb, {t}, Now(s) + 1);
    AddReadyCore(SetTcb(u, t, tcb), t, Now(s) + 1);
    RelistFrame(s, u, t, tcb);
  }

  lemma RelistFrame(s: Sched, u: Sched, t: Task, tcb: Tcb)
    requires u == s.(state := u.state, top := u.top) && u.state.at == s.state.at - {t} && IsReady(s, t) && t in s.tcbs
    requires tcb.wake == s.tcbs[t].wake && tcb.due == s.tcbs[t].due
    requires InState(u, Terminated) == InState(s, Terminated)
    requires InState(AddReady(SetTcb(u, t, tcb), t), Terminated) == InState(SetTcb(u, t, tcb), Terminated)
    requires AddReady(SetTcb(u, t, tcb), t).state.at == u.state.at[t := Ready(tcb.prio)]
    ensures Reprioritised(s, AddReady(SetTcb(u, t, tcb), t), t)
  {
    hide PutEnd;
  }

  /** The new control block is written first in vTaskPrioritySet: the order does not matter. */
  lemma RelistOrder(s: Sched, t: Task, tcb: Tcb, p: nat)
    requires InList(s, t, Ready(p))
    ensures UnreadyDirect(SetTcb(s, t, tcb), t, p) == SetTcb(Unready(s, t, p), t, tcb)
  {
    UnreadyEither(s, t, p);
    hide Take;
  }

  /** A new control block for a task that is in no ready list. */
  lemma OnlyTcb(s: Sched, t: Task, tcb: Tcb)
    requires Core(s, {}, Now(s) + 1) && t in s.tcbs && (!IsReady(s, t) || tcb.prio == s.tcbs[t].prio)
    requires tcb.wake == s.tcbs[t].wake && tcb.due == s.tcbs[t].due && tcb.prio < s.levels && tcb.base < s.levels
    ensures Core(SetTcb(s, t, tcb), {}, Now(s) + 1) && Reprioritised(s, SetTcb(s, t, tcb), t)
  {
    SetTcbCore(s, t, tcb, {}, Now(s) + 1);
    hide Core;
  }
}
