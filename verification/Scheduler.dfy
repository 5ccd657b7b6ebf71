/** The scheduler state of tasks.c and its operations, each as a step on that state.
    Every step is one critical section, one interrupt, or one context switch. */
module Scheduler {
  import opened Machine
  import opened ListModel
  import opened ItemStore

  type Task = nat

  /** The lists a task's xStateListItem can be in. */
  datatype ListId = Ready(p: nat) | DelayedA | DelayedB | Suspended | Terminated

  /** The lists a task's xEventListItem can be in. */
  datatype EventId = PendingReady | WaitList(q: nat)

  /** The task control block. `due` is not in the source: it is the unbounded time at which a
      delayed task is to wake. */
  datatype Tcb = Tcb(prio: nat, base: nat, held: nat, wake: Tick, eventValue: int, due: nat)

  datatype Sched = Sched(
    levels: nat,              // configMAX_PRIORITIES
    idle: Task,
    tcbs: map<Task, Tcb>,
    state: Store<Task, ListId>,
    event: Store<Task, EventId>,
    top: set<nat>,            // uxTopReadyPriority, as the set of its bits
    current: Task,            // pxCurrentTCB
    swapped: bool,            // pxDelayedTaskList == &xDelayedTaskList2
    tick: Tick,               // xTickCount
    next: Tick,               // xNextTaskUnblockTime
    suspended: nat,           // uxSchedulerSuspended
    pended: nat,              // uxPendedTicks
    yieldPending: bool,       // xYieldPending
    numTasks: nat,            // uxCurrentNumberOfTasks
    deleted: nat,             // uxDeletedTasksWaitingCleanUp
    owed: bool,               // a PendSV is pending, or an ISR was told to request one
    blocking: bool,           // the running task is inside a call that ends by yielding
    epoch: nat,               // xNumOfOverflows, not wrapped
    delivered: nat            // tick interrupts so far: not in the source
  )

  /** taskEVENT_LIST_ITEM_VALUE_IN_USE: the top bit of the event item's value. */
  const IN_USE: int := 0x8000_0000

  function CurrentList(s: Sched): ListId { if s.swapped then DelayedB else DelayedA }

  function OverflowList(s: Sched): ListId { if s.swapped then DelayedA else DelayedB }

  function Now(s: Sched): nat { Stamp(s.epoch, s.tick) }

  function InState(s: Sched, l: ListId): seq<Task> { Items(s.state, l) }

  function InEvent(s: Sched, e: EventId): seq<Task> { Items(s.event, e) }

  /** A task's control block; the default stands for an unknown task and is never used on one. */
  function T(s: Sched, t: Task): Tcb {
    if t in s.tcbs then s.tcbs[t] else Tcb(0, 0, 0, 0, 0, 0)
  }

  function Prio(s: Sched, t: Task): nat { T(s, t).prio }

  predicate IsReady(s: Sched, t: Task) { t in s.state.at && s.state.at[t].Ready? }

  predicate InList(s: Sched, t: Task, l: ListId) { t in s.state.at && s.state.at[t] == l }

  predicate IsDelayed(s: Sched, t: Task) { InList(s, t, DelayedA) || InList(s, t, DelayedB) }

  function RemoveState(s: Sched, t: Task): Sched { s.(state := Take(s.state, t)) }

  /** uxListRemove on the event item, if it is in a list. */
  function RemoveEvent(s: Sched, t: Task): Sched { s.(event := Take(s.event, t)) }

  predicate Emptied(s: Sched, t: Task) {
    t in s.state.at && |Items(Take(s.state, t), s.state.at[t])| == 0
  }

  /** uxListRemove on the state item and, when that empties its list, taskRESET_READY_PRIORITY( p ),
      which clears the bit only if ready list p is empty (tasks.c:197-203). */
  function Unready(s: Sched, t: Task, p: nat): Sched {
    var s' := RemoveState(s, t);
    if Emptied(s, t) && InState(s', Ready(p)) == [] then s'.(top := s.top - {p}) else s'
  }

  /** The same with portRESET_READY_PRIORITY( p ), which clears the bit without looking. */
  function UnreadyDirect(s: Sched, t: Task, p: nat): Sched {
    var s' := RemoveState(s, t);
    if Emptied(s, t) then s'.(top := s.top - {p}) else s'
  }

  /** prvAddTaskToReadyList. */
  function AddReady(s: Sched, t: Task): Sched {
    s.(state := PutEnd(s.state, Ready(Prio(s, t)), t), top := s.top + {Prio(s, t)})
  }

  function PutSuspended(s: Sched, t: Task): Sched { s.(state := PutEnd(s.state, Suspended, t)) }

  function PutPending(s: Sched, t: Task): Sched { s.(event := PutEnd(s.event, PendingReady, t)) }

  function SetTcb(s: Sched, t: Task, tcb: Tcb): Sched { s.(tcbs := s.tcbs[t := tcb]) }

  function Wake(tcbs: map<Task, Tcb>, t: Task): Tick { if t in tcbs then tcbs[t].wake else 0 }

  function WakeKeys(tcbs: map<Task, Tcb>, items: seq<Task>): (keys: seq<int>)
    ensures |keys| == |items|
  {
    seq(|items|, i requires 0 <= i < |items| => Wake(tcbs, items[i]))
  }

  function EventKeys(tcbs: map<Task, Tcb>, items: seq<Task>): (keys: seq<int>)
    ensures |keys| == |items|
  {
    seq(|items|, i requires 0 <= i < |items| => if items[i] in tcbs then tcbs[items[i]].eventValue else 0)
  }

  /** prvResetNextTaskUnblockTime. */
  function ResetNext(s: Sched): Sched {
    var l := InState(s, CurrentList(s));
    s.(next := if l == [] then MAX_DELAY else Wake(s.tcbs, l[0]))
  }

  /** The part of prvAddCurrentTaskToDelayedList that files the task by its wake time. */
  function FileDelayed(s: Sched, t: Task, n: Tick): Sched {
    var w := Add32(s.tick, n);
    var tcbs := s.tcbs[t := T(s, t).(wake := w, due := Now(s) + n)];
    var l := if w < s.tick then OverflowList(s) else CurrentList(s);
    var k := SearchPos(WakeKeys(tcbs, InState(s, l)), w);
    s.(tcbs := tcbs, state := PutAt(s.state, l, k, t), next := if w >= s.tick && w < s.next then w else s.next)
  }

  /** prvAddCurrentTaskToDelayedList. */
  function BlockCurrent(s: Sched, n: Tick, indefinitely: bool): Sched {
    var s1 := UnreadyDirect(s, s.current, Prio(s, s.current));
    if n == MAX_DELAY && indefinitely then PutSuspended(s1, s.current) else FileDelayed(s1, s.current, n)
  }

  /** vTaskPlaceOnEventList: the wait list is ordered by event item value. */
  function BlockOn(s: Sched, q: nat, n: Tick): Sched {
    var items := InEvent(s, WaitList(q));
    var k := SearchPos(EventKeys(s.tcbs, items), T(s, s.current).eventValue);
    BlockCurrent(s.(event := PutAt(s.event, WaitList(q), k, s.current)), n, true)
  }

  /** vTaskPlaceOnUnorderedEventList. */
  function BlockUnordered(s: Sched, q: nat, v: Tick, n: Tick): Sched {
    var s1 := SetTcb(s, s.current, T(s, s.current).(eventValue := MarkInUse(v)));
    BlockCurrent(s1.(event := PutEnd(s1.event, WaitList(q), s.current)), n, true)
  }

  function MarkInUse(v: Tick): int { if v < IN_USE then v + IN_USE else v }

  /** One task whose time has come, in xTaskIncrementTick. */
  function TimeOut(s: Sched, t: Task): Sched { AddReady(RemoveEvent(RemoveState(s, t), t), t) }

  datatype Ticked = Ticked(s: Sched, switch: bool)

  /** The unblocking loop of xTaskIncrementTick; `fuel` bounds it by the length of the list. */
  function Unblock(s: Sched, switch: bool, fuel: nat): Ticked
    decreases fuel
  {
    var l := InState(s, CurrentList(s));
    if l == [] then Ticked(s.(next := MAX_DELAY), switch)
    else if s.tick < Wake(s.tcbs, l[0]) || fuel == 0 then Ticked(s.(next := Wake(s.tcbs, l[0])), switch)
    else Unblock(TimeOut(s, l[0]), switch || Prio(s, l[0]) >= Prio(s, s.current), fuel - 1)
  }

  /** Counting the tick, and taskSWITCH_DELAYED_LISTS when it wraps to zero. */
  function Advanced(s: Sched): Sched {
    if s.tick == MAX_DELAY then ResetNext(s.(tick := 0, swapped := !s.swapped, epoch := s.epoch + 1))
    else s.(tick := s.tick + 1)
  }

  /** xTaskIncrementTick. */
  function IncrementTick(s: Sched): Ticked {
    if s.suspended > 0 then Ticked(s.(pended := s.pended + 1), s.yieldPending) else
    var s1 := Advanced(s);
    var r := if s1.tick >= s1.next then Unblock(s1, false, |InState(s1, CurrentList(s1))|) else Ticked(s1, false);
    var share := |InState(r.s, Ready(Prio(s, s.current)))| > 1;
    Ticked(r.s, r.switch || share || s.yieldPending)
  }

  /** The loop of xTaskResumeAll that readies the tasks ISRs have woken. */
  function Drain(s: Sched, fuel: nat): Sched
    decreases fuel
  {
    var l := InEvent(s, PendingReady);
    if l == [] || fuel == 0 then s else
    var s1 := AddReady(RemoveState(RemoveEvent(s, l[0]), l[0]), l[0]);
    Drain(if Prio(s, l[0]) >= Prio(s, s.current) then s1.(yieldPending := true) else s1, fuel - 1)
  }

  /** The loop of xTaskResumeAll that processes the ticks held back. */
  function Replay(s: Sched, n: nat): Sched
    decreases n
  {
    if n == 0 then s else
    var r := IncrementTick(s);
    Replay(if r.switch then r.s.(yieldPending := true) else r.s, n - 1)
  }

  function ReadyPended(s: Sched): Sched {
    var l := InEvent(s, PendingReady);
    if l == [] then s else ResetNext(Drain(s, |l|))
  }

  /** xTaskResumeAll. */
  function ResumeAll(s: Sched): Sched {
    if s.suspended != 1 then s.(suspended := if s.suspended == 0 then 0 else s.suspended - 1) else
    var s1 := ReadyPended(s.(suspended := 0));
    var s2 := Replay(s1, s1.pended).(pended := 0);
    s2.(owed := s2.owed || s2.yieldPending)
  }

  /** xTaskRemoveFromEventList: the head of the wait list, straight to its ready list or, while the
      scheduler is suspended, to the pending ready list. */
  function WakeHead(s: Sched, q: nat): Sched {
    var l := InEvent(s, WaitList(q));
    if l == [] then s else
    var s1 := RemoveEvent(s, l[0]);
    var s2 := if s.suspended == 0 then AddReady(RemoveState(s1, l[0]), l[0]) else PutPending(s1, l[0]);
    if Prio(s, l[0]) > Prio(s, s.current) then s2.(yieldPending := true, owed := true) else s2
  }

  /** vTaskRemoveFromUnorderedEventList. */
  function WakeUnordered(s: Sched, t: Task, v: Tick): Sched {
    var s1 := RemoveEvent(SetTcb(s, t, T(s, t).(eventValue := MarkInUse(v))), t);
    var s2 := AddReady(RemoveState(s1, t), t);
    if Prio(s, t) > Prio(s, s.current) then s2.(yieldPending := true) else s2
  }

  /** vTaskSuspend. */
  function SuspendTask(s: Sched, t: Task): Sched {
    var s1 := ResetNext(PutSuspended(RemoveEvent(Unready(s, t, Prio(s, t)), t), t));
    if t == s.current then s1.(owed := true) else s1
  }

  /** prvTaskIsTaskSuspended: in the suspended list, and not because of an indefinite wait. */
  predicate IsSuspended(s: Sched, t: Task) { InList(s, t, Suspended) && t !in s.event.at }

  /** vTaskResume. */
  function Resume(s: Sched, t: Task): Sched {
    if t == s.current || !IsSuspended(s, t) then s else
    var s1 := AddReady(RemoveState(s, t), t);
    if Prio(s, t) >= Prio(s, s.current) then s1.(owed := true) else s1
  }

  /** xTaskResumeFromISR. */
  function ResumeFromISR(s: Sched, t: Task): Sched {
    if !IsSuspended(s, t) then s
    else if s.suspended > 0 then PutPending(s, t) else
    var s1 := AddReady(RemoveState(s, t), t);
    if Prio(s, t) >= Prio(s, s.current) then s1.(owed := true) else s1
  }

  /** vTaskDelete: a task that deletes itself waits for the idle task in the termination list. */
  function Delete(s: Sched, t: Task): Sched {
    var s1 := RemoveEvent(Unready(s, t, Prio(s, t)), t);
    if t == s.current then
      s1.(state := PutEnd(s1.state, Terminated, t), deleted := s.deleted + 1, owed := true)
    else ResetNext(s1.(tcbs := s1.tcbs - {t}, numTasks := if s.numTasks == 0 then 0 else s.numTasks - 1))
  }

  /** One round of prvCheckTasksWaitingTermination. */
  function Cleanup(s: Sched): Sched {
    var l := InState(s, Terminated);
    if l == [] || s.deleted == 0 || s.numTasks == 0 then s else
    RemoveState(s, l[0]).(tcbs := s.tcbs - {l[0]}, numTasks := s.numTasks - 1, deleted := s.deleted - 1)
  }

  /** All of prvCheckTasksWaitingTermination, for n tasks. */
  function CleanupAll(s: Sched, n: nat): Sched
    decreases n
  {
    if n == 0 then s else CleanupAll(Cleanup(s), n - 1)
  }

  /** prvAddNewTaskToReadyList, once the scheduler runs. */
  function Create(s: Sched, t: Task, p: nat): Sched {
    var tcb := Tcb(p, p, 0, 0, s.levels - p, 0);
    var s1 := AddReady(SetTcb(s, t, tcb).(numTasks := s.numTasks + 1), t);
    if Prio(s, s.current) < p then s1.(owed := true) else s1
  }

  /** The event item's value for a priority, unless the item is lent to an event group. */
  function EventValueFor(s: Sched, value: int, p: nat): int {
    if value >= IN_USE then value else s.levels - p
  }

  /** uxTaskResetEventItemValue: the running task takes its event item back, as it is kept outside event groups. */
  function ResetItem(s: Sched): Sched {
    SetTcb(s, s.current, T(s, s.current).(eventValue := s.levels - Prio(s, s.current)))
  }

  /** vTaskPrioritySet. */
  function PrioritySet(s: Sched, t: Task, p: nat): Sched {
    var tcb := T(s, t);
    if tcb.base == p then s else
    var yield' := if p > tcb.base then t != s.current && p >= Prio(s, s.current) else t == s.current;
    var s1 := SetTcb(s, t, tcb.(prio := if tcb.base == tcb.prio then p else tcb.prio, base := p,
      eventValue := EventValueFor(s, tcb.eventValue, p)));
    var s2 := if InList(s, t, Ready(tcb.prio)) then AddReady(UnreadyDirect(s1, t, tcb.prio), t) else s1;
    if yield' then s2.(owed := true) else s2
  }

  /** xTaskPriorityInherit. */
  function Inherit(s: Sched, holder: Task): Sched {
    var tcb, p := T(s, holder), Prio(s, s.current);
    if tcb.prio >= p then s else
    var raised := tcb.(prio := p, eventValue := EventValueFor(s, tcb.eventValue, p));
    if InList(s, holder, Ready(tcb.prio))
    then AddReady(SetTcb(Unready(s, holder, tcb.prio), holder, raised), holder)
    else SetTcb(s, holder, raised)
  }

  /** xTaskPriorityDisinherit, by the running task; the flag is its return value. */
  function Disinherit(s: Sched): Ticked {
    var tcb := T(s, s.current);
    var held := if tcb.held == 0 then 0 else tcb.held - 1;
    if tcb.prio == tcb.base || held > 0 then Ticked(SetTcb(s, s.current, tcb.(held := held)), false) else
    var lowered := tcb.(held := held, prio := tcb.base,
      eventValue := s.levels - tcb.base);
    Ticked(AddReady(SetTcb(Unready(s, s.current, tcb.prio), s.current, lowered), s.current), true)
  }

  /** The critical section of xQueueGenericSend that gives a mutex back. A waiting task decides
      alone about the yield: what disinheriting asked for counts only if nobody waits
      (queue.c:806-837). */
  function GiveMutex(s: Sched, q: nat): Sched {
    var r := Disinherit(s);
    if InEvent(s, WaitList(q)) != [] then WakeHead(r.s, q)
    else if r.switch then r.s.(owed := true) else r.s
  }

  /** pvTaskIncrementMutexHeldCount. */
  function TakeMutex(s: Sched): Sched {
    SetTcb(s, s.current, T(s, s.current).(held := T(s, s.current).held + 1))
  }

  /** vTaskPriorityDisinheritAfterTimeout. The bit it clears is that of the new priority:
      uxPriority has already been overwritten when the macro reads it (tasks.c:4012, 4035). */
  function DisinheritAfterTimeout(s: Sched, holder: Task, highest: nat): Sched {
    var tcb := T(s, holder);
    var p := if tcb.base < highest then highest else tcb.base;
    if tcb.prio == p || tcb.held != 1 then s else
    var s1 := SetTcb(s, holder, tcb.(prio := p, eventValue := EventValueFor(s, tcb.eventValue, p)));
    if InList(s, holder, Ready(tcb.prio)) then AddReady(Unready(s1, holder, p), holder) else s1
  }

  /** The downward search for the highest set bit below n. */
  function HighestBelow(top: set<nat>, n: nat): (p: nat)
    ensures (exists q :: q in top && q < n) ==> p in top && p < n && forall q | q in top && q < n :: q <= p
  {
    if n == 0 then 0 else if n - 1 in top then n - 1 else HighestBelow(top, n - 1)
  }

  /** vTaskSwitchContext, as the PendSV handler runs it. */
  function Switch(s: Sched): Sched {
    if s.suspended > 0 then s.(yieldPending := true, owed := false) else
    var l := Ready(HighestBelow(s.top, s.levels));
    var state := Advance(s.state, l);
    var r := ListOf(state, l);
    s.(yieldPending := false, owed := false, blocking := false, state := state,
       current := if 1 <= r.index <= |r.items| then r.items[r.index - 1] else s.current)
  }
}
