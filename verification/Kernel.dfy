/** tasks.c as it is written: file-level variables that every function updates in place, with its
    loops over lists that shrink as they go. Each method is proved to take the state where the
    function of the scheduler model says that stands for it, and to return what that function says;
    the loops are proved to end. What the operations are for is proved about the model, in the modules
    imported here. The ready-priority bitmap is a 32-bit word here and a set of priorities there, and
    the lists are the values of KernelList's rings, with pvContainer as a map. */
module Kernel {
  import opened Machine
  import opened ListModel
  import opened ItemStore
  import opened ReadyBitmap
  import opened Scheduler
  import opened SchedulerLists
  import opened SchedulerTick
  import opened SchedulerResume
  import opened SchedulerSteps
  import opened SchedulerSwitch
  import opened SystemState
  import opened SchedulerStart

  class Tasks {
    const levels: nat
    const idle: Task
    var tcbs: map<Task, Tcb>
    var state: Store<Task, ListId>
    var event: Store<Task, EventId>
    var top: bv32
    var current: Task
    var swapped: bool
    var tick: Machine.Tick
    var next: Machine.Tick
    var suspended: nat
    var pended: nat
    var yieldPending: bool
    var numTasks: nat
    var deleted: nat
    var owed: bool
    var blocking: bool
    var epoch: nat
    var delivered: nat

    ghost function View(): Sched
      reads this
    {
      Sched(levels, idle, tcbs, state, event, Priorities(top), current, swapped, tick, next, suspended, pended,
            yieldPending, numTasks, deleted, owed, blocking, epoch, delivered)
    }

    function Priority(t: Task): nat
      reads this`tcbs
    {
      if t in tcbs then tcbs[t].prio else 0
    }

    /** uxListRemove on a state item. */
    method RemoveStateItem(t: Task) returns (left: nat)
      modifies this`state
      ensures View() == RemoveState(old(View()), t)
      ensures left == 0 <==> t in old(state.at) && Emptied(old(View()), t)
    {
      hide Take;
      left := 1;
      if t in state.at {
        left := |Items(Take(state, t), state.at[t])|;
      }
      state := Take(state, t);
    }

    /** taskRESET_READY_PRIORITY. */
    method ResetReadyPriority(p: nat)
      requires p < 32
      modifies this`top
      ensures View() == if InState(old(View()), Ready(p)) == [] then old(View()).(top := old(View()).top - {p}) else old(View())
    {
      PriorityOps(top, p);
      if |Items(state, Ready(p))| == 0 {
        top := Reset(top, p);
      }
    }

    /** uxListRemove on the state item, then taskRESET_READY_PRIORITY if that emptied its list. */
    method TakeFromList(t: Task, p: nat)
      requires p < 32
      modifies this`state, this`top
      ensures View() == Unready(old(View()), t, p)
    {
      hide Take;
      var left := RemoveStateItem(t);
      if left == 0 {
        ResetReadyPriority(p);
      }
    }

    /** prvAddTaskToReadyList. */
    method AddTaskToReadyList(t: Task)
      requires Prio(View(), t) < 32
      modifies this`state, this`top
      ensures View() == AddReady(old(View()), t)
    {
      hide PutEnd;
      var p := Priority(t);
      PriorityOps(top, p);
      top := Record(top, p);
      state := PutEnd(state, Ready(p), t);
    }

    /** prvResetNextTaskUnblockTime. */
    method ResetNextTaskUnblockTime()
      modifies this`next
      ensures View() == ResetNext(old(View()))
    {
      var l := Items(state, if swapped then DelayedB else DelayedA);
      if |l| == 0 {
        next := MAX_DELAY;
      } else {
        next := Wake(tcbs, l[0]);
      }
    }

    /** prvAddCurrentTaskToDelayedList. */
    method AddCurrentTaskToDelayedList(n: Machine.Tick, indefinitely: bool)
      requires current in tcbs && Prio(View(), current) < 32
      modifies this
      ensures View() == BlockCurrent(old(View()), n, indefinitely)
    {
      hide Take, PutAt, PutEnd, SearchPos;
      var t := current;
      var left := RemoveStateItem(t);
      if left == 0 {
        PriorityOps(top, tcbs[t].prio);
        top := Reset(top, tcbs[t].prio);
      }
      if n == MAX_DELAY && indefinitely {
        state := PutEnd(state, Suspended, t);
      } else {
        FileDelayedTask(t, n);
      }
    }

    /** Filing a task by its wake time, in the current or the overflow list. */
    method FileDelayedTask(t: Task, n: Machine.Tick)
      requires t in tcbs
      modifies this`tcbs, this`state, this`next
      ensures View() == FileDelayed(old(View()), t, n)
    {
      hide PutAt, SearchPos;
      var w := Add32(tick, n);
      tcbs := tcbs[t := tcbs[t].(wake := w, due := Stamp(epoch, tick) + n)];
      if w < tick {
        var l := if swapped then DelayedA else DelayedB;
        state := PutAt(state, l, SearchPos(WakeKeys(tcbs, Items(state, l)), w), t);
      } else {
        var l := if swapped then DelayedB else DelayedA;
        state := PutAt(state, l, SearchPos(WakeKeys(tcbs, Items(state, l)), w), t);
        if w < next {
          next := w;
        }
      }
    }

    /** One task whose time has come. */
    method UnblockTask(t: Task)
      requires Prio(View(), t) < 32
      modifies this`state, this`event, this`top
      ensures View() == TimeOut(old(View()), t)
    {
      hide Take, PutEnd;
      var left := RemoveStateItem(t);
      event := Take(event, t);
      AddTaskToReadyList(t);
    }

    /** xTaskIncrementTick. */
    method IncrementTick() returns (switchRequired: bool)
      requires Core(View(), {}, Now(View()) + 1)
      modifies this`tick, this`swapped, this`epoch, this`next, this`state, this`event, this`top, this`pended
      ensures View() == Scheduler.IncrementTick(old(View())).s
      ensures switchRequired == Scheduler.IncrementTick(old(View())).switch
    {
      hide Core, Unblock, Advanced;
      switchRequired := false;
      ghost var s := View();
      if suspended == 0 {
        AdvancedCore(s);
        CountTick();
        if tick >= next {
          switchRequired := UnblockExpired();
        }
        if |Items(state, Ready(Priority(current)))| > 1 {
          switchRequired := true;
        }
      } else {
        pended := pended + 1;
      }
      if yieldPending {
        switchRequired := true;
      }
    }

    /** The new tick count, and taskSWITCH_DELAYED_LISTS when it is zero. */
    method CountTick()
      modifies this`tick, this`swapped, this`epoch, this`next
      ensures View() == Advanced(old(View()))
    {
      tick := Add32(tick, 1);
      if tick == 0 {
        swapped := !swapped;
        epoch := epoch + 1;
        ResetNextTaskUnblockTime();
      }
    }

    /** The unblocking loop of xTaskIncrementTick. */
    method UnblockExpired() returns (switchRequired: bool)
      requires Core(View(), {}, Now(View()))
      modifies this`state, this`event, this`top, this`next
      ensures View() == Unblock(old(View()), false, |InState(old(View()), CurrentList(old(View())))|).s
      ensures switchRequired == Unblock(old(View()), false, |InState(old(View()), CurrentList(old(View())))|).switch
    {
      hide Core, TimeOut;
      switchRequired := false;
      ghost var target := Unblock(View(), false, |InState(View(), CurrentList(View()))|);
      while true
        invariant Core(View(), {}, Now(View()))
        invariant Unblock(View(), switchRequired, |InState(View(), CurrentList(View()))|) == target
        decreases |InState(View(), CurrentList(View()))|
      {
        ghost var s := View();
        var l := Items(state, if swapped then DelayedB else DelayedA);
        if |l| == 0 {
          next := MAX_DELAY;
          return;
        }
        var t := l[0];
        if tick < Wake(tcbs, t) {
          next := Wake(tcbs, t);
          return;
        }
        HeadOfDelayed(s, Now(s));
        HeadBounded(s, t);
        TimeOutCore(s, t, Now(s));
        TimeOutClock(s, t);
        ShorterList(s, t);
        UnblockTask(t);
        if Priority(t) >= Priority(current) {
          switchRequired := true;
        }
      }
    }

    /** xTaskResumeAll. */
    method ResumeAll() returns (alreadyYielded: bool)
      requires Inv(View()) && suspended > 0
      modifies this
      ensures View() == Scheduler.ResumeAll(old(View()))
      ensures alreadyYielded <==> old(suspended) == 1 && View().yieldPending
    {
      hide Core, EventsLive, ReadyPended, Replay, Inv;
      ghost var s := View();
      alreadyYielded := false;
      suspended := suspended - 1;
      if suspended == 0 {
        RunningAgain(s);
        ReadyPendedTasks();
        ReplayTicks();
        if yieldPending {
          alreadyYielded := true;
          owed := true;
        }
      }
    }

    method ReadyPendedTasks()
      requires Core(View(), {}, Now(View()) + 1) && EventsLive(View())
      modifies this`state, this`event, this`top, this`yieldPending, this`next
      ensures View() == ReadyPended(old(View())) && Core(View(), {}, Now(View()) + 1)
    {
      hide Core, EventsLive, Drain;
      ReadyPendedExact(View());
      var moved := DrainPending();
      if moved {
        ResetNextTaskUnblockTime();
      }
    }

    /** The loop that moves the tasks interrupts have woken to their ready lists. */
    method DrainPending() returns (moved: bool)
      requires Core(View(), {}, Now(View()) + 1) && EventsLive(View())
      modifies this`state, this`event, this`top, this`yieldPending
      ensures View() == Drain(old(View()), |InEvent(old(View()), PendingReady)|)
      ensures moved <==> InEvent(old(View()), PendingReady) != []
      ensures !moved ==> View() == old(View())
    {
      hide Core, DrainOne, EventsLive, Drain, Pending;
      ghost var target := Drain(View(), |InEvent(View(), PendingReady)|);
      moved := |Items(event, PendingReady)| != 0;
      while |Items(event, PendingReady)| != 0
        invariant Core(View(), {}, Now(View()) + 1) && EventsLive(View())
        invariant Drain(View(), |InEvent(View(), PendingReady)|) == target
        invariant !moved ==> View() == old(View()) && InEvent(View(), PendingReady) == []
        decreases |Items(event, PendingReady)|
      {
        ghost var v := View();
        var t := Items(event, PendingReady)[0];
        FirstPending(v);
        DrainOneCore(v, t);
        DrainUnfold(v, |InEvent(v, PendingReady)|);
        BoundedPending(v, t);
        DrainTask(t);
      }
      DrainEnd(View());
    }

    method DrainTask(t: Task)
      requires Prio(View(), t) < 32
      modifies this`state, this`event, this`top, this`yieldPending
      ensures View() == DrainOne(old(View()), t)
    {
      hide Take, PutEnd;
      event := Take(event, t);
      var left := RemoveStateItem(t);
      AddTaskToReadyList(t);
      if Priority(t) >= Priority(current) {
        yieldPending := true;
      }
    }

    /** The loop that processes the ticks held back. */
    method ReplayTicks()
      requires Core(View(), {}, Now(View()) + 1) && suspended == 0
      modifies this
      ensures View() == Replay(old(View()), old(pended)).(pended := 0)
    {
      hide Core, Scheduler.IncrementTick;
      ghost var target := Replay(View(), pended);
      var n := pended;
      while n > 0
        invariant Core(View(), {}, Now(View()) + 1) && suspended == 0
        invariant Replay(View(), n) == target
      {
        ghost var v := View();
        ReplayExact(v, 1);
        ReplayUnfold(v, n);
        var switchRequired := IncrementTick();
        if switchRequired {
          yieldPending := true;
        }
        n := n - 1;
      }
      pended := 0;
    }

    /** taskSELECT_HIGHEST_PRIORITY_TASK as it is without the port's optimisation, from any upper bound on the
        priorities in use: it finds the priority that 31 - clz gives. */
    method HighestReady(bound: nat) returns (p: nat)
      requires Inv(View()) && bound < levels && forall q <- Priorities(top) :: q <= bound
      ensures Priorities(top) != {} && p == HighestPriority(top)
      ensures p in Priorities(top) && InState(View(), Ready(p)) != [] && forall q | q > p :: InState(View(), Ready(q)) == []
    {
      TopBit(View());
      EmptyAbove(View());
      hide Inv;
      p := bound;
      while |Items(state, Ready(p))| == 0
        invariant p <= bound && forall q <- Priorities(top) :: q <= p
        decreases p
      {
        ghost var q :| q in Priorities(top);
        assert p !in Priorities(top) && q <= p;
        p := p - 1;
      }
    }

    /** vTaskGetInfo. Told the state that goes with the list that holds a task, it reports what the task is
        really doing: a task in the suspended list may wait for an event, and any may be the running one. */
    method GetInfo(t: Task, found: TaskState) returns (status: Status)
      ensures status.task == t && status.prio == Prio(View(), t) && status.base == T(View(), t).base
      ensures t in state.at && found == StateIn(state.at[t]) ==> status == Known(View(), t)
    {
      var actual := found;
      if t == current {
        actual := Running;
      } else if found.OnHold? && t in event.at {
        actual := Blocked;
      }
      status := Status(t, Priority(t), if t in tcbs then tcbs[t].base else 0, actual);
    }

    /** listGET_OWNER_OF_NEXT_ENTRY on a state list. */
    method NextEntry(l: ListId) returns (t: Task)
      requires Items(state, l) != [] && ListOf(state, l).index <= |Items(state, l)|
      modifies this`state
      ensures View() == old(View()).(state := Advance(old(state), l))
      ensures t == Items(old(state), l)[NextIndex(ListOf(old(state), l)) - 1]
    {
      state := Advance(state, l);
      var r := ListOf(state, l);
      t := r.items[r.index - 1];
    }

    /** The next entry's status, into the array. */
    method ListNext(a: array<Status>, at: nat, l: ListId) returns (t: Task)
      requires Housed(state, l) && Items(state, l) != [] && at < a.Length
      modifies this`state, a
      ensures View() == old(View()).(state := Advance(old(state), l))
      ensures t == Items(old(state), l)[NextIndex(ListOf(old(state), l)) - 1]
      ensures a[..at + 1] == old(a[..at]) + [Known(old(View()), t)]
    {
      ghost var v := View();
      t := NextEntry(l);
      assert t in Items(v.state, l) && state.at == v.state.at;
      hide Advance;
      a[at] := GetInfo(t, StateIn(l));
    }

    /** prvListTasksWithinSingleList: one walk round the list, from behind the next entry up to it. */
    method ListTasksWithinSingleList(a: array<Status>, from: nat, l: ListId) returns (n: nat)
      requires Housed(state, l) && from + |Items(state, l)| <= a.Length
      modifies this`state, a
      ensures View() == old(View()).(state := Advance(old(state), l))
      ensures n == |Items(old(state), l)|
      ensures a[..from + n] == old(a[..from]) + Infos(old(View()), Cycle(ListOf(old(state), l)))
    {
      n := 0;
      if |Items(state, l)| > 0 {
        ghost var s := View();
        WalkStart(s, l);
        hide Cycle, Infos, Advance, Turned, Around, NextIndex, NoDup, Known;
        var first := NextEntry(l);
        n := ListUpTo(a, from, l, first, s);
      }
    }

    /** The loop: entry after entry, until the first one comes round again. */
    method ListUpTo(a: array<Status>, from: nat, l: ListId, first: Task, ghost s: Sched) returns (n: nat)
      requires Housed(s.state, l) && Items(s.state, l) != [] && from + |Items(s.state, l)| <= a.Length
      requires View() == s.(state := Turned(s.state, l, Around(ListOf(s.state, l), 0)))
      requires 1 <= NextIndex(ListOf(s.state, l)) <= |Items(s.state, l)|
      requires first == Items(s.state, l)[NextIndex(ListOf(s.state, l)) - 1]
      modifies this`state, a
      ensures n == |Items(s.state, l)|
      ensures View() == s.(state := Turned(s.state, l, Around(ListOf(s.state, l), n)))
      ensures a[..from + n] == old(a[..from]) + Infos(s, Cycle(ListOf(s.state, l))[..n])
    {
      hide Cycle, Infos, Known, Advance, Turned, Around, NextIndex, Housed;
      n := 0;
      ghost var r := ListOf(s.state, l);
      WalkStart(s, l);
      var more := true;
      while more
        invariant n <= |r.items| && (more <==> n < |r.items|)
        invariant View() == s.(state := Turned(s.state, l, Around(r, n)))
        invariant a[..from + n] == old(a[..from]) + Infos(s, Cycle(r)[..n])
        decreases |r.items| - n
      {
        WalkStep(s, View(), l, n);
        var t := ListNext(a, from + n, l);
        n := n + 1;
        more := t != first;
      }
    }

    /** The walks of uxTaskGetSystemState, in order. The array is never written behind its end. */
    method ListAll(a: array<Status>) returns (n: nat)
      requires Inv(View()) && a.Length >= numTasks
      modifies this`state, a
      ensures View() == WalkAll(old(View())) && n == numTasks
      ensures a[..n] == Report(old(View()), Order(old(View())))
    {
      hide Inv, Order, Walked, Report, Levels;
      n := 0;
      ghost var s := View();
      WalksBegin(s);
      var p: nat := levels;
      while p > 0
        invariant p <= levels && n <= a.Length
        invariant View() == s.(state := Walked(s.state, Levels(levels, p))) && a[..n] == Report(s, Levels(levels, p))
      {
        NextLevel(s, p);
        p := p - 1;
        n := AddList(a, n, Ready(p), s, Levels(levels, p + 1));
      }
      ghost var ids := Levels(levels, 0);
      OrderParts(s);
      n := AddList(a, n, if swapped then DelayedB else DelayedA, s, ids);
      n := AddList(a, n, if swapped then DelayedA else DelayedB, s, ids + [CurrentList(s)]);
      n := AddList(a, n, Terminated, s, ids + [CurrentList(s), OverflowList(s)]);
      n := AddList(a, n, Suspended, s, ids + [CurrentList(s), OverflowList(s), Terminated]);
      ReportExact(s);
    }

    /** The walk round one list, when those of ids are done. */
    method AddList(a: array<Status>, from: nat, l: ListId, ghost s: Sched, ghost ids: seq<ListId>) returns (n: nat)
      requires Inv(s) && a.Length >= s.numTasks && ids + [l] <= Order(s)
      requires View() == s.(state := Walked(s.state, ids)) && from <= a.Length && a[..from] == Report(s, ids)
      modifies this`state, a
      ensures View() == s.(state := Walked(s.state, ids + [l]))
      ensures n <= a.Length && a[..n] == Report(s, ids + [l])
    {
      hide Inv, Order, Infos, Cycle;
      OneWalk(s, View(), ids, l);
      var k := ListTasksWithinSingleList(a, from, l);
      n := from + k;
    }

    /** uxTaskGetSystemState. */
    method GetSystemState(a: array<Status>) returns (n: nat)
      requires Inv(View())
      modifies this, a
      ensures View() == SystemState.GetSystemState(old(View()), a.Length)
      ensures n == if a.Length >= old(numTasks) then old(numTasks) else 0
      ensures a[..n] == if a.Length >= old(numTasks) then Report(old(View()), Order(old(View()))) else []
    {
      hide Inv, Order, Report, Walked, Scheduler.ResumeAll;
      n := 0;
      HaltKept(View());
      SameReport(View(), View().(suspended := suspended + 1));
      suspended := suspended + 1;
      if a.Length >= numTasks {
        WalkKept(View());
        n := ListAll(a);
      }
      var already := ResumeAll();
    }

    /** vTaskSwitchContext. */
    method SwitchContext()
      requires Inv(View())
      modifies this
      ensures View() == Switch(old(View()))
    {
      hide Inv;
      if suspended != 0 {
        yieldPending := true;
        owed := false;
      } else {
        SelectHighestPriorityTask();
        yieldPending := false;
        owed := false;
        blocking := false;
      }
    }

    /** taskSELECT_HIGHEST_PRIORITY_TASK, by the bitmap. */
    method SelectHighestPriorityTask()
      requires Inv(View())
      modifies this`state, this`current
      ensures View() == var s := old(View());
        var r := ListOf(Advance(s.state, Ready(HighestBelow(s.top, s.levels))), Ready(HighestBelow(s.top, s.levels)));
        s.(state := Advance(s.state, Ready(HighestBelow(s.top, s.levels))),
           current := if 1 <= r.index <= |r.items| then r.items[r.index - 1] else s.current)
    {
      hide Inv, Advance, HighestBelow, Priorities;
      ghost var s := View();
      TopBit(s);
      var p := HighestPriority(top);
      HighestAgree(s, p);
      NextInList(s, p);
      state := Advance(state, Ready(p));
      var r := ListOf(state, Ready(p));
      current := r.items[r.index - 1];
    }

    /** uxListRemove on an event item, if it is in a list. */
    method RemoveEventItem(t: Task)
      modifies this`event
      ensures View() == RemoveEvent(old(View()), t)
    {
      hide Take;
      event := Take(event, t);
    }

    /** vTaskPlaceOnEventList. */
    method PlaceOnEventList(q: nat, n: Machine.Tick)
      requires current in tcbs && Prio(View(), current) < 32
      modifies this
      ensures View() == BlockOn(old(View()), q, n)
    {
      hide PutAt, SearchPos, BlockCurrent;
      var k := SearchPos(EventKeys(tcbs, Items(event, WaitList(q))), tcbs[current].eventValue);
      event := PutAt(event, WaitList(q), k, current);
      AddCurrentTaskToDelayedList(n, true);
    }

    /** vTaskPlaceOnUnorderedEventList. */
    method PlaceOnUnorderedEventList(q: nat, v: Machine.Tick, n: Machine.Tick)
      requires current in tcbs && Prio(View(), current) < 32
      modifies this
      ensures View() == BlockUnordered(old(View()), q, v, n)
    {
      hide PutEnd, BlockCurrent;
      tcbs := tcbs[current := tcbs[current].(eventValue := MarkInUse(v))];
      event := PutEnd(event, WaitList(q), current);
      AddCurrentTaskToDelayedList(n, true);
    }

    /** xTaskRemoveFromEventList; the caller yields, or reports to its interrupt, when told to. */
    method RemoveFromEventList(q: nat) returns (higher: bool)
      requires InEvent(View(), WaitList(q)) != []
      requires Prio(View(), InEvent(View(), WaitList(q))[0]) < 32
      modifies this
      ensures View() == WakeHead(old(View()), q)
      ensures higher <==> Prio(old(View()), InEvent(old(View()), WaitList(q))[0]) > Prio(old(View()), old(current))
    {
      hide Take, PutEnd;
      var t := Items(event, WaitList(q))[0];
      event := Take(event, t);
      if suspended == 0 {
        ReadyTask(t);
      } else {
        event := PutEnd(event, PendingReady, t);
      }
      higher := Priority(t) > Priority(current);
      if higher {
        yieldPending := true;
        owed := true;
      }
    }

    /** uxListRemove on the state item and prvAddTaskToReadyList. */
    method ReadyTask(t: Task)
      requires Prio(View(), t) < 32
      modifies this`state, this`top
      ensures View() == AddReady(RemoveState(old(View()), t), t)
    {
      hide Take, PutEnd;
      var left := RemoveStateItem(t);
      AddTaskToReadyList(t);
    }

    /** vTaskRemoveFromUnorderedEventList. */
    method RemoveFromUnorderedEventList(t: Task, v: Machine.Tick)
      requires t in tcbs && Prio(View(), t) < 32
      modifies this
      ensures View() == WakeUnordered(old(View()), t, v)
    {
      hide Take, PutEnd;
      tcbs := tcbs[t := tcbs[t].(eventValue := MarkInUse(v))];
      event := Take(event, t);
      ReadyTask(t);
      if Priority(t) > Priority(current) {
        yieldPending := true;
      }
    }

    /** uxTaskResetEventItemValue: the value the event item held, which an event group may have left in it. */
    method ResetEventItemValue() returns (value: int)
      requires current in tcbs
      modifies this`tcbs
      ensures View() == ResetItem(old(View())) && value == T(old(View()), current).eventValue
    {
      value := tcbs[current].eventValue;
      tcbs := tcbs[current := tcbs[current].(eventValue := levels - tcbs[current].prio)];
    }

    /** vTaskSuspend. */
    method SuspendTask(t: Task)
      requires Prio(View(), t) < 32
      modifies this
      ensures View() == Scheduler.SuspendTask(old(View()), t)
    {
      hide Take, PutEnd, Unready;
      TakeFromList(t, Priority(t));
      event := Take(event, t);
      state := PutEnd(state, Suspended, t);
      ResetNextTaskUnblockTime();
      if t == current {
        owed := true;
      }
    }

    /** prvTaskIsTaskSuspended. */
    function TaskIsSuspended(t: Task): bool
      reads this`state, this`event
    {
      t in state.at && state.at[t] == Suspended && t !in event.at
    }

    /** vTaskResume. */
    method Resume(t: Task)
      requires Prio(View(), t) < 32
      modifies this
      ensures View() == Scheduler.Resume(old(View()), t)
    {
      hide Take, PutEnd;
      if t != current && TaskIsSuspended(t) {
        ReadyTask(t);
        if Priority(t) >= Priority(current) {
          owed := true;
        }
      }
    }

    /** xTaskResumeFromISR. */
    method ResumeFromISR(t: Task) returns (yieldRequired: bool)
      requires Prio(View(), t) < 32
      modifies this
      ensures View() == Scheduler.ResumeFromISR(old(View()), t)
      ensures var s := old(View());
        yieldRequired <==> s.suspended == 0 && IsSuspended(s, t) && Prio(s, t) >= Prio(s, s.current)
    {
      hide Take, PutEnd;
      yieldRequired := false;
      if TaskIsSuspended(t) {
        if suspended == 0 {
          if Priority(t) >= Priority(current) {
            yieldRequired := true;
          }
          ReadyTask(t);
        } else {
          event := PutEnd(event, PendingReady, t);
        }
      }
      owed := owed || yieldRequired;
    }

    /** vTaskDelete. */
    method Delete(t: Task)
      requires Prio(View(), t) < 32 && (t != current ==> numTasks > 0)
      modifies this
      ensures View() == Scheduler.Delete(old(View()), t)
    {
      hide Take, PutEnd, Unready;
      TakeFromList(t, Priority(t));
      event := Take(event, t);
      if t == current {
        state := PutEnd(state, Terminated, t);
        deleted := deleted + 1;
        owed := true;
      } else {
        numTasks := numTasks - 1;
        tcbs := tcbs - {t};
        ResetNextTaskUnblockTime();
      }
    }

    /** prvAddNewTaskToReadyList with the control block prvInitialiseNewTask fills in, before or after the
        scheduler has been started. No task has been created exactly while pxCurrentTCB is NULL. */
    method AddNewTask(t: Task, p: nat, schedulerRunning: bool)
      requires p < 32
      modifies this
      ensures View() == if schedulerRunning then Create(old(View()), t, p) else CreateEarly(old(View()), t, p)
    {
      hide AddReady;
      var highest := Priority(current);
      if !schedulerRunning && (numTasks == 0 || highest <= p) {
        current := t;
      }
      Enlist(t, p);
      if schedulerRunning && highest < p {
        owed := true;
      }
    }

    /** The new task's control block, its place in a ready list, and the count of tasks. */
    method Enlist(t: Task, p: nat)
      requires p < 32
      modifies this`numTasks, this`tcbs, this`state, this`top
      ensures View() == AddReady(SetTcb(old(View()), t, Tcb(p, p, 0, 0, levels - p, 0)).(numTasks := old(numTasks) + 1), t)
    {
      hide PutEnd;
      numTasks := numTasks + 1;
      tcbs := tcbs[t := Tcb(p, p, 0, 0, levels - p, 0)];
      AddTaskToReadyList(t);
    }

    /** vTaskPrioritySet. */
    method PrioritySet(t: Task, p: nat)
      requires t in tcbs && p < 32 && tcbs[t].prio < 32
      modifies this
      ensures View() == Scheduler.PrioritySet(old(View()), t, p)
    {
      hide Take, PutEnd;
      var tcb := tcbs[t];
      if tcb.base != p {
        var yieldRequired := false;
        if p > tcb.base {
          if t != current && p >= Priority(current) {
            yieldRequired := true;
          }
        } else if t == current {
          yieldRequired := true;
        }
        Reprioritise(t, tcb.(prio := if tcb.base == tcb.prio then p else tcb.prio, base := p,
          eventValue := if tcb.eventValue < IN_USE then levels - p else tcb.eventValue), tcb.prio);
        if yieldRequired {
          owed := true;
        }
      }
    }

    /** The new control block, and the move between ready lists of a task that is ready. */
    method Reprioritise(t: Task, tcb: Tcb, entry: nat)
      requires tcb.prio < 32 && entry < 32
      modifies this`tcbs, this`state, this`top
      ensures View() == if InList(old(View()), t, Ready(entry))
        then AddReady(UnreadyDirect(SetTcb(old(View()), t, tcb), t, entry), t) else SetTcb(old(View()), t, tcb)
    {
      hide Take, PutEnd;
      tcbs := tcbs[t := tcb];
      if t in state.at && state.at[t] == Ready(entry) {
        var left := RemoveStateItem(t);
        if left == 0 {
          PriorityOps(top, entry);
          top := Reset(top, entry);
        }
        AddTaskToReadyList(t);
      }
    }

    /** prvCheckTasksWaitingTermination: the idle task frees every task that deleted itself. */
    method CheckTasksWaitingTermination()
      requires Inv(View()) && IsReady(View(), current) && !blocking
      modifies this
      ensures View() == CleanupAll(old(View()), old(deleted))
      ensures Inv(View()) && deleted == 0 && InState(View(), Terminated) == []
      ensures current == old(current) && numTasks == old(numTasks) - old(deleted)
    {
      hide Inv, Cleanup;
      while deleted > 0
        invariant CleanupAll(View(), deleted) == CleanupAll(old(View()), old(deleted))
        invariant Inv(View()) && IsReady(View(), current) && !blocking && current == old(current)
        invariant numTasks == old(numTasks) - (old(deleted) - deleted)
      {
        CleanUpKept(View());
        KeptCleanUp(View());
        FreeOne();
      }
      NoneDeleted(View());
    }

    method FreeOne()
      requires InState(View(), Terminated) != [] && deleted > 0 && numTasks > 0
      modifies this`state, this`tcbs, this`numTasks, this`deleted
      ensures View() == Cleanup(old(View()))
      ensures numTasks == old(numTasks) - 1 && deleted == old(deleted) - 1
    {
      hide Take;
      var t := Items(state, Terminated)[0];
      var left := RemoveStateItem(t);
      numTasks := numTasks - 1;
      deleted := deleted - 1;
      tcbs := tcbs - {t};
    }

    /** xTaskPriorityInherit; the result says whether the holder runs on an inherited priority. */
    method PriorityInherit(holder: Task) returns (inherited: bool)
      requires holder in tcbs && tcbs[holder].prio < 32 && Prio(View(), current) < 32
      modifies this
      ensures View() == Inherit(old(View()), holder)
      ensures inherited <==> (T(old(View()), holder).base < Prio(old(View()), current) || T(old(View()), holder).prio < Prio(old(View()), current))
    {
      hide Take, PutEnd, Unready;
      var tcb, p := tcbs[holder], Priority(current);
      inherited := false;
      if tcb.prio < p {
        var raised := tcb.(prio := p, eventValue := if tcb.eventValue < IN_USE then levels - p else tcb.eventValue);
        if holder in state.at && state.at[holder] == Ready(tcb.prio) {
          TakeFromList(holder, tcb.prio);
          tcbs := tcbs[holder := raised];
          AddTaskToReadyList(holder);
        } else {
          tcbs := tcbs[holder := raised];
        }
        inherited := true;
      } else if tcb.base < p {
        inherited := true;
      }
    }

    /** xTaskPriorityDisinherit. */
    method PriorityDisinherit() returns (yieldRequired: bool)
      requires current in tcbs && tcbs[current].held > 0 && tcbs[current].prio < 32 && tcbs[current].base < 32
      modifies this
      ensures View() == Disinherit(old(View())).s && yieldRequired == Disinherit(old(View())).switch
    {
      hide Take, PutEnd, Unready;
      var tcb := tcbs[current];
      var left := tcb.(held := tcb.held - 1);
      yieldRequired := false;
      if tcb.prio != tcb.base && left.held == 0 {
        TakeFromList(current, tcb.prio);
        tcbs := tcbs[current := left.(prio := tcb.base, eventValue := levels - tcb.base)];
        AddTaskToReadyList(current);
        yieldRequired := true;
      } else {
        tcbs := tcbs[current := left];
      }
    }

    /** vTaskPriorityDisinheritAfterTimeout, with the bit it really clears. */
    method PriorityDisinheritAfterTimeout(holder: Task, highest: nat)
      requires holder in tcbs && tcbs[holder].prio < 32 && tcbs[holder].base < 32 && highest < 32
      modifies this
      ensures View() == DisinheritAfterTimeout(old(View()), holder, highest)
    {
      hide Take, PutEnd, Unready;
      var tcb := tcbs[holder];
      var p := if tcb.base < highest then highest else tcb.base;
      if tcb.prio != p && tcb.held == 1 {
        tcbs := tcbs[holder := tcb.(prio := p, eventValue := if tcb.eventValue < IN_USE then levels - p else tcb.eventValue)];
        if holder in state.at && state.at[holder] == Ready(tcb.prio) {
          TakeFromList(holder, p);
          AddTaskToReadyList(holder);
        }
      }
    }
  }

  lemma KeptCleanUp(s: Sched)
    requires Inv(s) && Kept(s, CleanUp) && s.deleted > 0 && IsReady(s, s.current)
    ensures var s' := Cleanup(s);
      Inv(s') && IsReady(s', s'.current) && s'.current == s.current && InState(s, Terminated) != [] && s.numTasks > 0
  {
    hide Core, Take;
    DeletedHead(s);
    UnlinkedHead(s, InState(s, Terminated)[0]);
  }

  lemma NoneDeleted(s: Sched)
    requires Inv(s) && s.deleted == 0
    ensures InState(s, Terminated) == []
  {
  }

  lemma HeadBounded(s: Sched, t: Task)
    requires Core(s, {}, Now(s)) && t in s.tcbs
    ensures Prio(s, t) < 32
  {
  }

  lemma RunningAgain(s: Sched)
    requires Inv(s) && s.suspended > 0
    ensures var s0 := s.(suspended := s.suspended - 1);
      Core(s0, {}, Now(s0) + 1) && EventsLive(s0)
  {
    var s0 := s.(suspended := s.suspended - 1);
    SameListsCore(s, s0, {}, Now(s) + 1);
    SameListsFacts(s, s0);
  }

  lemma DrainEnd(s: Sched)
    requires InEvent(s, PendingReady) == []
    ensures Drain(s, 0) == s
  {
  }

  lemma BoundedPending(s: Sched, t: Task)
    requires Core(s, {}, Now(s) + 1) && Pending(s, t)
    ensures Prio(s, t) < 32
  {
  }

  lemma ReplayUnfold(s: Sched, n: nat)
    requires n > 0
    ensures Replay(s, n) == Replay(ReplayOne(s), n - 1) && Replay(s, 1) == ReplayOne(s)
  {
    assert Replay(ReplayOne(s), 0) == ReplayOne(s);
  }

  lemma TopBit(s: Sched)
    requires Inv(s)
    ensures s.top != {} && (forall p <- s.top :: p < s.levels) && forall p <- s.top :: InState(s, Ready(p)) != []
  {
    TopReady(s);
    forall p | p in s.top ensures p < s.levels && InState(s, Ready(p)) != [] {
      assert p in s.top <==> InState(s, Ready(p)) != [];
      var t := InState(s, Ready(p))[0];
      assert t in InState(s, Ready(p));
      ReadyInList(s, p, t);
      BoundedTcb(s, t);
    }
  }

  lemma EmptyAbove(s: Sched)
    requires Inv(s)
    ensures forall p :: p in s.top <==> InState(s, Ready(p)) != []
  {
    assert Bits(s);
  }

  lemma HighestAgree(s: Sched, p: nat)
    requires p in s.top && (forall q <- s.top :: q <= p) && p < s.levels
    ensures HighestBelow(s.top, s.levels) == p
  {
  }
}
