/** Three operations that touch more than one task: the context switch, creating and deleting tasks,
    and resuming the scheduler. The switch picks by the bitmap a ready task that no other outranks. A
    task that deletes itself stays on the termination list until the idle task frees it; any other is
    gone at once. Resuming first readies every task that interrupts have woken meanwhile and then counts
    the ticks held back one by one, so that no task is woken twice and none that is due stays behind. */
module SchedulerSwitch {
  import opened ItemStore
  import opened Scheduler
  import opened SchedulerLists
  import opened SchedulerTick
  import opened SchedulerResume
  import opened SchedulerSteps

  // ---- the context switch ----

  lemma TopReady(s: Sched)
    requires Inv(s)
    ensures var p := HighestBelow(s.top, s.levels);
      p in s.top && InState(s, Ready(p)) != [] && forall t :: IsReady(s, t) ==> Prio(s, t) <= p
  {
    OwnList(s, s.idle);
    BoundedTcb(s, s.idle);
    var p := HighestBelow(s.top, s.levels);
    forall t | IsReady(s, t) ensures Prio(s, t) <= p {
      OwnList(s, t);
      ReadyKnown(s, t);
      BoundedTcb(s, t);
    }
    assert p in s.top <==> InState(s, Ready(p)) != [];
  }

  lemma ReadyKnown(s: Sched, t: Task)
    requires Core(s, {}, Now(s) + 1) && IsReady(s, t)
    ensures t in s.tcbs
  {
    assert t in s.state.at.Keys;
  }

  /** vTaskSwitchContext, when it may switch, runs a ready task no other ready task outranks. */
  lemma SwitchPicks(s: Sched)
    requires Inv(s) && s.suspended == 0
    ensures var s', p := Switch(s), HighestBelow(s.top, s.levels);
      s'.current in InState(s, Ready(p)) && s'.state == Advance(s.state, Ready(p)) && InState(s, Ready(p)) != []
      && IsReady(s, s'.current) && s'.current in s.tcbs && Prio(s, s'.current) == p
      && forall t :: IsReady(s, t) ==> Prio(s, t) <= Prio(s, s'.current)
  {
    TopReady(s);
    var p := HighestBelow(s.top, s.levels);
    NextInList(s, p);
    hide Advance;
    var c := Switch(s).current;
    assert c in InState(s, Ready(p));
    ReadyInList(s, p, c);
  }

  lemma NextInList(s: Sched, p: nat)
    requires InState(s, Ready(p)) != []
    ensures var r := ListOf(Advance(s.state, Ready(p)), Ready(p));
      1 <= r.index <= |r.items| && r.items == InState(s, Ready(p))
  {
  }

  lemma ReadyInList(s: Sched, p: nat, t: Task)
    requires Core(s, {}, Now(s) + 1) && t in InState(s, Ready(p))
    ensures IsReady(s, t) && Prio(s, t) == p && t in s.tcbs
  {
    assert s.state.at[t] == Ready(p);
    ReadyKnown(s, t);
  }

  lemma AdvanceCore(s: Sched, p: nat)
    requires Core(s, {}, Now(s) + 1) && InState(s, Ready(p)) != []
    ensures var m := s.(state := Advance(s.state, Ready(p)));
      Core(m, {}, Now(s) + 1) && m.state.at == s.state.at && InState(m, Terminated) == InState(s, Terminated)
  {
    hide Valid, Advance, InOrder, Due;
    AdvanceValid(s.state, Ready(p));
    DueFrame(s, s.(state := Advance(s.state, Ready(p))), Now(s) + 1);
  }

  lemma PendSvKept(s: Sched)
    requires Inv(s) && Enabled(s, PendSv)
    ensures Kept(s, PendSv)
  {
    hide Core, Advance;
    var s' := Switch(s);
    forall t | IsDelayed(s, t) ensures T(s, t).due > Now(s) { DelayedLater(s, t); }
    if s.suspended > 0 {
      SameListsCore(s, s', {}, Now(s) + 1);
      SameListsFacts(s, s');
    } else {
      SwitchPicks(s);
      var p := HighestBelow(s.top, s.levels);
      AdvanceCore(s, p);
      var m := s.(state := Advance(s.state, Ready(p)));
      SameListsCore(m, s', {}, Now(s) + 1);
      SwitchFacts(s, m, s');
    }
  }

  lemma SwitchFacts(s: Sched, m: Sched, s': Sched)
    requires EventsLive(s) && m == s.(state := m.state) && m.state.at == s.state.at && SameLists(m, s')
    ensures EventsLive(s') && InState(s', Terminated) == InState(m, Terminated)
    ensures forall t :: Pending(s', t) <==> Pending(s, t)
    ensures forall t :: Prio(s', t) == Prio(s, t) && IsReady(s', t) == IsReady(s, t)
    ensures forall t :: IsDelayed(s', t) == IsDelayed(s, t) && T(s', t) == T(s, t)
  {
    forall t ensures InList(s', t, Terminated) == InList(s, t, Terminated) {}
  }

  // ---- creating and deleting tasks ----

  lemma NewTcbCore(s: Sched, t: Task, tcb: Tcb)
    requires Core(s, {}, Now(s) + 1) && t !in s.tcbs && tcb.prio < s.levels && tcb.base < s.levels
    ensures Core(SetTcb(s, t, tcb), {t}, Now(s) + 1) && t !in s.state.at && t !in s.event.at
  {
    hide Valid, Due;
    var s' := SetTcb(s, t, tcb);
    assert t !in s.state.at && t !in s.event.at;
    assert s.tcbs.Keys - {} == s.tcbs.Keys - {t};
    SameOrder(s, s'.tcbs, t);
    DueFrame(s, s', Now(s) + 1);
  }

  lemma CreateTaskKept(s: Sched, t: Task, p: nat)
    requires Inv(s) && Enabled(s, CreateTask(t, p))
    ensures Kept(s, CreateTask(t, p))
  {
    hide Core, AddReady;
    var tcb := Tcb(p, p, 0, 0, s.levels - p, 0);
    NewTcbCore(s, t, tcb);
    var m := SetTcb(s, t, tcb);
    AddReadyCore(m, t, Now(s) + 1);
    NewFrame(s, t, tcb);
    var r, s' := AddReady(m, t), Apply(s, CreateTask(t, p));
    CreateOrder(s, t, tcb);
    SameListsCore(r, s', {}, Now(s) + 1);
    SameListsKept(r, s');
    CreateCounted(s, r, s', t);
  }

  lemma NewFrame(s: Sched, t: Task, tcb: Tcb)
    ensures var m := SetTcb(s, t, tcb);
      var r := AddReady(m, t);
      r == s.(tcbs := m.tcbs, state := r.state, top := r.top) && Prio(m, t) == tcb.prio && Now(m) == Now(s)
  {
  }

  lemma CreateOrder(s: Sched, t: Task, tcb: Tcb)
    ensures AddReady(SetTcb(s, t, tcb).(numTasks := s.numTasks + 1), t) == AddReady(SetTcb(s, t, tcb), t).(numTasks := s.numTasks + 1)
  {
  }

  lemma SameListsKept(r: Sched, s': Sched)
    requires SameLists(r, s')
    ensures InState(s', Terminated) == InState(r, Terminated) && s'.state == r.state && s'.event == r.event && s'.tcbs == r.tcbs
  {
  }

  lemma CreateCounted(s: Sched, r: Sched, s': Sched, t: Task)
    requires Inv(s) && t !in s.tcbs && t !in s.state.at && t !in s.event.at && Core(s', {}, Now(s) + 1)
    requires r == s.(tcbs := s.tcbs[t := T(r, t)], state := r.state, top := r.top)
    requires r.state.at == s.state.at[t := Ready(Prio(r, t))] && InState(r, Terminated) == InState(s, Terminated)
    requires s' == r.(numTasks := s.numTasks + 1, owed := s'.owed) && s'.owed == (s.owed || Prio(s, s.current) < Prio(r, t))
    ensures Inv(s') && Now(s') == Now(s) && (Preemptive(s) ==> Preemptive(s'))
    ensures forall x :: x != t ==> OnTime(s, s', x)
  {
    hide Core;
    forall x | IsDelayed(s, x) ensures T(s, x).due > Now(s) { DelayedLater(s, x); }
    assert s'.tcbs.Keys == s.tcbs.Keys + {t};
    assert |s'.tcbs.Keys| == |s.tcbs.Keys| + 1;
    forall x ensures InList(s', x, Terminated) == InList(s, x, Terminated) && Pending(s', x) == Pending(s, x) {}
    assert forall x :: x != t ==> T(s', x) == T(s, x) && IsReady(s', x) == IsReady(s, x);
    assert InState(s', Terminated) == InState(r, Terminated);
  }

  /** The part both kinds of deletion share: out of the state list and off the event list. */
  lemma Unlinked(s: Sched, t: Task)
    requires Inv(s) && t in s.tcbs && s.state.at[t] != Terminated
    ensures var u := Unready(s, t, Prio(s, t));
      var e := RemoveEvent(u, t);
      Core(e, {t}, Now(s) + 1) && e == s.(state := e.state, top := e.top, event := e.event)
      && e.state.at == s.state.at - {t} && e.event.at == s.event.at - {t}
      && InState(e, Terminated) == InState(s, Terminated) && s.state.at.Keys == s.tcbs.Keys
  {
    hide Core, Unready, RemoveEvent;
    var u := Unready(s, t, Prio(s, t));
    UnreadyCore(s, t, Now(s) + 1);
    UnreadyFrame(s, t);
    RemoveEventCore(u, t, {t}, Now(s) + 1);
    RemoveEventFrame(u, t);
    AtKeys(s);
  }

  lemma DeleteTaskKept(s: Sched, t: Task)
    requires Inv(s) && Enabled(s, DeleteTask(t))
    ensures Kept(s, DeleteTask(t))
  {
    hide Core, Unready, RemoveEvent, PutEnd, OnTime, Preemptive;
    var s' := Apply(s, DeleteTask(t));
    AtKeys(s);
    Unlinked(s, t);
    var e := RemoveEvent(Unready(s, t, Prio(s, t)), t);
    if t == s.current {
      PutCore(e, t, Terminated, Now(s) + 1);
      var p := e.(state := PutEnd(e.state, Terminated, t));
      SameListsCore(p, s', {}, Now(s) + 1);
      DeletedSelf(s, s', t);
      SelfOwed(s, t);
    } else {
      DeleteOtherCore(s, e, s', t);
    }
  }

  lemma SelfOwed(s: Sched, t: Task)
    requires t == s.current
    ensures Preemptive(Apply(s, DeleteTask(t)))
  {
  }

  lemma DeleteOtherCore(s: Sched, e: Sched, s': Sched, t: Task)
    requires Inv(s) && Enabled(s, DeleteTask(t)) && t != s.current && s.state.at.Keys == s.tcbs.Keys
    requires Core(e, {t}, Now(s) + 1) && e == s.(state := e.state, top := e.top, event := e.event)
    requires e.state.at == s.state.at - {t} && e.event.at == s.event.at - {t}
    requires InState(e, Terminated) == InState(s, Terminated)
    requires s' == ResetNext(e.(tcbs := e.tcbs - {t}, numTasks := if s.numTasks == 0 then 0 else s.numTasks - 1))
    ensures Inv(s') && Now(s') == Now(s) && (Preemptive(s) ==> Preemptive(s'))
    ensures forall x :: x != t ==> OnTime(s, s', x)
  {
    hide Core, OnTime, Preemptive, Counted, Forgotten;
    ForgottenCore(e, t, Now(s) + 1, if s.numTasks == 0 then 0 else s.numTasks - 1);
    TerminationLength(s);
    IsForgotten(s, e, s', t);
    DeletedCounted(s, s', t);
    DeletedOther(s, s', t);
  }

  lemma TerminationLength(s: Sched)
    requires Counted(s)
    ensures |InState(s, Terminated)| == s.deleted
  {
  }

  lemma IsForgotten(s: Sched, e: Sched, s': Sched, t: Task)
    requires e == s.(state := e.state, top := e.top, event := e.event)
    requires e.state.at == s.state.at - {t} && e.event.at == s.event.at - {t}
    requires s' == ResetNext(e.(tcbs := e.tcbs - {t}, numTasks := if s.numTasks == 0 then 0 else s.numTasks - 1))
    ensures Forgotten(s, s', t) && InState(s', Terminated) == InState(e, Terminated) && s'.deleted == s.deleted
  {
  }

  lemma ForgottenCore(e: Sched, t: Task, floor: nat, n: nat)
    requires Core(e, {t}, floor) && t in e.tcbs && t !in e.event.at
    ensures Core(ResetNext(e.(tcbs := e.tcbs - {t}, numTasks := n)), {}, floor)
  {
    hide Core;
    ForgetCore(e, t, floor);
    var f := e.(tcbs := e.tcbs - {t});
    SameListsCore(f, f.(numTasks := n), {}, floor);
    ResetNextCore(f.(numTasks := n), {}, floor);
  }

  /** Dropping the control block of a task that is in no list. */
  lemma ForgetCore(s: Sched, t: Task, floor: nat)
    requires Core(s, {t}, floor) && t in s.tcbs && t !in s.event.at
    ensures Core(s.(tcbs := s.tcbs - {t}), {}, floor)
  {
    hide Valid, Due;
    var s' := s.(tcbs := s.tcbs - {t});
    assert s'.tcbs.Keys == s.tcbs.Keys - {t};
    assert t !in s.state.at;
    SameOrder(s, s'.tcbs, t);
    DueFrame(s, s', floor);
  }

  lemma DeletedSelf(s: Sched, s': Sched, t: Task)
    requires Inv(s) && Enabled(s, DeleteTask(t)) && t == s.current && s.state.at.Keys == s.tcbs.Keys
    requires s' == s.(state := s'.state, top := s'.top, event := s'.event, deleted := s.deleted + 1, owed := true)
    requires s'.state.at == s.state.at[t := Terminated] && s'.event.at == s.event.at - {t}
    requires |InState(s', Terminated)| == |InState(s, Terminated)| + 1 && Core(s', {}, Now(s) + 1)
    ensures Inv(s') && Now(s') == Now(s) && forall x :: x != t ==> OnTime(s, s', x)
  {
    hide Core;
    forall x | IsDelayed(s, x) ensures T(s, x).due > Now(s) { DelayedLater(s, x); }
    forall x ensures x != t ==> InList(s', x, Terminated) == InList(s, x, Terminated) {}
    forall x ensures Pending(s', x) ==> Pending(s, x) {}
    assert forall x :: T(s', x) == T(s, x);
  }

  ghost predicate Forgotten(s: Sched, s': Sched, t: Task) {
    && s' == s.(state := s'.state, top := s'.top, event := s'.event, next := s'.next, tcbs := s.tcbs - {t},
                deleted := s'.deleted, numTasks := if s.numTasks == 0 then 0 else s.numTasks - 1)
    && s'.state.at == s.state.at - {t} && s'.event.at == s.event.at - {t}
  }

  lemma DeletedCounted(s: Sched, s': Sched, t: Task)
    requires Counted(s) && Forgotten(s, s', t) && t in s.tcbs && t != s.idle && t != s.current
    requires |InState(s', Terminated)| == s'.deleted
    ensures Counted(s') && Now(s') == Now(s)
  {
    FewerTcbs(s.tcbs, t);
    forall x ensures x != t ==> InList(s', x, Terminated) == InList(s, x, Terminated) {}
    forall x ensures Pending(s', x) ==> Pending(s, x) {}
  }

  lemma FewerTcbs(m: map<Task, Tcb>, t: Task)
    requires t in m
    ensures |m - {t}| == |m| - 1
  {
    assert (m - {t}).Keys == m.Keys - {t};
    assert |(m - {t}).Keys| == |m.Keys| - 1;
  }

  lemma DeletedOther(s: Sched, s': Sched, t: Task)
    requires Core(s, {}, Now(s) + 1) && Forgotten(s, s', t) && t != s.current
    ensures Preemptive(s) ==> Preemptive(s')
    ensures forall x :: x != t ==> OnTime(s, s', x)
  {
    hide Core;
    forall x | IsDelayed(s, x) ensures T(s, x).due > Now(s) { DelayedLater(s, x); }
    assert forall x :: x != t ==> T(s', x) == T(s, x) && IsReady(s', x) == IsReady(s, x);
  }

  /** The idle task frees a task that deleted itself; it is in no list any more. */
  lemma CleanUpKept(s: Sched)
    requires Inv(s) && Enabled(s, CleanUp)
    ensures Kept(s, CleanUp)
  {
    hide Core, Take, OnTime, Preemptive, Counted;
    var s' := Apply(s, CleanUp);
    DeletedHead(s);
    var t := InState(s, Terminated)[0];
    UnlinkedHead(s, t);
    var e := RemoveState(s, t);
    ForgetCore(e, t, Now(s) + 1);
    SameListsCore(e.(tcbs := e.tcbs - {t}), s', {}, Now(s) + 1);
    assert s.event.at - {t} == s.event.at;
    TerminationLength(s);
    DeletedCounted(s, s', t);
    DeletedOther(s, s', t);
    NeverDelayed(s, s', t);
  }

  lemma NeverDelayed(s: Sched, s': Sched, t: Task)
    requires InList(s, t, Terminated) && t !in s'.state.at
    ensures OnTime(s, s', t)
  {
  }

  lemma DeletedHead(s: Sched)
    requires Inv(s) && s.deleted > 0 && IsReady(s, s.current)
    ensures InState(s, Terminated) != [] && s.numTasks > 0
    ensures var t := InState(s, Terminated)[0];
      InList(s, t, Terminated) && t in s.tcbs && t !in s.event.at && t != s.current && t != s.idle
  {
    var t := InState(s, Terminated)[0];
    assert t in InState(s, Terminated);
    assert t in s.state.at.Keys;
    assert s.tcbs.Keys != {};
  }

  lemma UnlinkedHead(s: Sched, t: Task)
    requires Core(s, {}, Now(s) + 1) && InList(s, t, Terminated) && t in s.tcbs
    ensures var e := RemoveState(s, t);
      Core(e, {t}, Now(s) + 1) && e == s.(state := e.state) && e.state.at == s.state.at - {t}
      && |InState(e, Terminated)| == |InState(s, Terminated)| - 1
  {
    hide Valid, Take, InOrder, Due;
    TakeValid(s.state, t);
    TakeOrdered(s, t);
    DueFrame(s, RemoveState(s, t), Now(s) + 1);
  }

  // ---- resuming the scheduler ----

  /** xTaskResumeAll at the outermost level: r is s with the pending tasks readied and then all
      tasks due within the ticks held back, none of them a task that was pending. */
  ghost predicate Resumed(s: Sched, r: Sched) {
    && r == s.(state := r.state, event := r.event, top := r.top, next := r.next, tick := r.tick, epoch := r.epoch,
               swapped := r.swapped, yieldPending := r.yieldPending, owed := r.owed, suspended := 0, pended := 0)
    && Now(r) == Now(s) + s.pended
    && r.state.at.Keys == s.state.at.Keys
    && (forall t {:trigger r.state.at[t]} :: t in s.state.at ==>
         r.state.at[t] == if Pending(s, t) || DueWithin(s, s.pended, t) then Ready(Prio(s, t)) else s.state.at[t])
    && (forall t :: t in r.event.at <==> t in s.event.at && !Pending(s, t) && !DueWithin(s, s.pended, t))
    && (forall t :: t in r.event.at ==> r.event.at[t] == s.event.at[t])
    && InState(r, Terminated) == InState(s, Terminated)
    && (r.yieldPending <==> s.yieldPending || (exists t :: Recalled(s, t)) || (s.pended > 0 && Shared(r)))
    && r.owed == (s.owed || r.yieldPending)
  }

  /** A task of at least the running task's priority that was woken, or became due, during the suspension. */
  ghost predicate Recalled(s: Sched, t: Task) {
    (Pending(s, t) || DueWithin(s, s.pended, t)) && Prio(s, t) >= Prio(s, s.current)
  }

  lemma ReadyPendedExact(s: Sched)
    requires Core(s, {}, Now(s) + 1) && EventsLive(s)
    ensures var r := ReadyPended(s);
      Core(r, {}, Now(s) + 1) && Drained(s, r.(next := s.next)) && Now(r) == Now(s)
  {
    hide Core, Drain, ResetNext, EventsLive, Drained;
    var l := InEvent(s, PendingReady);
    if l == [] {
      NonePending(s);
    } else {
      DrainExact(s, |l|);
      var d := Drain(s, |l|);
      SameNow(s, d);
      ResetNextCore(d, {}, Now(s) + 1);
      OnlyNext(d, s.next);
      DrainedNext(s, d);
    }
  }

  lemma SameNow(s: Sched, d: Sched)
    requires Drained(s, d)
    ensures Now(d) == Now(s)
  {
  }

  lemma OnlyNext(d: Sched, next: Machine.Tick)
    ensures ResetNext(d).(next := next) == d.(next := next) && Now(ResetNext(d)) == Now(d)
  {
  }

  lemma DrainedNext(s: Sched, d: Sched)
    requires Drained(s, d)
    ensures Drained(s, d.(next := s.next))
  {
  }

  lemma ResumedExact(s: Sched)
    requires Core(s, {}, Now(s) + 1) && EventsLive(s) && s.suspended == 1
    ensures Core(ResumeAll(s), {}, Now(s) + s.pended + 1) && Resumed(s, ResumeAll(s))
  {
    hide Core, ReadyPended, Replay, EventsLive, Drained, WokenBy, Resumed;
    var s0 := s.(suspended := 0);
    SameListsCore(s, s0, {}, Now(s) + 1);
    LiveToo(s, s0);
    ReadyPendedExact(s0);
    var s1 := ReadyPended(s0);
    DrainedScalars(s0, s1);
    ReplayExact(s1, s.pended);
    var s2 := Replay(s1, s.pended);
    var r := ResumeAll(s);
    WokenNow(s1, s.pended, s2);
    SameListsCore(s2, r, {}, Now(s) + s.pended + 1);
    ResumedFrom(s, s0, s1, s2, r);
  }

  lemma LiveToo(s: Sched, s0: Sched)
    requires EventsLive(s) && s0 == s.(suspended := 0)
    ensures EventsLive(s0)
  {
    assert forall t :: InList(s0, t, Terminated) == InList(s, t, Terminated);
  }

  lemma DrainedScalars(s: Sched, r: Sched)
    requires Drained(s, r.(next := s.next))
    ensures r.suspended == s.suspended && r.pended == s.pended && r.owed == s.owed
  {
  }

  lemma WokenNow(s: Sched, n: nat, r: Sched)
    requires WokenBy(s, n, r)
    ensures Now(r) == Now(s) + n && r.owed == s.owed
  {
  }

  lemma ResumedFrom(s: Sched, s0: Sched, s1: Sched, s2: Sched, r: Sched)
    requires s0 == s.(suspended := 0) && Drained(s0, s1.(next := s0.next)) && WokenBy(s1, s.pended, s2)
    requires r == s2.(pended := 0, owed := s2.owed || s2.yieldPending)
    ensures Resumed(s, r)
  {
    forall t ensures Pending(s0, t) == Pending(s, t) && T(s1, t) == T(s, t) {}
    forall t ensures DueWithin(s1, s.pended, t) <==> !Pending(s, t) && DueWithin(s, s.pended, t)
    {
      if t in s.state.at {
        assert s1.(next := s0.next).state.at[t] == if Pending(s0, t) then Ready(Prio(s, t)) else s.state.at[t];
      } else {
        assert t !in s1.(next := s0.next).state.at.Keys;
      }
    }
    ResumedRest(s, s1, s2, r);
    ResumedYield(s, s1, s2, r);
  }

  ghost predicate ResumedMoves(s: Sched, r: Sched) {
    && r.state.at.Keys == s.state.at.Keys
    && (forall t {:trigger r.state.at[t]} :: t in s.state.at ==>
         r.state.at[t] == if Pending(s, t) || DueWithin(s, s.pended, t) then Ready(Prio(s, t)) else s.state.at[t])
    && (forall t :: t in r.event.at <==> t in s.event.at && !Pending(s, t) && !DueWithin(s, s.pended, t))
    && (forall t :: t in r.event.at ==> r.event.at[t] == s.event.at[t])
    && InState(r, Terminated) == InState(s, Terminated)
  }

  lemma ResumedRest(s: Sched, s1: Sched, s2: Sched, r: Sched)
    requires Drained(s.(suspended := 0), s1.(next := s.next)) && WokenBy(s1, s.pended, s2)
    requires r == s2.(pended := 0, owed := s2.owed || s2.yieldPending)
    requires forall t :: T(s1, t) == T(s, t)
    requires forall t :: DueWithin(s1, s.pended, t) <==> !Pending(s, t) && DueWithin(s, s.pended, t)
    ensures ResumedMoves(s, r)
  {
    hide Shared;
    var m := s1.(next := s.next);
    forall t ensures Pending(s.(suspended := 0), t) == Pending(s, t) {}
    forall t | t in s.state.at ensures
      r.state.at[t] == if Pending(s, t) || DueWithin(s, s.pended, t) then Ready(Prio(s, t)) else s.state.at[t]
    {
      assert s2.state.at[t] == if DueWithin(s1, s.pended, t) then Ready(Prio(s1, t)) else s1.state.at[t];
      assert m.state.at[t] == if Pending(s, t) then Ready(Prio(s, t)) else s.state.at[t];
    }
    forall t ensures t in r.event.at <==> t in s.event.at && !Pending(s, t) && !DueWithin(s, s.pended, t) {
      assert t in m.event.at <==> t in s.event.at && !Pending(s, t);
      assert t in s2.event.at <==> t in s1.event.at && !DueWithin(s1, s.pended, t);
    }
    forall t | t in r.event.at ensures r.event.at[t] == s.event.at[t] {
      assert t in s2.event.at && t in m.event.at;
    }
    assert InState(r, Terminated) == InState(s2, Terminated) == InState(s1, Terminated) == InState(s, Terminated);
  }

  lemma ResumedYield(s: Sched, s1: Sched, s2: Sched, r: Sched)
    requires Drained(s.(suspended := 0), s1.(next := s.next)) && WokenBy(s1, s.pended, s2)
    requires r == s2.(pended := 0, owed := s2.owed || s2.yieldPending)
    requires forall t :: T(s1, t) == T(s, t)
    requires forall t :: DueWithin(s1, s.pended, t) <==> !Pending(s, t) && DueWithin(s, s.pended, t)
    ensures r.yieldPending <==> s.yieldPending || (exists t :: Recalled(s, t)) || (s.pended > 0 && Shared(r))
  {
    assert forall t :: PendingRival(s.(suspended := 0), t) <==> Pending(s, t) && Prio(s, t) >= Prio(s, s.current);
    assert forall t :: DueRival(s1, s.pended, t) <==> DueWithin(s1, s.pended, t) && Prio(s, t) >= Prio(s, s.current);
    assert forall t :: Recalled(s, t) <==> PendingRival(s.(suspended := 0), t) || DueRival(s1, s.pended, t);
    assert forall t, u :: Equals(r, t, u) <==> Equals(s2, t, u);
  }

  lemma ResumeSchedulerKept(s: Sched)
    requires Inv(s) && Enabled(s, ResumeScheduler)
    ensures Kept(s, ResumeScheduler)
  {
    hide Core, ResumeAll;
    var s' := ResumeAll(s);
    forall t | IsDelayed(s, t) ensures T(s, t).due > Now(s) { DelayedLater(s, t); }
    if s.suspended == 1 {
      ResumedExact(s);
      AtKeys(s);
      ResumedCounted(s, s');
      ResumedOnTime(s, s');
    } else {
      NestedResume(s);
      SameListsCore(s, s', {}, Now(s) + 1);
      SameListsFacts(s, s');
    }
  }

  lemma NestedResume(s: Sched)
    requires s.suspended > 1
    ensures ResumeAll(s) == s.(suspended := s.suspended - 1)
  {
  }

  lemma ResumedCounted(s: Sched, r: Sched)
    requires Counted(s) && Resumed(s, r) && s.state.at.Keys == s.tcbs.Keys
    ensures Counted(r)
  {
    assert r.state.at[s.idle].Ready?;
    forall t | t in r.event.at ensures !InList(r, t, Terminated) && !Pending(r, t) {
      assert !InList(s, t, Terminated);
      if t in s.state.at { assert r.state.at[t] == Ready(Prio(s, t)) || r.state.at[t] == s.state.at[t]; }
    }
  }

  lemma ResumedOnTime(s: Sched, r: Sched)
    requires Resumed(s, r) && s.state.at.Keys == s.tcbs.Keys
    requires s.suspended == 1
    requires forall t :: IsDelayed(s, t) ==> T(s, t).due > Now(s)
    ensures Preemptive(s) ==> Preemptive(r)
    ensures forall t :: !Touches(s, ResumeScheduler, t) ==> OnTime(s, r, t)
  {
    if Preemptive(s) { ResumedPreempts(s, r); }
    hide Preemptive, Shared, Recalled;
    forall t ensures T(r, t) == T(s, t) {}
    forall t | t in s.state.at ensures
      r.state.at[t] == if Pending(s, t) || DueWithin(s, s.pended, t) then Ready(Prio(s, t)) else s.state.at[t] {}
  }

  lemma ResumedPreempts(s: Sched, r: Sched)
    requires Resumed(s, r) && Preemptive(s)
    ensures Preemptive(r)
  {
    hide Shared;
    assert r.tcbs == s.tcbs && r.current == s.current;
    if !r.owed && !r.yieldPending {
      forall t | IsReady(r, t) ensures Prio(r, t) <= Prio(r, r.current) {
        assert t in s.state.at by { assert t in r.state.at.Keys; }
        assert r.state.at[t] == if Pending(s, t) || DueWithin(s, s.pended, t) then Ready(Prio(s, t)) else s.state.at[t];
        assert !Recalled(s, t);
        assert Prio(r, t) == Prio(s, t) && Prio(r, r.current) == Prio(s, s.current);
        if !Pending(s, t) && !DueWithin(s, s.pended, t) { assert IsReady(s, t); }
      }
    }
  }
}
