/** xTaskResumeAll: the tasks interrupts have woken first, then the ticks held back. */
module SchedulerResume {
  import opened ItemStore
  import opened Scheduler
  import opened SchedulerLists
  import opened SchedulerTick

  ghost predicate Pending(s: Sched, t: Task) { t in s.event.at && s.event.at[t] == PendingReady }

  /** A task waiting for an event has not been deleted. */
  ghost predicate EventsLive(s: Sched) {
    forall t :: t in s.event.at ==> !InList(s, t, Terminated)
  }

  /** r is s with exactly the pending tasks moved to their ready lists. */
  ghost predicate Drained(s: Sched, r: Sched) {
    && r == s.(state := r.state, event := r.event, top := r.top, yieldPending := r.yieldPending)
    && r.state.at.Keys == s.state.at.Keys
    && (forall t {:trigger r.state.at[t]} :: t in s.state.at ==>
         r.state.at[t] == if Pending(s, t) then Ready(Prio(s, t)) else s.state.at[t])
    && (forall t :: t in r.event.at <==> t in s.event.at && !Pending(s, t))
    && (forall t :: t in r.event.at ==> r.event.at[t] == s.event.at[t])
    && InState(r, Terminated) == InState(s, Terminated)
    && (r.yieldPending <==> s.yieldPending || exists t :: PendingRival(s, t))
  }

  /** A pending task of at least the running task's priority. */
  ghost predicate PendingRival(s: Sched, t: Task) { Pending(s, t) && Prio(s, t) >= Prio(s, s.current) }

  function DrainOne(s: Sched, t: Task): Sched {
    var s1 := AddReady(RemoveState(RemoveEvent(s, t), t), t);
    if Prio(s, t) >= Prio(s, s.current) then s1.(yieldPending := true) else s1
  }

  lemma DrainOneCore(s: Sched, t: Task)
    requires Core(s, {}, Now(s) + 1) && Pending(s, t) && EventsLive(s)
    ensures var r := DrainOne(s, t);
      Core(r, {}, Now(s) + 1) && EventsLive(r) && r.state.at == s.state.at[t := Ready(Prio(s, t))]
      && r.event.at == s.event.at - {t} && |InEvent(r, PendingReady)| == |InEvent(s, PendingReady)| - 1
      && InState(r, Terminated) == InState(s, Terminated)
      && r == s.(state := r.state, event := r.event, top := r.top, yieldPending := r.yieldPending)
      && r.yieldPending == (s.yieldPending || Prio(s, t) >= Prio(s, s.current))
  {
    hide Core, AddReady;
    RemoveEventCore(s, t, {}, Now(s) + 1);
    var e := RemoveEvent(s, t);
    PendingShorter(s, t);
    TimeOutSwap(s, t);
    assert s.state.at[t] != Terminated && t in s.tcbs by { PendingKnown(s, t); }
    MoveToReadyCore(e, t, Now(s) + 1);
    var m := AddReady(RemoveState(e, t), t);
    DrainOneFrame(s, t);
    assert InState(m, Terminated) == InState(e, Terminated) == InState(s, Terminated);
    SameListsCore(m, DrainOne(s, t), {}, Now(s) + 1);
  }

  lemma PendingKnown(s: Sched, t: Task)
    requires Core(s, {}, Now(s) + 1) && Pending(s, t) && EventsLive(s)
    ensures t in s.tcbs && t in s.state.at && s.state.at[t] != Terminated
  {
    assert !InList(s, t, Terminated);
  }

  lemma PendingShorter(s: Sched, t: Task)
    requires Core(s, {}, Now(s) + 1) && Pending(s, t)
    ensures |InEvent(RemoveEvent(s, t), PendingReady)| == |InEvent(s, PendingReady)| - 1
  {
    TakeValid(s.event, t);
  }

  lemma DrainOneFrame(s: Sched, t: Task)
    ensures var e := RemoveEvent(s, t);
      var m, r := AddReady(RemoveState(e, t), t), DrainOne(s, t);
      SameLists(m, r) && Now(e) == Now(s) && Now(m) == Now(s) && m.event == e.event && r.state == m.state
      && r == s.(state := r.state, event := r.event, top := r.top, yieldPending := r.yieldPending)
      && r.yieldPending == (s.yieldPending || Prio(s, t) >= Prio(s, s.current))
  {
  }

  lemma {:induction false} DrainExact(s: Sched, fuel: nat)
    requires Core(s, {}, Now(s) + 1) && EventsLive(s) && |InEvent(s, PendingReady)| <= fuel
    ensures Core(Drain(s, fuel), {}, Now(s) + 1) && EventsLive(Drain(s, fuel)) && Drained(s, Drain(s, fuel))
    decreases fuel
  {
    hide Core, DrainOne, Drained, EventsLive, Valid, AddReady, RemoveEvent, RemoveState;
    var l := InEvent(s, PendingReady);
    if l == [] {
      NonePending(s);
    } else {
      FirstPending(s);
      PendingKnown(s, l[0]);
      DrainOneCore(s, l[0]);
      DrainExact(DrainOne(s, l[0]), fuel - 1);
      DrainedOneMore(s, l[0], Drain(DrainOne(s, l[0]), fuel - 1));
      DrainUnfold(s, fuel);
    }
  }

  lemma DrainUnfold(s: Sched, fuel: nat)
    requires InEvent(s, PendingReady) != [] && fuel > 0
    ensures Drain(s, fuel) == Drain(DrainOne(s, InEvent(s, PendingReady)[0]), fuel - 1)
  {
  }

  lemma NonePending(s: Sched)
    requires Core(s, {}, Now(s) + 1) && InEvent(s, PendingReady) == []
    ensures Drained(s, s) && forall t :: !Pending(s, t)
  {
    forall t ensures !Pending(s, t) {
      assert t !in InEvent(s, PendingReady);
    }
  }

  lemma FirstPending(s: Sched)
    requires Core(s, {}, Now(s) + 1) && InEvent(s, PendingReady) != []
    ensures Pending(s, InEvent(s, PendingReady)[0])
  {
    assert InEvent(s, PendingReady)[0] in InEvent(s, PendingReady);
  }

  lemma DrainedOneMore(s: Sched, t: Task, r: Sched)
    requires Pending(s, t) && Drained(DrainOne(s, t), r) && t in s.state.at
    requires var m := DrainOne(s, t);
      m.state.at == s.state.at[t := Ready(Prio(s, t))] && m.event.at == s.event.at - {t}
      && InState(m, Terminated) == InState(s, Terminated)
      && m == s.(state := m.state, event := m.event, top := m.top, yieldPending := m.yieldPending)
      && m.yieldPending == (s.yieldPending || Prio(s, t) >= Prio(s, s.current))
    ensures Drained(s, r)
  {
    hide DrainOne;
    var m := DrainOne(s, t);
    assert forall x :: Pending(m, x) <==> Pending(s, x) && x != t;
    assert forall x :: Prio(m, x) == Prio(s, x);
    assert forall x :: PendingRival(m, x) <==> PendingRival(s, x) && x != t;
    assert PendingRival(s, t) <==> Prio(s, t) >= Prio(s, s.current);
  }

  // ---- the ticks held back ----

  ghost predicate DueWithin(s: Sched, n: nat, t: Task) { IsDelayed(s, t) && T(s, t).due <= Now(s) + n }

  /** r is s after n ticks: exactly the delayed tasks due by then are ready. */
  ghost predicate WokenBy(s: Sched, n: nat, r: Sched) {
    && MovedBy(s, n, r)
    && (r.yieldPending <==> s.yieldPending || (exists t :: DueRival(s, n, t)) || (n > 0 && Shared(r)))
  }

  ghost predicate MovedBy(s: Sched, n: nat, r: Sched) {
    && r == s.(state := r.state, event := r.event, top := r.top, next := r.next, tick := r.tick, epoch := r.epoch,
               swapped := r.swapped, yieldPending := r.yieldPending)
    && Now(r) == Now(s) + n
    && r.state.at.Keys == s.state.at.Keys
    && (forall t {:trigger r.state.at[t]} :: t in s.state.at ==>
         r.state.at[t] == if DueWithin(s, n, t) then Ready(Prio(s, t)) else s.state.at[t])
    && (forall t :: t in r.event.at <==> t in s.event.at && !DueWithin(s, n, t))
    && (forall t :: t in r.event.at ==> r.event.at[t] == s.event.at[t])
    && InState(r, Suspended) == InState(s, Suspended) && InState(r, Terminated) == InState(s, Terminated)
  }

  /** A delayed task of at least the running task's priority is due within n ticks. */
  ghost predicate DueRival(s: Sched, n: nat, t: Task) { DueWithin(s, n, t) && Prio(s, t) >= Prio(s, s.current) }

  function ReplayOne(s: Sched): Sched {
    var r := IncrementTick(s);
    if r.switch then r.s.(yieldPending := true) else r.s
  }

  lemma {:induction false} ReplayExact(s: Sched, n: nat)
    requires Core(s, {}, Now(s) + 1) && s.suspended == 0
    ensures Core(Replay(s, n), {}, Now(s) + n + 1) && WokenBy(s, n, Replay(s, n))
    decreases n
  {
    hide Core, IncrementTick, WokenBy, Woken;
    if n == 0 {
      NoTicks(s);
    } else {
      TickExact(s);
      var m, r := ReplayOne(s), IncrementTick(s);
      SameListsCore(r.s, m, {}, Now(r.s) + 1);
      OneTick(s, r, m);
      ReplayExact(m, n - 1);
      OneMoreTick(s, n, m, Replay(m, n - 1));
    }
  }

  lemma NoTicks(s: Sched)
    requires Core(s, {}, Now(s) + 1)
    ensures WokenBy(s, 0, s)
  {
    forall t ensures !DueWithin(s, 0, t) {
      assert IsDelayed(s, t) ==> InList(s, t, CurrentList(s)) || InList(s, t, OverflowList(s));
    }
  }

  lemma OneTick(s: Sched, r: Ticked, m: Sched)
    requires Woken(s, r.s) && m == (if r.switch then r.s.(yieldPending := true) else r.s)
    requires r.switch <==> s.yieldPending || (exists t :: Challenger(s, t)) || Shared(r.s)
    requires s.yieldPending ==> r.switch
    ensures Woken(s, m.(yieldPending := s.yieldPending)) && Now(m) == Now(s) + 1
    ensures m.yieldPending <==> s.yieldPending || (exists t :: Challenger(s, t)) || Shared(m)
    ensures m.suspended == s.suspended
  {
    assert forall t, u :: Equals(m, t, u) <==> Equals(r.s, t, u);
  }

  lemma OneMoreTick(s: Sched, n: nat, m: Sched, r: Sched)
    requires n > 0 && Woken(s, m.(yieldPending := s.yieldPending)) && WokenBy(m, n - 1, r)
    requires Core(s, {}, Now(s) + 1)
    requires m.yieldPending <==> s.yieldPending || (exists t :: Challenger(s, t)) || Shared(m)
    ensures WokenBy(s, n, r)
  {
    OneMoreMoves(s, n, m, r);
    OneMoreYield(s, n, m, r);
  }

  lemma OneMoreMoves(s: Sched, n: nat, m: Sched, r: Sched)
    requires n > 0 && Woken(s, m.(yieldPending := s.yieldPending)) && MovedBy(m, n - 1, r)
    requires Core(s, {}, Now(s) + 1)
    ensures MovedBy(s, n, r) && forall t :: DueWithin(s, n, t) <==> DueNext(s, t) || DueWithin(m, n - 1, t)
  {
    hide Core;
    assert forall t :: Prio(m, t) == Prio(s, t);
    forall t ensures DueWithin(s, n, t) <==> DueNext(s, t) || DueWithin(m, n - 1, t) {
      if IsDelayed(s, t) { NotOverdue(s, t); }
    }
    forall t ensures !(DueNext(s, t) && DueWithin(m, n - 1, t)) {
    }
  }

  lemma OneMoreYield(s: Sched, n: nat, m: Sched, r: Sched)
    requires n > 0 && Woken(s, m.(yieldPending := s.yieldPending)) && WokenBy(m, n - 1, r)
    requires Core(s, {}, Now(s) + 1)
    requires m.yieldPending <==> s.yieldPending || (exists t :: Challenger(s, t)) || Shared(m)
    requires forall t :: DueWithin(s, n, t) <==> DueNext(s, t) || DueWithin(m, n - 1, t)
    ensures r.yieldPending <==> s.yieldPending || (exists t :: DueRival(s, n, t)) || Shared(r)
  {
    hide Core, DueWithin, DueNext;
    assert forall t :: Prio(m, t) == Prio(s, t);
    var k := n - 1;
    forall t ensures DueRival(s, n, t) <==> Challenger(s, t) || DueRival(m, k, t) {
      assert DueWithin(s, n, t) <==> DueNext(s, t) || DueWithin(m, n - 1, t);
    }
    assert WokenBy(m, k, r);
    hide Challenger, DueRival;
    if Shared(m) { SharedStays(m, n - 1, r); }
    if n == 1 && Shared(r) { SharedBefore(s, m, r); }
  }

  lemma SharedBefore(s: Sched, m: Sched, r: Sched)
    requires Core(s, {}, Now(s) + 1) && Woken(s, m.(yieldPending := s.yieldPending)) && WokenBy(m, 0, r) && Shared(r)
    ensures Shared(m)
  {
    forall t ensures !DueWithin(m, 0, t) {
      if IsDelayed(s, t) { NotOverdue(s, t); }
    }
    hide Core;
    var t, u :| Equals(r, t, u);
    assert r.state.at[t] == m.state.at[t] && r.state.at[u] == m.state.at[u];
    assert Equals(m, t, u);
  }

  /** Ticks take nobody off the ready lists. */
  lemma SharedStays(m: Sched, n: nat, r: Sched)
    requires WokenBy(m, n, r) && Shared(m)
    ensures Shared(r)
  {
    var t, u :| Equals(m, t, u);
    assert r.state.at[t] == m.state.at[t] && r.state.at[u] == m.state.at[u];
    assert Equals(r, t, u);
  }

  lemma NotOverdue(s: Sched, t: Task)
    requires Core(s, {}, Now(s) + 1) && IsDelayed(s, t)
    ensures T(s, t).due > Now(s) && t in s.state.at
  {
    assert InList(s, t, CurrentList(s)) || InList(s, t, OverflowList(s));
  }
}
