/** The steps that change priorities: vTaskPrioritySet, and the inheritance that taking, giving and
    timing out on a mutex cause. A task whose priority changes must move to another ready list, with
    its bit set there and, when it was the last of the old list, cleared here; its base priority and
    the key of its event item change with it. Two cases do less than that, and they are singled out:
    the give that drops a switch, and the time-out that clears the wrong bit. Every other case keeps
    the invariant and preemption. */
module SchedulerPriority {
  import opened ItemStore
  import opened Scheduler
  import opened SchedulerLists
  import opened SchedulerTick
  import opened SchedulerSteps

  /** Where a task stands after a priority change. */
  lemma Requeued(s: Sched, t: Task, tcb: Tcb)
    requires Core(s, {}, Now(s) + 1) && t in s.tcbs
    requires tcb.wake == s.tcbs[t].wake && tcb.due == s.tcbs[t].due && tcb.prio < s.levels && tcb.base < s.levels
    ensures var p := Prio(s, t);
      var m := if InList(s, t, Ready(p)) then AddReady(SetTcb(Unready(s, t, p), t, tcb), t) else SetTcb(s, t, tcb);
      Core(m, {}, Now(s) + 1) && Reprioritised(s, m, t) && T(m, t) == tcb && m.owed == s.owed
      && (InList(s, t, Ready(p)) <==> IsReady(s, t))
  {
    hide Core, Unready, AddReady, Reprioritised;
    if IsReady(s, t) {
      OwnList(s, t);
      RelistCore(s, t, tcb);
    } else {
      OnlyTcb(s, t, tcb);
    }
    RequeuedTcb(s, t, tcb);
  }

  lemma RequeuedTcb(s: Sched, t: Task, tcb: Tcb)
    ensures T(AddReady(SetTcb(Unready(s, t, Prio(s, t)), t, tcb), t), t) == tcb && T(SetTcb(s, t, tcb), t) == tcb
    ensures AddReady(SetTcb(Unready(s, t, Prio(s, t)), t, tcb), t).owed == s.owed
  {
  }

  lemma OwedReprio(s: Sched, m: Sched, s': Sched, t: Task)
    requires Core(m, {}, Now(s) + 1) && Reprioritised(s, m, t) && s' == m.(owed := s'.owed)
    ensures Core(s', {}, Now(s) + 1) && Reprioritised(s, s', t) && T(s', t) == T(m, t)
  {
    hide Core;
    SameListsCore(m, s', {}, Now(s) + 1);
    assert forall x :: T(s', x) == T(m, x) && IsReady(s', x) == IsReady(m, x);
  }

  /** After a priority change the ready tasks are the same, and only t's priority may differ. */
  lemma PreemptAfter(s: Sched, s': Sched, t: Task)
    requires Core(s, {}, Now(s) + 1) && Reprioritised(s, s', t) && Preemptive(s)
    ensures Preemptive(s') <==> s'.owed || s.yieldPending || forall x :: IsReady(s, x) ==> Prio(s', x) <= Prio(s', s.current)
    ensures forall x :: x != t ==> Prio(s', x) == Prio(s, x)
  {
    ReprioReady(s, s', t);
  }

  /** The control block after vTaskPrioritySet. */
  function Repriced(s: Sched, t: Task, p: nat): Tcb {
    var tcb := T(s, t);
    tcb.(prio := if tcb.base == tcb.prio then p else tcb.prio, base := p, eventValue := EventValueFor(s, tcb.eventValue, p))
  }

  lemma SetPriorityKept(s: Sched, t: Task, p: nat)
    requires Inv(s) && Enabled(s, SetPriority(t, p))
    ensures Kept(s, SetPriority(t, p))
  {
    hide Core, Unready, AddReady, Reprioritised, Preemptive, PrioritySet, InList, Repriced, SetTcb;
    var step, tcb, next := SetPriority(t, p), T(s, t), Repriced(s, t, p);
    var s' := Apply(s, step);
    if tcb.base == p {
      SamePriority(s, t, p);
      UnchangedKept(s, step);
    } else {
      BoundedTcb(s, t);
      RepricedParts(s, t, p);
      Requeued(s, t, next);
      PrioritySetParts(s, t, p);
      var m := if InList(s, t, Ready(tcb.prio)) then AddReady(SetTcb(Unready(s, t, tcb.prio), t, next), t) else SetTcb(s, t, next);
      OwedReprio(s, m, s', t);
      if Preemptive(s) { SetPriorityPreempts(s, s', t, p); }
      ReprioKept(s, step, t);
    }
  }

  lemma SamePriority(s: Sched, t: Task, p: nat)
    requires T(s, t).base == p
    ensures PrioritySet(s, t, p) == s
  {
  }

  lemma RepricedParts(s: Sched, t: Task, p: nat)
    ensures var next, tcb := Repriced(s, t, p), T(s, t);
      && next.wake == tcb.wake && next.due == tcb.due && next.base == p
      && next.prio == if tcb.base == tcb.prio then p else tcb.prio
  {
    hide EventValueFor;
  }

  lemma PrioritySetParts(s: Sched, t: Task, p: nat)
    requires Core(s, {}, Now(s) + 1) && t in s.tcbs && T(s, t).base != p
    ensures var q, next, s' := Prio(s, t), Repriced(s, t, p), PrioritySet(s, t, p);
      var m := if InList(s, t, Ready(q)) then AddReady(SetTcb(Unready(s, t, q), t, next), t) else SetTcb(s, t, next);
      && s' == m.(owed := s'.owed)
      && s'.owed == (m.owed || if p > T(s, t).base then t != s.current && p >= Prio(s, s.current) else t == s.current)
  {
    hide Core, Unready, UnreadyDirect, AddReady, EventValueFor;
    if InList(s, t, Ready(Prio(s, t))) { RelistOrder(s, t, Repriced(s, t, p), Prio(s, t)); }
  }

  lemma SetPriorityPreempts(s: Sched, s': Sched, t: Task, p: nat)
    requires Core(s, {}, Now(s) + 1) && Reprioritised(s, s', t) && Preemptive(s) && T(s, t).base != p
    requires T(s', t).prio == if T(s, t).base == T(s, t).prio then p else T(s, t).prio
    requires s'.owed == (s.owed || if p > T(s, t).base then t != s.current && p >= Prio(s, s.current) else t == s.current)
    ensures Preemptive(s')
  {
    PreemptAfter(s, s', t);
  }

  lemma InheritKept(s: Sched, t: Task)
    requires Inv(s) && Enabled(s, InheritPriority(t))
    ensures Kept(s, InheritPriority(t))
  {
    hide Core, Unready, AddReady, Reprioritised, Preemptive, EventValueFor;
    var step, tcb, p := InheritPriority(t), T(s, t), Prio(s, s.current);
    var s' := Apply(s, step);
    if tcb.prio >= p {
      UnchangedKept(s, step);
    } else {
      BoundedTcb(s, t);
      BoundedTcb(s, s.current);
      Requeued(s, t, tcb.(prio := p, eventValue := EventValueFor(s, tcb.eventValue, p)));
      if Preemptive(s) { LoweredPreempts(s, s', t); }
      ReprioKept(s, step, t);
    }
  }

  /** A priority that ends up no higher than the running task's, and not the running task's own. */
  lemma LoweredPreempts(s: Sched, s': Sched, t: Task)
    requires Core(s, {}, Now(s) + 1) && Reprioritised(s, s', t) && Preemptive(s) && t != s.current && s'.owed == s.owed
    ensures Preemptive(s') <==> !(Quiet(s) && IsReady(s, t) && Prio(s', t) > Prio(s, s.current))
  {
    PreemptAfter(s, s', t);
  }

  lemma TakeMutexKept(s: Sched)
    requires Inv(s) && Enabled(s, Step.TakeMutex)
    ensures Kept(s, Step.TakeMutex)
  {
    hide Core, Reprioritised, Preemptive;
    var t := s.current;
    BoundedTcb(s, t);
    OnlyTcb(s, t, T(s, t).(held := T(s, t).held + 1));
    if Preemptive(s) { HeldPreempts(s, Apply(s, Step.TakeMutex)); }
    ReprioKept(s, Step.TakeMutex, t);
  }

  lemma ResetItemKept(s: Sched)
    requires Inv(s) && Enabled(s, ResetItemValue)
    ensures Kept(s, ResetItemValue)
  {
    hide Core, Reprioritised, Preemptive;
    var t := s.current;
    BoundedTcb(s, t);
    OnlyTcb(s, t, T(s, t).(eventValue := s.levels - Prio(s, t)));
    if Preemptive(s) { HeldPreempts(s, Apply(s, ResetItemValue)); }
    ReprioKept(s, ResetItemValue, t);
  }

  lemma HeldPreempts(s: Sched, s': Sched)
    requires Core(s, {}, Now(s) + 1) && Reprioritised(s, s', s.current) && Preemptive(s) && s'.owed == s.owed
    requires Prio(s', s.current) == Prio(s, s.current)
    ensures Preemptive(s')
  {
    PreemptAfter(s, s', s.current);
  }

  // ---- a mutex time-out ----

  function TimedOut(s: Sched, t: Task, p: nat): Tcb {
    var tcb := T(s, t);
    var q := if tcb.base < p then p else tcb.base;
    tcb.(prio := q, eventValue := EventValueFor(s, tcb.eventValue, q))
  }

  /** If the old ready list keeps another task, clearing the wrong bit does no harm. */
  lemma WrongBitHarmless(s: Sched, t: Task, tcb: Tcb)
    requires Core(s, {}, Now(s) + 1) && IsReady(s, t) && |InState(s, Ready(Prio(s, t)))| != 1
    ensures Unready(SetTcb(s, t, tcb), t, tcb.prio) == SetTcb(Unready(s, t, Prio(s, t)), t, tcb)
  {
    hide Take, Valid;
    OwnList(s, t);
    AtKeys(s);
    ListShrinks(s, t);
  }

  lemma ListShrinks(s: Sched, t: Task)
    requires Core(s, {}, Now(s) + 1) && t in s.state.at
    ensures |Items(Take(s.state, t), s.state.at[t])| == |InState(s, s.state.at[t])| - 1
    ensures forall l :: l != s.state.at[t] ==> Items(Take(s.state, t), l) == InState(s, l)
  {
    TakeValid(s.state, t);
  }

  lemma MutexTimeoutKept(s: Sched, t: Task, p: nat)
    requires Inv(s) && Enabled(s, MutexTimeout(t, p)) && !StaleBit(s, MutexTimeout(t, p))
    ensures Kept(s, MutexTimeout(t, p))
  {
    hide Core, Unready, AddReady, Reprioritised, Preemptive, EventValueFor;
    var step, tcb, next := MutexTimeout(t, p), T(s, t), TimedOut(s, t, p);
    var s' := Apply(s, step);
    BoundedTcb(s, t);
    if tcb.prio == next.prio || tcb.held != 1 {
      if Preemptive(s) { TimeoutNoChange(s, t, p); }
      UnchangedKept(s, step);
    } else {
      Requeued(s, t, next);
      if IsReady(s, t) { WrongBitHarmless(s, t, next); }
      if Preemptive(s) {
        if t == s.current { OwnPreempts(s, s', next.prio); } else { LoweredPreempts(s, s', t); }
      }
      ReprioKept(s, step, t);
    }
  }

  /** The running task's own priority is recomputed. */
  lemma OwnPreempts(s: Sched, s': Sched, p: nat)
    requires Core(s, {}, Now(s) + 1) && Reprioritised(s, s', s.current) && Preemptive(s) && s'.owed == s.owed
    requires Prio(s', s.current) == p
    ensures Preemptive(s') <==> !(Quiet(s) && exists x :: IsReady(s, x) && x != s.current && Prio(s, x) > p)
  {
    PreemptAfter(s, s', s.current);
  }

  lemma TimeoutNoChange(s: Sched, t: Task, p: nat)
    requires Preemptive(s) && (Prio(s, t) == TimedOut(s, t, p).prio || T(s, t).held != 1)
    ensures !Strands(s, MutexTimeout(t, p))
  {
    hide EventValueFor;
  }

  /** Otherwise the bitmap is wrong afterwards: the bit of the emptied list stays set. */
  lemma StaleBitBreaks(s: Sched, t: Task, p: nat)
    requires Inv(s) && Enabled(s, MutexTimeout(t, p)) && StaleBit(s, MutexTimeout(t, p))
    ensures var s' := Apply(s, MutexTimeout(t, p));
      Prio(s, t) in s'.top && InState(s', Ready(Prio(s, t))) == [] && !Inv(s')
  {
    hide Take, Core, PutEnd, EventValueFor, Counted;
    var s' := Apply(s, MutexTimeout(t, p));
    OwnList(s, t);
    AtKeys(s);
    ListShrinks(s, t);
    PutElsewhere(Take(s.state, t), Ready(TimedOut(s, t, p).prio), t, Ready(Prio(s, t)));
    StaleBits(s', Prio(s, t));
  }

  lemma StaleBits(s: Sched, p: nat)
    requires p in s.top && InState(s, Ready(p)) == []
    ensures !Inv(s)
  {
    assert !Bits(s);
  }

  lemma PutElsewhere(st: Store<Task, ListId>, l: ListId, t: Task, m: ListId)
    requires l != m
    ensures Items(PutEnd(st, l, t), m) == Items(st, m)
  {
  }

  // ---- giving a mutex ----

  lemma DisinheritCore(s: Sched)
    requires Inv(s) && Enabled(s, Step.TakeMutex)
    ensures var r := Disinherit(s);
      Core(r.s, {}, Now(s) + 1) && Reprioritised(s, r.s, s.current)
      && r.s.event == s.event && r.s.owed == s.owed && (!r.switch ==> Prio(r.s, s.current) == Prio(s, s.current))
  {
    hide Core, Unready, AddReady, Reprioritised;
    var t, tcb := s.current, T(s, s.current);
    BoundedTcb(s, t);
    var held := if tcb.held == 0 then 0 else tcb.held - 1;
    if tcb.prio == tcb.base || held > 0 {
      OnlyTcb(s, t, tcb.(held := held));
    } else {
      Requeued(s, t, tcb.(held := held, prio := tcb.base, eventValue := s.levels - tcb.base));
      RequeuedEvent(s, t, tcb.(held := held, prio := tcb.base, eventValue := s.levels - tcb.base));
    }
  }

  lemma RequeuedEvent(s: Sched, t: Task, tcb: Tcb)
    ensures AddReady(SetTcb(Unready(s, t, Prio(s, t)), t, tcb), t).event == s.event
  {
  }

  lemma OnTimeTwice(s: Sched, m: Sched, s': Sched, t: Task)
    requires OnTime(s, m, t) && OnTime(m, s', t) && Now(s) <= Now(m) <= Now(s')
    ensures OnTime(s, s', t)
  {
  }

  lemma GiveMutexKept(s: Sched, q: nat)
    requires Inv(s) && Enabled(s, Step.GiveMutex(q))
    ensures Kept(s, Step.GiveMutex(q))
  {
    hide Core, Disinherit, Reprioritised, OnTime, Preemptive, Strands, WakeHead;
    var step, r := Step.GiveMutex(q), Disinherit(s);
    var s' := Apply(s, step);
    DisinheritCore(s);
    ReprioInv(s, r.s, s.current);
    if InEvent(s, WaitList(q)) == [] {
      OwedReprio(s, r.s, s', s.current);
      ReprioInv(s, s', s.current);
    } else {
      assert InEvent(r.s, WaitList(q)) == InEvent(s, WaitList(q)) && s' == Apply(r.s, WakeFirst(q));
      WakeFirstKept(r.s, q);
      GiveTouches(s, r.s, q);
      forall t | !Touches(s, step, t) ensures OnTime(s, s', t) {
        OnTimeTwice(s, r.s, s', t);
      }
    }
    if Preemptive(s) { GivePreempts(s, q); }
  }

  lemma GiveTouches(s: Sched, m: Sched, q: nat)
    requires Reprioritised(s, m, s.current) && m.event == s.event
    ensures forall t :: Touches(m, WakeFirst(q), t) <==> Touches(s, Step.GiveMutex(q), t)
  {
  }

  lemma GivePreempts(s: Sched, q: nat)
    requires Inv(s) && Enabled(s, Step.GiveMutex(q)) && Preemptive(s)
    ensures Preemptive(Apply(s, Step.GiveMutex(q))) <==> !Strands(s, Step.GiveMutex(q))
  {
    hide Core, Disinherit, WakeHead, Reprioritised;
    var r := Disinherit(s);
    DisinheritCore(s);
    ReprioInv(s, r.s, s.current);
    ReprioFlags(s, r.s, s.current);
    if InEvent(s, WaitList(q)) != [] {
      HeadWaits(r.s, q);
      WakeHeadReady(r.s, q);
    }
    PreemptAfter(s, r.s, s.current);
    ReprioReady(s, r.s, s.current);
  }

  lemma ReprioFlags(s: Sched, s': Sched, t: Task)
    requires Reprioritised(s, s', t)
    ensures s'.yieldPending == s.yieldPending && s'.current == s.current
  {
  }

  lemma MovedReady(s: Sched, m: Sched, h: Task)
    requires Moved(s, m, h) && s.state.at.Keys == s.tcbs.Keys
    ensures forall t :: Prio(m, t) == Prio(s, t) && (t != h ==> IsReady(m, t) == IsReady(s, t))
    ensures m.current == s.current
  {
    forall t ensures t != h ==> IsReady(m, t) == IsReady(s, t) {
      if t in s.state.at && t != h { assert m.state.at[t] == s.state.at[t]; }
    }
  }

  lemma WakeHeadReady(s: Sched, q: nat)
    requires Inv(s) && InEvent(s, WaitList(q)) != []
    ensures var s', h := WakeHead(s, q), InEvent(s, WaitList(q))[0];
      (forall t :: IsReady(s', t) <==> IsReady(s, t) || (s.suspended == 0 && t == h))
      && (forall t :: Prio(s', t) == Prio(s, t)) && s'.current == s.current
      && s'.owed == (s.owed || Prio(s, h) > Prio(s, s.current))
      && s'.yieldPending == (s.yieldPending || Prio(s, h) > Prio(s, s.current))
  {
    hide Core, Moved, AddReady, RemoveEvent, RemoveState, PutPending;
    HeadWaits(s, q);
    AtKeys(s);
    var s', h := WakeHead(s, q), InEvent(s, WaitList(q))[0];
    var m;
    if s.suspended == 0 {
      ReadiedMoved(s, h);
      m := AddReady(RemoveState(RemoveEvent(s, h), h), h);
    } else {
      PendedMoved(s, h);
      m := PutPending(RemoveEvent(s, h), h);
    }
    MovedReady(s, m, h);
    WakeFlags(s, m, h);
    assert forall t :: Prio(s', t) == Prio(m, t) && IsReady(s', t) == IsReady(m, t);
  }

  lemma WakeFlags(s: Sched, m: Sched, h: Task)
    requires m == AddReady(RemoveState(RemoveEvent(s, h), h), h) || m == PutPending(RemoveEvent(s, h), h)
    ensures m.owed == s.owed && m.yieldPending == s.yieldPending
  {
  }
}
