/** xTaskIncrementTick: what one tick does, across the wrap of the 32-bit counter. */
module SchedulerTick {
  import opened Machine
  import opened ItemStore
  import opened Scheduler
  import opened SchedulerLists

  /** Removing event items changes nothing but the event lists. */
  lemma EventCore(s: Sched, event: Store<Task, EventId>, out: set<Task>, floor: nat)
    requires Core(s, out, floor) && Valid(event) && event.at.Keys <= s.tcbs.Keys
    ensures Core(s.(event := event), out, floor)
  {
    hide Valid, InOrder, Due;
    DueFrame(s, s.(event := event), floor);
  }

  /** The invariant does not look at the flags, counters and history. */
  ghost predicate SameLists(s: Sched, s': Sched) {
    s' == s.(current := s'.current, suspended := s'.suspended, pended := s'.pended, yieldPending := s'.yieldPending,
             numTasks := s'.numTasks, deleted := s'.deleted, owed := s'.owed, blocking := s'.blocking,
             delivered := s'.delivered)
  }

  lemma SameListsCore(s: Sched, s': Sched, out: set<Task>, floor: nat)
    requires Core(s, out, floor) && SameLists(s, s')
    ensures Core(s', out, floor) && Now(s') == Now(s)
  {
    hide Valid, InOrder, Due;
    DueFrame(s, s', floor);
  }

  lemma RemoveEventCore(s: Sched, t: Task, out: set<Task>, floor: nat)
    requires Core(s, out, floor)
    ensures Core(RemoveEvent(s, t), out, floor) && RemoveEvent(s, t).event.at == s.event.at - {t}
    ensures forall e :: (t in s.event.at ==> e != s.event.at[t]) ==> InEvent(RemoveEvent(s, t), e) == InEvent(s, e)
  {
    if t in s.event.at {
      TakeValid(s.event, t);
      EventCore(s, Take(s.event, t), out, floor);
    }
  }

  /** One expired task: ready, off its event list, and nothing else moved. */
  lemma TimeOutCore(s: Sched, t: Task, floor: nat)
    requires Core(s, {}, floor) && t in s.tcbs
    ensures Core(TimeOut(s, t), {}, floor)
    ensures TimeOut(s, t).state.at == s.state.at[t := Ready(Prio(s, t))]
    ensures TimeOut(s, t).event.at == s.event.at - {t}
    ensures forall l :: l != s.state.at[t] && l != Ready(Prio(s, t)) ==> InState(TimeOut(s, t), l) == InState(s, l)
  {
    hide Core, AddReady;
    RemoveEventCore(s, t, {}, floor);
    MoveToReadyCore(RemoveEvent(s, t), t, floor);
    TimeOutSwap(s, t);
  }

  lemma TimeOutSwap(s: Sched, t: Task)
    ensures TimeOut(s, t) == AddReady(RemoveState(RemoveEvent(s, t), t), t)
    ensures RemoveEvent(s, t).state == s.state && RemoveEvent(s, t).tcbs == s.tcbs
    ensures Prio(RemoveEvent(s, t), t) == Prio(s, t)
    ensures AddReady(RemoveState(RemoveEvent(s, t), t), t).event == RemoveEvent(s, t).event
  {
  }

  /** Fields that list moves leave alone. */
  ghost predicate SameClock(s: Sched, s': Sched) {
    s' == s.(state := s'.state, event := s'.event, top := s'.top, next := s'.next)
  }

  lemma TimeOutClock(s: Sched, t: Task)
    ensures SameClock(s, TimeOut(s, t)) && TimeOut(s, t).next == s.next
  {
  }

  /** The head of the current delayed list is known, delayed, and due no later than the others. */
  lemma HeadOfDelayed(s: Sched, floor: nat)
    requires Core(s, {}, floor) && InState(s, CurrentList(s)) != []
    ensures var h := InState(s, CurrentList(s))[0];
      h in s.tcbs && InList(s, h, CurrentList(s))
      && forall t :: InList(s, t, CurrentList(s)) ==> Wake(s.tcbs, h) <= Wake(s.tcbs, t)
  {
    var c := CurrentList(s);
    var l := InState(s, c);
    assert l[0] in l;
    assert InOrder(s.tcbs, l);
    forall t | InList(s, t, c) ensures Wake(s.tcbs, l[0]) <= Wake(s.tcbs, t) {
      assert t in l;
    }
  }

  ghost predicate Expired(s: Sched, t: Task) { InList(s, t, CurrentList(s)) && Wake(s.tcbs, t) <= s.tick }

  ghost predicate MayPreempt(s: Sched, t: Task) { Expired(s, t) && Prio(s, t) >= Prio(s, s.current) }

  /** r is s with exactly the expired tasks moved to their ready lists and off their event lists. */
  ghost predicate Unblocked(s: Sched, r: Sched) {
    && SameClock(s, r)
    && r.state.at.Keys == s.state.at.Keys
    && (forall t {:trigger r.state.at[t]} :: t in s.state.at ==>
         r.state.at[t] == if Expired(s, t) then Ready(Prio(s, t)) else s.state.at[t])
    && (forall t :: t in r.event.at <==> t in s.event.at && !Expired(s, t))
    && (forall t :: t in r.event.at ==> r.event.at[t] == s.event.at[t])
    && (forall l: ListId :: !l.Ready? && l != CurrentList(s) ==> InState(r, l) == InState(s, l))
  }

  /** The unblocking loop readies exactly the tasks of the current list whose time has come, takes
      them off their event lists, and reports a switch exactly if one of them may preempt. */
  lemma {:induction false} UnblockExact(s: Sched, switch: bool, fuel: nat)
    requires Core(s, {}, Now(s)) && |InState(s, CurrentList(s))| <= fuel
    ensures Core(Unblock(s, switch, fuel).s, {}, Now(s) + 1) && Unblocked(s, Unblock(s, switch, fuel).s)
    ensures Unblock(s, switch, fuel).switch <==> switch || exists t :: MayPreempt(s, t)
    decreases fuel
  {
    hide Core, TimeOut, Unblocked, MayPreempt;
    var l := InState(s, CurrentList(s));
    if l == [] {
      NothingExpired(s);
      NothingLeft(s);
    } else {
      HeadOfDelayed(s, Now(s));
      var h := l[0];
      if s.tick < Wake(s.tcbs, h) {
        LaterHead(s, h);
      } else {
        TimeOutCore(s, h, Now(s));
        TimeOutClock(s, h);
        ShorterList(s, h);
        UnblockExact(TimeOut(s, h), switch || Prio(s, h) >= Prio(s, s.current), fuel - 1);
        UnblockedOneMore(s, h, Unblock(TimeOut(s, h), switch || Prio(s, h) >= Prio(s, s.current), fuel - 1).s);
      }
    }
  }

  lemma UnblockedOneMore(s: Sched, h: Task, r: Sched)
    requires h in s.tcbs && Expired(s, h) && Unblocked(TimeOut(s, h), r)
    requires SameClock(s, TimeOut(s, h)) && TimeOut(s, h).state.at == s.state.at[h := Ready(Prio(s, h))]
    requires TimeOut(s, h).event.at == s.event.at - {h}
    requires forall l :: l != s.state.at[h] && l != Ready(Prio(s, h)) ==> InState(TimeOut(s, h), l) == InState(s, l)
    ensures Unblocked(s, r)
    ensures (exists t :: MayPreempt(s, t)) <==> Prio(s, h) >= Prio(s, s.current) || exists t :: MayPreempt(TimeOut(s, h), t)
  {
    hide TimeOut;
    ExpiredAfter(s, h);
    assert MayPreempt(s, h) <==> Prio(s, h) >= Prio(s, s.current);
    assert forall t :: MayPreempt(TimeOut(s, h), t) <==> MayPreempt(s, t) && t != h;
  }

  lemma NothingExpired(s: Sched)
    requires Core(s, {}, Now(s)) && InState(s, CurrentList(s)) == []
    ensures forall t :: !InList(s, t, CurrentList(s))
    ensures Unblocked(s, s.(next := MAX_DELAY)) && !exists t :: MayPreempt(s, t)
  {
    forall t ensures !InList(s, t, CurrentList(s)) {
      assert t !in InState(s, CurrentList(s));
    }
  }

  lemma NothingLeft(s: Sched)
    requires Core(s, {}, Now(s)) && InState(s, CurrentList(s)) == []
    ensures Core(s.(next := MAX_DELAY), {}, Now(s) + 1)
  {
    NothingExpired(s);
    hide Valid, InOrder;
    var s' := s.(next := MAX_DELAY);
    assert CurrentList(s') == CurrentList(s) && OverflowList(s') == OverflowList(s);
    assert forall t, l :: InList(s', t, l) ==> InList(s, t, l);
  }

  lemma LaterHead(s: Sched, h: Task)
    requires Core(s, {}, Now(s)) && s.tick < Wake(s.tcbs, h)
    requires forall t :: InList(s, t, CurrentList(s)) ==> Wake(s.tcbs, h) <= Wake(s.tcbs, t)
    ensures Core(s.(next := Wake(s.tcbs, h)), {}, Now(s) + 1)
    ensures Unblocked(s, s.(next := Wake(s.tcbs, h))) && !exists t :: MayPreempt(s, t)
  {
    hide Valid, InOrder;
    var s' := s.(next := Wake(s.tcbs, h));
    assert CurrentList(s') == CurrentList(s) && OverflowList(s') == OverflowList(s);
    assert forall t, l :: InList(s', t, l) ==> InList(s, t, l);
  }

  lemma ShorterList(s: Sched, h: Task)
    requires Core(s, {}, Now(s)) && InList(s, h, CurrentList(s)) && h in s.tcbs
    ensures |InState(TimeOut(s, h), CurrentList(s))| == |InState(s, CurrentList(s))| - 1
  {
    hide Valid, Take, PutEnd;
    TakeValid(s.state, h);
    PutEndValid(Take(s.state, h), Ready(Prio(s, h)), h);
  }

  lemma ExpiredAfter(s: Sched, h: Task)
    requires h in s.tcbs && InList(s, h, CurrentList(s))
    requires SameClock(s, TimeOut(s, h)) && TimeOut(s, h).state.at == s.state.at[h := Ready(Prio(s, h))]
    ensures forall t :: Expired(TimeOut(s, h), t) <==> Expired(s, t) && t != h
    ensures forall t :: Prio(TimeOut(s, h), t) == Prio(s, t)
  {
  }

  /** taskSWITCH_DELAYED_LISTS always finds the current list empty. */
  lemma EmptyAtSwitch(s: Sched)
    requires Core(s, {}, Now(s) + 1) && s.tick == MAX_DELAY
    ensures InState(s, CurrentList(s)) == []
  {
    var c := CurrentList(s);
    if InState(s, c) != [] {
      var t := InState(s, c)[0];
      assert t in InState(s, c);
      assert InList(s, t, c);
    }
  }

  /** Counting one tick keeps the lists; nothing is due before the new time. */
  lemma AdvancedCore(s: Sched)
    requires Core(s, {}, Now(s) + 1)
    ensures Core(Advanced(s), {}, Now(s) + 1) && Now(Advanced(s)) == Now(s) + 1
  {
    hide Valid, InOrder, Due;
    if s.tick == MAX_DELAY {
      EmptyAtSwitch(s);
      var s1 := s.(tick := 0, swapped := !s.swapped, epoch := s.epoch + 1, next := 0);
      SwappedDue(s, s1);
      ResetNextCore(s1, {}, Now(s) + 1);
    } else {
      SameDue(s, s.(tick := s.tick + 1));
    }
  }

  lemma SameDue(s: Sched, s': Sched)
    requires Due(s, Now(s) + 1) && s' == s.(tick := s'.tick)
    ensures Due(s', Now(s) + 1)
  {
    assert CurrentList(s') == CurrentList(s) && OverflowList(s') == OverflowList(s);
    assert forall t, l :: InList(s', t, l) ==> InList(s, t, l);
  }

  lemma SwappedDue(s: Sched, s': Sched)
    requires Core(s, {}, Now(s) + 1) && s.tick == MAX_DELAY && InState(s, CurrentList(s)) == []
    requires s' == s.(tick := 0, swapped := !s.swapped, epoch := s.epoch + 1, next := 0)
    ensures Due(s', Now(s) + 1)
  {
    hide InOrder;
    assert CurrentList(s') == OverflowList(s) && OverflowList(s') == CurrentList(s);
    forall t, l | InList(s', t, l) && (l == DelayedA || l == DelayedB) ensures l == OverflowList(s) && InList(s, t, l) {
      assert t in InState(s, l);
    }
  }

  ghost predicate DueNext(s: Sched, t: Task) { IsDelayed(s, t) && T(s, t).due == Now(s) + 1 }

  /** A task of the current list has expired once the tick is counted exactly if it was due then. */
  lemma ExpiredIffDue(s: Sched, t: Task)
    requires Core(s, {}, Now(s) + 1)
    ensures Expired(Advanced(s), t) <==> DueNext(s, t)
  {
    hide InOrder, Bits, OwnPriority, Bounded;
    var s1 := Advanced(s);
    AdvancedCore(s);
    if s.tick == MAX_DELAY { EmptyAtSwitch(s); }
    assert s1.state == s.state && s1.tcbs == s.tcbs;
    if Expired(s1, t) {
      assert InList(s1, t, CurrentList(s1));
    }
    if DueNext(s, t) {
      assert InList(s, t, CurrentList(s)) ==> t in InState(s, CurrentList(s));
      assert InList(s, t, CurrentList(s)) || InList(s, t, OverflowList(s));
    }
  }

  /** The scalar fields no tick processing touches. */
  ghost predicate SameRest(s: Sched, r: Sched) {
    r == s.(state := r.state, event := r.event, top := r.top, next := r.next, tick := r.tick, epoch := r.epoch,
            swapped := r.swapped)
  }

  /** Exact wake-up, one tick: with the scheduler running, xTaskIncrementTick moves to the ready
      lists exactly the delayed tasks due at the new time, whether or not the counter wraps. */
  ghost predicate Woken(s: Sched, r: Sched) {
    && SameRest(s, r)
    && Now(r) == Now(s) + 1
    && r.state.at.Keys == s.state.at.Keys
    && (forall t {:trigger r.state.at[t]} :: t in s.state.at ==>
         r.state.at[t] == if DueNext(s, t) then Ready(Prio(s, t)) else s.state.at[t])
    && (forall t :: t in r.event.at <==> t in s.event.at && !DueNext(s, t))
    && (forall t :: t in r.event.at ==> r.event.at[t] == s.event.at[t])
    && InState(r, Suspended) == InState(s, Suspended) && InState(r, Terminated) == InState(s, Terminated)
  }

  /** A delayed task of at least the running task's priority is due at the next tick. */
  ghost predicate Challenger(s: Sched, t: Task) { DueNext(s, t) && Prio(s, t) >= Prio(s, s.current) }

  ghost predicate Equals(s: Sched, t: Task, u: Task) {
    t != u && IsReady(s, t) && IsReady(s, u) && Prio(s, t) == Prio(s, s.current) && Prio(s, u) == Prio(s, s.current)
  }

  /** Two different tasks of the running task's priority are ready: they are to take turns. */
  ghost predicate Shared(s: Sched) { exists t, u :: Equals(s, t, u) }

  /** One tick, exactly: it wakes the tasks due at it, and asks for a switch if and only if a yield was pending,
      a task it wakes is of at least the running task's priority, or two tasks of that priority are ready after it. */
  lemma TickExact(s: Sched)
    requires Core(s, {}, Now(s) + 1) && s.suspended == 0
    ensures var r := IncrementTick(s);
      Core(r.s, {}, Now(r.s) + 1) && Woken(s, r.s)
      && (r.switch <==> s.yieldPending || (exists t :: Challenger(s, t)) || Shared(r.s))
  {
    TickParts(s);
    hide Core, IncrementTick, Challenger, Equals;
    var r := IncrementTick(s);
    SharedExact(r.s);
    assert Prio(r.s, s.current) == Prio(s, s.current);
  }

  lemma TickParts(s: Sched)
    requires Core(s, {}, Now(s) + 1) && s.suspended == 0
    ensures var r := IncrementTick(s);
      Core(r.s, {}, Now(r.s) + 1) && Woken(s, r.s)
      && (r.switch <==> s.yieldPending || (exists t :: Challenger(s, t)) || |InState(r.s, Ready(Prio(s, s.current)))| > 1)
  {
    hide Challenger, Core, Unblock, Advanced, Expired, DueNext, Woken, Unblocked;
    var s1 := Advanced(s);
    AdvancedCore(s);
    forall t ensures Expired(s1, t) <==> DueNext(s, t) { ExpiredIffDue(s, t); }
    AdvancedFrame(s);
    if s1.tick >= s1.next {
      var n := |InState(s1, CurrentList(s1))|;
      UnblockExact(s1, false, n);
      WokenFrom(s, s1, Unblock(s1, false, n));
    } else {
      NoneExpired(s1);
      WokenFrom(s, s1, Ticked(s1, false));
    }
  }

  /** More than one entry in the ready list of the running task's priority. */
  lemma SharedExact(s: Sched)
    requires Core(s, {}, Now(s) + 1)
    ensures Shared(s) <==> |InState(s, Ready(Prio(s, s.current)))| > 1
  {
    var l := Ready(Prio(s, s.current));
    var items := InState(s, l);
    assert ListOf(s.state, l).Valid();
    if |items| > 1 {
      assert items[0] in items && items[1] in items;
      assert Equals(s, items[0], items[1]);
    }
    forall t, u | Equals(s, t, u) ensures |items| > 1 {
      assert t in InState(s, s.state.at[t]) && u in InState(s, s.state.at[u]);
      assert t in items && u in items;
    }
  }

  lemma AdvancedFrame(s: Sched)
    ensures var s1 := Advanced(s); SameRest(s, s1) && s1.state == s.state && s1.event == s.event
  {
  }

  lemma NoneExpired(s: Sched)
    requires Core(s, {}, Now(s)) && s.tick < s.next
    ensures Core(s, {}, Now(s) + 1) && Unblocked(s, s) && !exists t :: MayPreempt(s, t)
  {
    assert forall t :: !Expired(s, t);
  }

  lemma WokenFrom(s: Sched, s1: Sched, r: Ticked)
    requires SameRest(s, s1) && s1.state == s.state && s1.event == s.event && Now(s1) == Now(s) + 1
    requires Unblocked(s1, r.s) && (r.switch <==> exists t :: MayPreempt(s1, t))
    requires forall t :: Expired(s1, t) <==> DueNext(s, t)
    ensures Woken(s, r.s)
    ensures r.switch <==> exists t :: Challenger(s, t)
  {
    assert forall t :: Prio(s1, t) == Prio(s, t);
    assert forall t :: Challenger(s, t) <==> MayPreempt(s1, t);
  }
}
