/** Who comes first among equals: tasks sleep, wait and are readied in the order of their times and of their arrival. */
module SchedulerOrder {
  import opened Machine
  import opened ListModel
  import opened ItemStore
  import opened Scheduler
  import opened SchedulerLists
  import opened SchedulerTick
  import opened SchedulerSteps
  import opened SchedulerEffects
  import opened SchedulerTurns

  // ---- becoming ready ----

  /** vListInsertEnd for one task after the other. */
  function Appended(r: Rota<Task>, l: seq<Task>): Rota<Task>
    decreases |l|
  {
    if l == [] then r else Appended(InsertEnd(r, l[0]), l[1..])
  }

  /** Of the tasks in l those of priority p that are due at the next tick, in their order. */
  ghost function Comers(s: Sched, l: seq<Task>, p: nat): seq<Task>
    decreases |l|
  {
    if l == [] then [] else (if DueNext(s, l[0]) && Prio(s, l[0]) == p then [l[0]] else []) + Comers(s, l[1..], p)
  }

  /** The delayed list of the epoch that the next tick belongs to. */
  function NextList(s: Sched): seq<Task> { InState(s, if s.tick == MAX_DELAY then OverflowList(s) else CurrentList(s)) }

  ghost function Expiring(s: Sched, l: seq<Task>, p: nat): seq<Task>
    decreases |l|
  {
    if l == [] then [] else (if Expired(s, l[0]) && Prio(s, l[0]) == p then [l[0]] else []) + Expiring(s, l[1..], p)
  }

  lemma {:induction false} NoneExpiring(s: Sched, l: seq<Task>, p: nat)
    requires forall t <- l :: !Expired(s, t)
    ensures Expiring(s, l, p) == []
    decreases |l|
  {
    hide Expired;
    if l != [] { NoneExpiring(s, l[1..], p); }
  }

  lemma {:induction false} SameExpiring(s: Sched, m: Sched, h: Task, l: seq<Task>, p: nat)
    requires h !in l && forall t :: (Expired(m, t) <==> Expired(s, t) && t != h) && Prio(m, t) == Prio(s, t)
    ensures Expiring(m, l, p) == Expiring(s, l, p)
    decreases |l|
  {
    hide Expired;
    if l != [] { SameExpiring(s, m, h, l[1..], p); }
  }

  lemma HeadFirst(s: Sched, h: Task, p: nat)
    requires Core(s, {}, Now(s)) && h in s.tcbs && InState(s, CurrentList(s)) != [] && InState(s, CurrentList(s))[0] == h
    requires InList(s, h, CurrentList(s))
    ensures var l, m := InState(s, CurrentList(s)), TimeOut(s, h);
      && InState(m, CurrentList(m)) == l[1..] && h !in l[1..]
      && ListOf(m.state, Ready(p)) == if Prio(s, h) == p then InsertEnd(ListOf(s.state, Ready(p)), h) else ListOf(s.state, Ready(p))
  {
    var l := InState(s, CurrentList(s));
    assert NoDup(l) by { assert ListOf(s.state, CurrentList(s)).Valid(); }
    TakeValid(s.state, h);
    PutEndValid(Take(s.state, h), Ready(Prio(s, h)), h);
    hide Core, Valid, Take, PutEnd;
    assert Remove(ListOf(s.state, CurrentList(s)), h).items == l[1..] by { HeadRemoved(ListOf(s.state, CurrentList(s)), h); }
    assert TimeOut(s, h).state == PutEnd(Take(s.state, h), Ready(Prio(s, h)), h);
    PutEndThere(Take(s.state, h), Ready(Prio(s, h)), h);
  }

  lemma HeadRemoved(r: Rota<Task>, h: Task)
    requires r.items != [] && r.items[0] == h
    ensures Remove(r, h).items == r.items[1..]
  {
  }

  lemma PutEndThere(st: Store<Task, ListId>, l: ListId, t: Task)
    ensures ListOf(PutEnd(st, l, t), l) == InsertEnd(ListOf(st, l), t)
  {
  }

  /** The unblocking loop readies the expired tasks in the order of the delayed list. */
  lemma {:induction false} UnblockOrder(s: Sched, switch: bool, fuel: nat, p: nat)
    requires Core(s, {}, Now(s)) && |InState(s, CurrentList(s))| <= fuel
    ensures ListOf(Unblock(s, switch, fuel).s.state, Ready(p))
         == Appended(ListOf(s.state, Ready(p)), Expiring(s, InState(s, CurrentList(s)), p))
    decreases fuel
  {
    hide Core, TimeOut, Expired, InsertEnd;
    var l := InState(s, CurrentList(s));
    if l != [] {
      var h := l[0];
      HeadOfDelayed(s, Now(s));
      if s.tick < Wake(s.tcbs, h) {
        NoneYet(s, h);
        NoneExpiring(s, l, p);
      } else {
        TimeOutCore(s, h, Now(s));
        TimeOutClock(s, h);
        ShorterList(s, h);
        ExpiredAfter(s, h);
        HeadFirst(s, h, p);
        HeadExpired(s, h);
        SameExpiring(s, TimeOut(s, h), h, l[1..], p);
        UnblockOrder(TimeOut(s, h), switch || Prio(s, h) >= Prio(s, s.current), fuel - 1, p);
        AppendedFirst(ListOf(s.state, Ready(p)), h, Prio(s, h) == p, Expiring(s, l[1..], p));
      }
    }
  }

  lemma AppendedFirst(r: Rota<Task>, h: Task, yes: bool, rest: seq<Task>)
    ensures Appended(r, (if yes then [h] else []) + rest) == Appended(if yes then InsertEnd(r, h) else r, rest)
  {
    if yes { assert ([h] + rest)[1..] == rest; } else { assert [] + rest == rest; }
  }

  lemma NoneYet(s: Sched, h: Task)
    requires s.tick < Wake(s.tcbs, h) && forall t :: InList(s, t, CurrentList(s)) ==> Wake(s.tcbs, h) <= Wake(s.tcbs, t)
    ensures forall t <- InState(s, CurrentList(s)) :: !Expired(s, t)
  {
  }

  lemma HeadExpired(s: Sched, h: Task)
    requires InList(s, h, CurrentList(s)) && Wake(s.tcbs, h) <= s.tick
    ensures Expired(s, h)
  {
  }

  lemma {:induction false} ComersExpire(s: Sched, s1: Sched, l: seq<Task>, p: nat)
    requires forall t :: (Expired(s1, t) <==> DueNext(s, t)) && Prio(s1, t) == Prio(s, t)
    ensures Expiring(s1, l, p) == Comers(s, l, p)
    decreases |l|
  {
    hide Expired, DueNext;
    if l != [] { ComersExpire(s, s1, l[1..], p); }
  }

  /** A tick inserts the tasks due at it into the ready lists in the order in which the delayed list holds them. */
  lemma TickOrder(s: Sched, p: nat)
    requires Core(s, {}, Now(s) + 1) && s.suspended == 0
    ensures ListOf(IncrementTick(s).s.state, Ready(p)) == Appended(ListOf(s.state, Ready(p)), Comers(s, NextList(s), p))
  {
    var s1 := Advanced(s);
    AdvancedCore(s);
    AdvancedFrame(s);
    NextIsCurrent(s);
    forall t ensures (Expired(s1, t) <==> DueNext(s, t)) && Prio(s1, t) == Prio(s, t) { ExpiredIffDue(s, t); }
    ComersExpire(s, s1, NextList(s), p);
    if s1.tick >= s1.next {
      hide Core;
      UnblockOrder(s1, false, |InState(s1, CurrentList(s1))|, p);
    } else {
      NoneExpired(s1);
      assert forall t :: !Expired(s1, t);
      hide Core;
      NoneExpiring(s1, NextList(s), p);
    }
  }

  lemma NextIsCurrent(s: Sched)
    ensures InState(Advanced(s), CurrentList(Advanced(s))) == NextList(s)
  {
  }

  // ---- going to sleep, and to wait ----

  /** t has taken its place in list l behind all that are due no later, and before all others. */
  ghost predicate PlacedBehind(s: Sched, s': Sched, l: ListId, t: Task, k: nat) {
    && Grown(InState(s, l), InState(s', l), k, t)
    && forall i | 0 <= i < |InState(s, l)| :: i < k <==> T(s, InState(s, l)[i]).due <= T(s', t).due
  }

  /** The delayed list for a task that is to sleep n ticks. */
  function FileList(s: Sched, n: Machine.Tick): ListId {
    if Add32(s.tick, n) < s.tick then OverflowList(s) else CurrentList(s)
  }

  lemma FiledBehind(s: Sched, t: Task, n: Machine.Tick) returns (k: nat)
    requires Core(s, {t}, Now(s) + 1) && t in s.tcbs && n >= 1
    ensures var l, s' := FileList(s, n), FileDelayed(s, t, n);
      PlacedBehind(s, s', l, t, k) && T(s', t).due == Now(s) + n
  {
    hide Core, FileDelayed, WakeKeys, Wake, Grown;
    var w, s' := Add32(s.tick, n), FileDelayed(s, t, n);
    var l := FileList(s, n);
    FileDelayedCore(s, t, n);
    FileFrame(s, t, n);
    k := FiledAt(s, t, n);
    var items := InState(s, l);
    forall i | 0 <= i < |items| ensures i < k <==> T(s, items[i]).due <= T(s', t).due {
      assert items[i] in items;
      assert i < k <==> Wake(s'.tcbs, items[i]) <= w;
      FiledOther(s, t, items[i], l);
      SleepersDue(s, s', t, items[i], l);
    }
  }

  lemma FiledOther(s: Sched, t: Task, x: Task, l: ListId)
    requires Core(s, {t}, Now(s) + 1) && x in InState(s, l)
    ensures x != t
  {
  }

  lemma FiledAt(s: Sched, t: Task, n: Machine.Tick) returns (k: nat)
    requires Core(s, {t}, Now(s) + 1) && t in s.tcbs
    ensures var w, s' := Add32(s.tick, n), FileDelayed(s, t, n);
      var l := FileList(s, n);
      && Grown(InState(s, l), InState(s', l), k, t) && Wake(s'.tcbs, t) == w && s'.swapped == s.swapped && s'.epoch == s.epoch
      && forall i | 0 <= i < |InState(s, l)| :: i < k <==> Wake(s'.tcbs, InState(s, l)[i]) <= w
  {
    var w, s' := Add32(s.tick, n), FileDelayed(s, t, n);
    var l := FileList(s, n);
    var items := InState(s, l);
    SameOrder(s, s'.tcbs, t);
    hide Core, WakeKeys, SearchPos, InsertAt;
    k := SearchPos(WakeKeys(s'.tcbs, items), w);
    SearchSplits(s'.tcbs, items, w);
    InsertAtItems(ListOf(s.state, l), k, t);
  }

  /** Within one delayed list the order of the wake values is that of the due times. */
  lemma SleepersDue(s: Sched, s': Sched, t: Task, x: Task, l: ListId)
    requires Core(s, {t}, Now(s) + 1) && Core(s', {}, Now(s) + 1) && (l == CurrentList(s) || l == OverflowList(s))
    requires s'.swapped == s.swapped && s'.epoch == s.epoch && s'.state.at == s.state.at[t := l]
    requires x in InState(s, l) && T(s', x) == T(s, x)
    ensures T(s, x).due <= T(s', t).due <==> Wake(s'.tcbs, x) <= Wake(s'.tcbs, t)
  {
    assert s.state.at[x] == l && x != t && s'.state.at[x] == l;
    assert CurrentList(s') == CurrentList(s) && OverflowList(s') == OverflowList(s);
    hide Linked, OwnPriority, Bits, Bounded, Ordered;
    if l == CurrentList(s) {
      assert InList(s', x, CurrentList(s')) && InList(s', t, CurrentList(s'));
    } else {
      assert InList(s', x, OverflowList(s')) && InList(s', t, OverflowList(s'));
    }
  }

  /** A task that blocks for n ticks takes its place among those that sleep by the time it is due; of several that are
      due at the same time the one that went to sleep first comes first. */
  lemma SleepsBehind(s: Sched, n: Machine.Tick, waiting: bool) returns (k: nat)
    requires Core(s, {}, Now(s) + 1) && s.current in s.tcbs && IsReady(s, s.current) && n >= 1 && !(n == MAX_DELAY && waiting)
    ensures var t, s' := s.current, BlockCurrent(s, n, waiting);
      && t in s'.state.at && IsDelayed(s', t) && T(s', t).due == Now(s) + n
      && PlacedBehind(s, s', s'.state.at[t], t, k)
  {
    var t, u := s.current, UnreadyDirect(s, s.current, Prio(s, s.current));
    OwnList(s, t);
    UnreadyCore(s, t, Now(s) + 1);
    UnreadyFrame(s, t);
    hide Core, FileDelayed, Unready, PlacedBehind;
    assert u == Unready(s, t, Prio(s, t));
    k := FiledBehind(u, t, n);
    FileFrame(u, t, n);
    PlacedFrom(s, u, FileDelayed(u, t, n), FileDelayed(u, t, n).state.at[t], t, k);
  }

  lemma PlacedFrom(s: Sched, u: Sched, s': Sched, l: ListId, t: Task, k: nat)
    requires PlacedBehind(u, s', l, t, k) && InState(u, l) == InState(s, l) && u.tcbs == s.tcbs
    ensures PlacedBehind(s, s', l, t, k)
  {
  }

  /** A task that waits for a queue takes its place behind every task ahead of it of at least its priority, as the
      values of the event items have it: in front of the first task of the list that is lower. */
  lemma WaitsBehind(s: Sched, q: nat, n: Machine.Tick) returns (k: nat)
    requires s.current in s.tcbs && forall x <- InEvent(s, WaitList(q)) :: x in s.tcbs
    ensures var t, l, s' := s.current, InEvent(s, WaitList(q)), BlockOn(s, q, n);
      && Grown(l, InEvent(s', WaitList(q)), k, t)
      && (forall i | 0 <= i < k :: T(s, l[i]).eventValue <= T(s, t).eventValue)
      && (k < |l| ==> T(s, l[k]).eventValue > T(s, t).eventValue)
  {
    var l := InEvent(s, WaitList(q));
    var keys := EventKeys(s.tcbs, l);
    k := SearchPos(keys, T(s, s.current).eventValue);
    forall i | 0 <= i < |l| ensures keys[i] == T(s, l[i]).eventValue { assert l[i] in l; }
    hide EventKeys;
    InsertAtItems(ListOf(s.event, WaitList(q)), k, s.current);
    hide SearchPos, InsertAt, BlockCurrent;
    BlockedEvents(s.(event := PutAt(s.event, WaitList(q), k, s.current)), n);
  }

  lemma BlockedEvents(s: Sched, n: Machine.Tick)
    ensures BlockCurrent(s, n, true).event == s.event
  {
    hide Take, PutEnd, PutAt;
  }

  // ---- going to the end of a list ----

  /** The step takes the task it is about out of its list and puts it at the end of the one it then belongs to: a
      change of priority does so to a ready task, also to one whose priority it leaves as it was. */
  predicate Requeues(s: Sched, step: Step)
    requires Shifter(s, step)
  {
    match step
    case WakeFirst(_) => s.suspended == 0
    case ResumeTask(t) => t != s.current && IsSuspended(s, t)
    case ResumeFromIsr(t) => s.suspended == 0 && IsSuspended(s, t)
    case SetPriority(t, p) => p != T(s, t).base && InList(s, t, Ready(Prio(s, t)))
    case InheritPriority(t) => Prio(s, t) < Prio(s, s.current) && InList(s, t, Ready(Prio(s, t)))
    case MutexTimeout(t, p) =>
      T(s, t).held == 1 && InList(s, t, Ready(Prio(s, t))) && Prio(s, t) != if T(s, t).base < p then p else T(s, t).base
    case _ => true
  }

  function Home(step: Step, prio: nat): ListId {
    if step.SuspendTask? then Suspended else if step.DeleteTask? then Terminated else Ready(prio)
  }

  /** Of the state lists these steps change nothing else, and nothing at all otherwise. */
  lemma RequeueExact(s: Sched, step: Step)
    requires Shifter(s, step) && (step.WakeFirst? ==> InEvent(s, WaitList(step.q)) != [])
    ensures var t, s' := Subject(s, step), Apply(s, step);
      s'.state == if Requeues(s, step) then PutEnd(Take(s.state, t), Home(step, Prio(s', t)), t) else s.state
  {
    hide Requeues, Apply;
    if step.SetPriority? || step.InheritPriority? || step.MutexTimeout? {
      PriorityRequeue(s, step);
    } else if step.SuspendTask? || step.DeleteTask? {
      GoneRequeue(s, step);
    } else {
      WokenRequeue(s, step);
    }
  }

  lemma PriorityRequeue(s: Sched, step: Step)
    requires step.SetPriority? || step.InheritPriority? || step.MutexTimeout?
    ensures var t, s' := step.t, Apply(s, step);
      s'.state == if Requeues(s, step) then PutEnd(Take(s.state, t), Ready(Prio(s', t)), t) else s.state
  {
    hide PrioritySet, Inherit, DisinheritAfterTimeout, Take, PutEnd;
    match step {
      case SetPriority(t, p) => SetRequeues(s, t, p);
      case InheritPriority(t) => InheritRequeues(s, t);
      case MutexTimeout(t, p) => TimeoutRequeues(s, t, p);
    }
  }

  lemma SetRequeues(s: Sched, t: Task, p: nat)
    ensures var s' := PrioritySet(s, t, p);
      s'.state == if Requeues(s, SetPriority(t, p)) then PutEnd(Take(s.state, t), Ready(Prio(s', t)), t) else s.state
  {
    hide Take, PutEnd;
  }

  lemma InheritRequeues(s: Sched, t: Task)
    ensures var s' := Inherit(s, t);
      s'.state == if Requeues(s, InheritPriority(t)) then PutEnd(Take(s.state, t), Ready(Prio(s', t)), t) else s.state
  {
    hide Take, PutEnd;
  }

  lemma TimeoutRequeues(s: Sched, t: Task, p: nat)
    ensures var s' := DisinheritAfterTimeout(s, t, p);
      s'.state == if Requeues(s, MutexTimeout(t, p)) then PutEnd(Take(s.state, t), Ready(Prio(s', t)), t) else s.state
  {
    hide Take, PutEnd;
  }

  lemma GoneRequeue(s: Sched, step: Step)
    requires step.SuspendTask? || (step.DeleteTask? && step.t == s.current)
    ensures Requeues(s, step)
    ensures Apply(s, step).state == PutEnd(Take(s.state, step.t), if step.SuspendTask? then Suspended else Terminated, step.t)
  {
    hide Take, PutEnd;
  }

  lemma WokenRequeue(s: Sched, step: Step)
    requires step.WakeFirst? || step.WakeOne? || step.ResumeTask? || step.ResumeFromIsr?
    requires step.WakeFirst? ==> InEvent(s, WaitList(step.q)) != []
    ensures var t, s' := Subject(s, step), Apply(s, step);
      s'.state == if Requeues(s, step) then PutEnd(Take(s.state, t), Ready(Prio(s', t)), t) else s.state
  {
    hide Take, PutEnd;
  }

  /** Giving back the last mutex puts a giver that has inherited at the end of the list of its own priority. */
  lemma GiverRequeued(s: Sched)
    ensures var tcb, s' := T(s, s.current), Disinherit(s).s;
      s'.state == if tcb.held <= 1 && tcb.prio != tcb.base then PutEnd(Take(s.state, s.current), Ready(tcb.base), s.current) else s.state
  {
    hide Take, PutEnd;
  }
}
