/** The calls of the mutex protocol on the scheduler. Each call is a sequence of scheduler steps: a wait, for
    instance, suspends the scheduler, raises the holder's priority, joins the waiting list and blocks, resumes
    the scheduler and yields. Each is proved to lead from states that agree to states that agree: the same
    tasks, ready or not, with the same priorities and counts of mutexes; the same tasks in each waiting list
    and in the same order; the same running task, and a switch pending in both or in neither. A tick is one
    scheduler step and several of the protocol, one for each task it wakes. */
module MutexCalls {
  import opened Machine
  import opened ListModel
  import opened ItemStore
  import opened Scheduler
  import opened SchedulerLists
  import opened SchedulerTick
  import opened SchedulerResume
  import opened SchedulerSteps
  import opened SchedulerPriority
  import opened SchedulerSwitch
  import opened SchedulerRuns
  import M = Mutex
  import MK = MutexKept
  import MR = MutexRuns
  import MB = MutexBitmap

  // ---- Agreement ----

  ghost predicate SameTask(z: Sched, s: M.Sys, t: Task) {
    && (t in s.tasks <==> t in z.tcbs) && IsReady(z, t) == M.IsReady(s, t) && Prio(z, t) == M.Prio(s, t)
    && T(z, t).base == M.R(s, t).base && T(z, t).held == M.R(s, t).held
  }

  /** The event item of a task is in the list of the mutex it waits for, or in none. */
  ghost predicate SameWait(z: Sched, s: M.Sys, t: Task) {
    && (t in z.event.at <==> M.R(s, t).phase.Waiting?)
    && (t in z.event.at ==> z.event.at[t] == WaitList(M.R(s, t).phase.m))
  }

  ghost predicate SameList(z: Sched, s: M.Sys, m: nat) { InEvent(z, WaitList(m)) == M.W(s, m) }

  /** The key of every event item is that of its task's priority. */
  ghost predicate Keyed(z: Sched, t: Task) { t in z.tcbs ==> z.tcbs[t].eventValue == z.levels - z.tcbs[t].prio }

  ghost predicate Agree(z: Sched, s: M.Sys) {
    && (forall t :: SameTask(z, s, t)) && (forall t :: SameWait(z, s, t)) && (forall m :: SameList(z, s, m))
    && (forall t :: Keyed(z, t)) && z.current == s.current
  }

  ghost predicate Flags(z: Sched, s: M.Sys) {
    z.owed == s.owed && (z.yieldPending ==> z.owed) && z.suspended == 0 && !z.blocking
  }

  ghost predicate Matches(z: Sched, s: M.Sys) { Inv(z) && Agree(z, s) && Flags(z, s) }

  // ---- Calls ----

  datatype Call =
    | Request(m: nat, block: bool) | Grab | Refuse | Look | Wait(n: Machine.Tick) | Retry | Expire(wrapped: bool) | Test | Undo
    | Give(m: nat)
    | Sleep(n: Machine.Tick)     // a delay
    | Share                      // taskYIELD
    | Preempt                    // the pending switch
    | Ticks                      // the tick interrupt

  /** The step of the protocol, for all calls but the tick. */
  function Protocol(z: Sched, c: Call): M.Step {
    match c
    case Request(m, block) => M.Request(m, block)
    case Grab => M.Grab
    case Refuse => M.Refuse
    case Look => M.Look
    case Wait(_) => M.Wait
    case Retry => M.Retry
    case Expire(wrapped) => M.Expire(wrapped)
    case Test => M.Test
    case Undo => M.Undo
    case Give(m) => M.Give(m)
    case Sleep(_) => M.Sleep
    case Share => M.Share
    case Preempt => M.Switch(Switch(z).current)
    case Ticks => M.Share
  }

  predicate CallOk(z: Sched, s: M.Sys, c: Call) {
    match c
    case Ticks => true
    // where they agree, the second follows from the first
    case Preempt => z.owed && M.Enabled(s, Protocol(z, c))
    case Wait(n) => M.Enabled(s, M.Wait) && n >= 1 && z.current != z.idle
    case Sleep(n) => M.Enabled(s, M.Sleep) && n >= 1 && z.current != z.idle
    case _ => M.Enabled(s, Protocol(z, c))
  }

  /** What the calls are to the scheduler. */
  function Steps(z: Sched, s: M.Sys, c: Call): seq<Step> {
    var phase := M.Me(s).phase;
    match c
    case Grab => [TakeMutex]
    case Wait(n) =>
      if phase.Looked? && M.Owner(s, phase.m).Held?
      then [SuspendScheduler, InheritPriority(M.Owner(s, phase.m).task), WaitOrdered(phase.m, n), ResumeScheduler, Yield]
      else []
    case Undo =>
      if phase.Undoing? && M.Owner(s, phase.m).Held?
      then [MutexTimeout(M.Owner(s, phase.m).task, M.HighestWaiting(s, phase.m))] else []
    case Give(m) => [GiveMutex(m)]
    case Sleep(n) => [SuspendScheduler, Delay(n), ResumeScheduler, Yield]
    case Share => [Yield]
    case Preempt => [PendSv]
    case Ticks => [Tick]
    // xTaskCheckForTimeOut is called with the scheduler suspended
    case Retry => [SuspendScheduler, ResumeScheduler]
    case Expire(_) => [SuspendScheduler, ResumeScheduler]
    case _ => []
  }

  lemma One(z: Sched, step: Step)
    requires Enabled(z, step) && !StaleBit(z, step)
    ensures Legal(z, [step]) && Exec(z, [step]) == Apply(z, step)
  {
    assert [step][1..] == [];
  }

  /** Matching invariants give the running task its turn. */
  lemma Running(z: Sched, s: M.Sys)
    requires Matches(z, s) && M.Runs(s)
    ensures TaskRuns(z) && z.current in z.tcbs && M.Me(s) == M.R(s, z.current) && !z.yieldPending && !z.owed
  {
    assert SameTask(z, s, z.current);
    hide Inv;
  }

  // ---- Calls that move no task ----

  lemma QuietCall(z: Sched, s: M.Sys, c: Call)
    requires Matches(z, s) && CallOk(z, s, c)
    requires c.Request? || c.Refuse? || c.Look? || c.Retry? || c.Expire? || c.Test?
    ensures Matches(z, M.Apply(s, Protocol(z, c)))
  {
    hide Inv;
    var s' := M.Apply(s, Protocol(z, c));
    forall t ensures SameTask(z, s', t) && SameWait(z, s', t) { assert SameTask(z, s, t) && SameWait(z, s, t); }
    forall m ensures SameList(z, s', m) { assert SameList(z, s, m); }
  }

  lemma ShareCall(z: Sched, s: M.Sys)
    requires Matches(z, s)
    ensures Enabled(z, Yield) && Matches(Apply(z, Yield), M.Apply(s, M.Share))
  {
    StepKept(z, Yield);
    hide Inv;
    var z', s' := Apply(z, Yield), M.Apply(s, M.Share);
    forall t ensures SameTask(z', s', t) && SameWait(z', s', t) && Keyed(z', t) {
      assert SameTask(z, s, t) && SameWait(z, s, t) && Keyed(z, t);
    }
    forall m ensures SameList(z', s', m) { assert SameList(z, s, m); }
  }

  lemma GrabCall(z: Sched, s: M.Sys)
    requires Matches(z, s) && M.Enabled(s, M.Grab)
    ensures Enabled(z, TakeMutex) && Matches(Apply(z, TakeMutex), M.Apply(s, M.Grab))
  {
    Running(z, s);
    StepKept(z, TakeMutex);
    hide Inv;
    var z', s' := Apply(z, TakeMutex), M.Apply(s, M.Grab);
    forall t ensures SameTask(z', s', t) && SameWait(z', s', t) && Keyed(z', t) {
      assert SameTask(z, s, t) && SameWait(z, s, t) && Keyed(z, t);
    }
    forall m ensures SameList(z', s', m) { assert SameList(z, s, m); }
  }

  lemma PreemptCall(z: Sched, s: M.Sys)
    requires Matches(z, s) && z.owed
    ensures Enabled(z, PendSv) && M.Enabled(s, M.Switch(Switch(z).current))
    ensures Matches(Apply(z, PendSv), M.Apply(s, M.Switch(Switch(z).current)))
  {
    StepKept(z, PendSv);
    SwitchPicks(z);
    var z', c := Switch(z), Switch(z).current;
    assert SameTask(z, s, c);
    forall x | x in s.tasks && s.tasks[x].ready ensures s.tasks[x].prio <= s.tasks[c].prio { assert SameTask(z, s, x); }
    SwitchMoves(z);
    hide Inv, Switch;
    var s' := M.Apply(s, M.Switch(c));
    forall t ensures SameTask(z', s', t) && SameWait(z', s', t) && Keyed(z', t) {
      assert SameTask(z, s, t) && SameWait(z, s, t) && Keyed(z, t);
    }
    forall m ensures SameList(z', s', m) { assert SameList(z, s, m); }
  }

  lemma SwitchMoves(z: Sched)
    requires Inv(z) && z.suspended == 0
    ensures var z' := Switch(z);
      && z' == z.(state := z'.state, current := z'.current, yieldPending := false, owed := false, blocking := false)
      && z'.state.at == z.state.at
  {
    TopReady(z);
    AdvanceCore(z, HighestBelow(z.top, z.levels));
  }

  // ---- A task is woken ----

  function Woke(s: M.Sys, t: Task): M.Sys {
    if M.R(s, t).phase.Waiting? then M.Released(s, t) else M.Put(s, t, M.R(s, t).(ready := true))
  }

  function Woken(z: Sched, t: Task): Sched { AddReady(RemoveState(RemoveEvent(z, t), t), t) }

  lemma WokenShape(z: Sched, t: Task)
    requires Valid(z.state) && Valid(z.event) && t in z.state.at
    ensures var z' := Woken(z, t);
      && z' == z.(state := z'.state, event := z'.event, top := z'.top) && z'.event == Take(z.event, t)
      && z'.state.at == z.state.at[t := Ready(Prio(z, t))] && z'.event.at == z.event.at - {t} && TimeOut(z, t) == z'
  {
    TakeValid(z.state, t);
    if t in z.event.at { TakeValid(z.event, t); }
    assert Take(z.event, t).at == z.event.at - {t};
    hide PutEnd, Valid, Take;
    WokenIn(z, t);
    TimeOutIs(z, t);
    PutEndAt(Take(z.state, t), Ready(Prio(z, t)), t);
    assert (z.state.at - {t})[t := Ready(Prio(z, t))] == z.state.at[t := Ready(Prio(z, t))];
  }

  lemma WokenIn(z: Sched, t: Task)
    ensures Woken(z, t) == z.(state := PutEnd(Take(z.state, t), Ready(Prio(z, t)), t), event := Take(z.event, t),
                              top := z.top + {Prio(z, t)})
  {
    hide Take, PutEnd;
  }

  lemma TimeOutIs(z: Sched, t: Task)
    ensures TimeOut(z, t) == Woken(z, t)
  {
    hide Take, PutEnd;
  }

  lemma PutEndAt(s: Store<Task, ListId>, l: ListId, t: Task)
    ensures PutEnd(s, l, t).at == s.at[t := l]
  {
  }

  /** The lists of waiting tasks, with t taken out of its own. */
  lemma WokenLists(z: Sched, t: Task, e: EventId)
    requires Valid(z.event)
    ensures Items(Take(z.event, t), e) == if t in z.event.at && z.event.at[t] == e then Without(InEvent(z, e), t) else InEvent(z, e)
  {
    if t in z.event.at { TakeValid(z.event, t); }
  }

  lemma WokenTask(z: Sched, z': Sched, s: M.Sys, t: Task, x: Task)
    requires Agree(z, s) && t in z.tcbs && z'.tcbs == z.tcbs && z'.levels == z.levels
    requires z'.state.at == z.state.at[t := Ready(Prio(z, t))] && z'.event.at == z.event.at - {t}
    ensures SameTask(z', Woke(s, t), x) && SameWait(z', Woke(s, t), x) && Keyed(z', x)
  {
    assert SameTask(z, s, t) && SameWait(z, s, t);
    assert SameTask(z, s, x) && SameWait(z, s, x) && Keyed(z, x);
    hide Agree, Without;
  }

  lemma WokenList(z: Sched, z': Sched, s: M.Sys, t: Task, m: nat)
    requires Agree(z, s) && Valid(z.event) && z'.event == Take(z.event, t)
    ensures SameList(z', Woke(s, t), m)
  {
    assert SameList(z, s, m) && SameWait(z, s, t);
    WokenLists(z, t, WaitList(m));
    hide Agree, Without, Take, Valid;
  }

  lemma WokenAgrees(z: Sched, s: M.Sys, t: Task)
    requires Agree(z, s) && Valid(z.state) && Valid(z.event) && t in z.state.at && t in z.tcbs
    ensures Agree(Woken(z, t), Woke(s, t))
  {
    WokenShape(z, t);
    hide Woken, Without, Take, Valid, SameTask, SameWait, Keyed, SameList;
    var z', s' := Woken(z, t), Woke(s, t);
    forall x ensures SameTask(z', s', x) && SameWait(z', s', x) && Keyed(z', x) { WokenTask(z, z', s, t, x); }
    forall m ensures SameList(z', s', m) { WokenList(z, z', s, t, m); }
  }

  // ---- A priority changes ----

  /** Only the control block of t changes, and t may change its ready list. */
  ghost predicate Repriced(z: Sched, z': Sched, t: Task, prio: nat, held: nat) {
    && t in z.tcbs && z' == z.(tcbs := z'.tcbs, state := z'.state, top := z'.top, owed := z'.owed)
    && z'.tcbs == z.tcbs[t := z.tcbs[t].(prio := prio, held := held, eventValue := z.levels - prio)]
    && forall x :: IsReady(z', x) == IsReady(z, x)
  }

  lemma RepricedAgrees(z: Sched, z': Sched, s: M.Sys, t: Task, prio: nat, held: nat)
    requires Agree(z, s) && Repriced(z, z', t, prio, held)
    ensures Agree(z', M.Put(s, t, M.R(s, t).(prio := prio, held := held)))
  {
    var s' := M.Put(s, t, M.R(s, t).(prio := prio, held := held));
    assert SameTask(z, s, t);
    forall x ensures SameTask(z', s', x) && SameWait(z', s', x) && Keyed(z', x) {
      assert SameTask(z, s, x) && SameWait(z, s, x) && Keyed(z, x);
      assert IsReady(z', x) == IsReady(z, x);
    }
    forall m ensures SameList(z', s', m) { assert SameList(z, s, m); }
  }

  /** A ready task leaves its ready list and joins that of its new priority. */
  lemma Requeue(z: Sched, u: Sched, t: Task, tcb: Tcb)
    requires IsReady(z, t) && u == z.(tcbs := z.tcbs[t := tcb], state := Take(z.state, t), top := u.top)
    ensures var z' := AddReady(u, t);
      && z' == z.(tcbs := u.tcbs, state := z'.state, top := z'.top) && forall x :: IsReady(z', x) == IsReady(z, x)
  {
    hide PutEnd, Take;
    assert Take(z.state, t).at == z.state.at - {t} by { TakeAt(z.state, t); }
    PutEndAt(u.state, Ready(Prio(u, t)), t);
  }

  lemma TakeAt(s: Store<Task, ListId>, t: Task)
    ensures Take(s, t).at == s.at - {t}
  {
  }

  lemma ReadyOwn(z: Sched, t: Task)
    requires Inv(z) && t in z.tcbs
    ensures IsReady(z, t) <==> InList(z, t, Ready(Prio(z, t)))
    ensures z.levels <= 32 && Prio(z, t) < z.levels
  {
  }

  /** What Unready and UnreadyDirect do to a state whose list t leaves. */
  lemma UnreadyShape(z: Sched, t: Task, p: nat)
    ensures var u := Unready(z, t, p); u == z.(state := Take(z.state, t), top := u.top)
  {
    hide Take;
  }

  lemma TimeoutReprices(z: Sched, h: Task, highest: nat)
    requires Inv(z) && h in z.tcbs && Keyed(z, h)
    ensures var r := M.Recomputed(M.Rec(T(z, h).base, Prio(z, h), T(z, h).held, false, M.Out), highest);
      Repriced(z, DisinheritAfterTimeout(z, h, highest), h, r.prio, r.held) && r.base == T(z, h).base
  {
    hide Inv, Unready, AddReady, IsReady, InList;
    ReadyOwn(z, h);
    var tcb := z.tcbs[h];
    var p := if tcb.base < highest then highest else tcb.base;
    if tcb.prio != p && tcb.held == 1 {
      var raised := tcb.(prio := p, eventValue := z.levels - p);
      var s1 := SetTcb(z, h, raised);
      UnreadyShape(s1, h, p);
      if IsReady(z, h) { Requeue(z, Unready(s1, h, p), h, raised); }
      assert DisinheritAfterTimeout(z, h, highest) == if IsReady(z, h) then AddReady(Unready(s1, h, p), h) else s1;
      hide DisinheritAfterTimeout;
      SetTcbReady(z, h, raised);
    } else {
      assert z.tcbs[h := z.tcbs[h]] == z.tcbs;
    }
  }

  lemma SetTcbReady(z: Sched, h: Task, tcb: Tcb)
    ensures forall x :: IsReady(SetTcb(z, h, tcb), x) == IsReady(z, x)
  {
  }

  lemma InheritReprices(z: Sched, h: Task)
    requires Inv(z) && h in z.tcbs && Keyed(z, h)
    ensures var r := M.Raised(M.Rec(T(z, h).base, Prio(z, h), T(z, h).held, false, M.Out), Prio(z, z.current));
      Repriced(z, Inherit(z, h), h, r.prio, r.held) && r.base == T(z, h).base
  {
    hide Inv, Unready, AddReady, IsReady, InList;
    ReadyOwn(z, h);
    var tcb, p := z.tcbs[h], Prio(z, z.current);
    if tcb.prio < p {
      var raised := tcb.(prio := p, eventValue := z.levels - p);
      var u := SetTcb(Unready(z, h, tcb.prio), h, raised);
      UnreadyShape(z, h, tcb.prio);
      if IsReady(z, h) { Requeue(z, u, h, raised); }
      assert Inherit(z, h) == if IsReady(z, h) then AddReady(u, h) else SetTcb(z, h, raised);
      hide Inherit;
      SetTcbReady(z, h, raised);
    } else {
      assert z.tcbs[h := z.tcbs[h]] == z.tcbs;
    }
  }

  lemma DisinheritReprices(z: Sched)
    requires Inv(z) && z.current in z.tcbs && Keyed(z, z.current) && IsReady(z, z.current)
    ensures var r := M.Rec(T(z, z.current).base, Prio(z, z.current), T(z, z.current).held, false, M.Out);
      && Repriced(z, Disinherit(z).s, z.current, M.Returned(r).prio, M.Returned(r).held)
      && Disinherit(z).s.owed == z.owed && (Disinherit(z).switch <==> M.Drops(r))
  {
    hide Inv, Unready, AddReady, IsReady, InList;
    ReadyOwn(z, z.current);
    var c, tcb := z.current, z.tcbs[z.current];
    var held := if tcb.held == 0 then 0 else tcb.held - 1;
    if tcb.prio != tcb.base && held == 0 {
      var lowered := tcb.(held := held, prio := tcb.base, eventValue := z.levels - tcb.base);
      var u := SetTcb(Unready(z, c, tcb.prio), c, lowered);
      UnreadyShape(z, c, tcb.prio);
      Requeue(z, u, c, lowered);
      assert Disinherit(z) == Ticked(AddReady(u, c), true);
      hide Disinherit;
    } else {
      SetTcbReady(z, c, tcb.(held := held));
    }
  }

  /** Only the phase of a task changes, and it neither waits before nor afterwards. */
  lemma PhaseAgrees(z: Sched, s: M.Sys, c: Task, phase: M.Phase)
    requires Agree(z, s) && c in s.tasks && !M.R(s, c).phase.Waiting? && !phase.Waiting?
    ensures Agree(z, M.Put(s, c, M.R(s, c).(phase := phase)))
  {
    var s' := M.Put(s, c, M.R(s, c).(phase := phase));
    forall x ensures SameTask(z, s', x) && SameWait(z, s', x) {
      assert SameTask(z, s, x) && SameWait(z, s, x);
    }
    forall m ensures SameList(z, s', m) { assert SameList(z, s, m); }
  }

  // ---- A time-out, and the wrong reset ----

  lemma NotStale(z: Sched, s: M.Sys)
    requires Matches(z, s) && M.Inv(s) && MB.AllExplained(s) && M.Enabled(s, M.Undo) && M.Owner(s, M.Me(s).phase.m).Held?
    ensures var m := M.Me(s).phase.m;
      !StaleBit(z, MutexTimeout(M.Owner(s, m).task, M.HighestWaiting(s, m)))
  {
    var m := M.Me(s).phase.m;
    var h := M.Owner(s, m).task;
    hide M.Inv, MB.AllExplained, Inv;
    if StaleBit(z, MutexTimeout(h, M.HighestWaiting(s, m))) {
      assert SameTask(z, s, h);
      MB.NotAlone(s);
      var x :| x != h && M.IsReady(s, x) && M.Prio(s, x) == M.Prio(s, h);
      assert SameTask(z, s, x);
      MB.TwoInList(z, h, x);
    }
  }

  lemma UndoEnabled(z: Sched, s: M.Sys)
    requires Matches(z, s) && M.Inv(s) && M.Enabled(s, M.Undo) && M.Owner(s, M.Me(s).phase.m).Held?
    ensures var h, p := M.Owner(s, M.Me(s).phase.m).task, M.HighestWaiting(s, M.Me(s).phase.m);
      h != s.current && h in z.tcbs && Enabled(z, MutexTimeout(h, p))
  {
    var m := M.Me(s).phase.m;
    var h := M.Owner(s, m).task;
    Running(z, s);
    MK.OwnerHolds(s, m);
    assert M.InPhase(s, s.current) && SameTask(z, s, h);
    if M.W(s, m) != [] {
      var x := M.W(s, m)[0];
      assert SameTask(z, s, x) && M.Ordered(s, m);
      assert x in s.tasks;
      ReadyOwn(z, x);
    } else {
      ReadyOwn(z, h);
    }
  }

  lemma UndoAgrees(z: Sched, s: M.Sys, h: Task, m: nat, p: nat)
    requires Agree(z, s) && Inv(z) && s.current in s.tasks && M.Me(s).phase == M.Undoing(m) && M.Owner(s, m) == M.Held(h)
    requires h != s.current && h in z.tcbs && M.HighestWaiting(s, m) == p && M.Enabled(s, M.Undo)
    ensures Agree(DisinheritAfterTimeout(z, h, p), M.Apply(s, M.Undo))
  {
    var s1 := M.Put(s, s.current, M.Me(s).(phase := M.Out));
    assert Keyed(z, h) && SameTask(z, s, h);
    hide Inv, Agree, DisinheritAfterTimeout, SameTask;
    TimeoutReprices(z, h, p);
    PhaseAgrees(z, s, s.current, M.Out);
    SameRec(z, s, h);
    assert M.HighestWaiting(s1, m) == p;
    var r := M.Recomputed(M.R(s1, h), p);
    RepricedAgrees(z, DisinheritAfterTimeout(z, h, p), s1, h, r.prio, r.held);
  }

  lemma UndoCall(z: Sched, s: M.Sys)
    requires Matches(z, s) && M.Inv(s) && MB.AllExplained(s) && M.Enabled(s, M.Undo) && M.Owner(s, M.Me(s).phase.m).Held?
    ensures var step := MutexTimeout(M.Owner(s, M.Me(s).phase.m).task, M.HighestWaiting(s, M.Me(s).phase.m));
      Enabled(z, step) && !StaleBit(z, step) && Matches(Apply(z, step), M.Apply(s, M.Undo))
  {
    hide Inv, M.Inv, MB.AllExplained, Agree, DisinheritAfterTimeout, StaleBit, Enabled;
    var m := M.Me(s).phase.m;
    var h, p := M.Owner(s, m).task, M.HighestWaiting(s, m);
    UndoEnabled(z, s);
    NotStale(z, s);
    StepKept(z, MutexTimeout(h, p));
    UndoAgrees(z, s, h, m, p);
    TimeoutFlags(z, h, p);
  }

  lemma TimeoutFlags(z: Sched, h: Task, p: nat)
    ensures var z' := DisinheritAfterTimeout(z, h, p);
      z'.owed == z.owed && z'.yieldPending == z.yieldPending && z'.suspended == z.suspended && z'.blocking == z.blocking
  {
    hide Take, PutEnd;
  }

  // ---- Giving a mutex back ----

  lemma GiveEnabled(z: Sched, s: M.Sys, m: nat)
    requires Matches(z, s) && M.Inv(s) && M.Enabled(s, M.Give(m))
    ensures Enabled(z, Step.GiveMutex(m)) && z.current == s.current && z.current in z.tcbs && IsReady(z, z.current) && TaskRuns(z)
    ensures Keyed(z, z.current) && SameTask(z, s, z.current) && M.Me(s) == M.R(s, z.current)
  {
    Running(z, s);
    assert SameTask(z, s, z.current) && Keyed(z, z.current);
    MK.OwnerHolds(s, m);
    hide Inv, M.Inv;
  }

  lemma DisinheritValid(z: Sched)
    requires Inv(z) && TaskRuns(z)
    ensures var d := Disinherit(z).s; Valid(d.state) && Valid(d.event) && d.state.at.Keys == d.tcbs.Keys
  {
    DisinheritCore(z);
    assert Linked(Disinherit(z).s, {});
    hide Inv, Disinherit, Reprioritised;
  }

  /** The protocol's state when the giver's priority has been set and the mutex is free. */
  function GivenBack(s: M.Sys, m: nat): M.Sys {
    M.Put(s, s.current, M.Returned(M.Me(s))).(owner := s.owner[m := M.Free])
  }

  lemma GiveParts(z: Sched, s: M.Sys, m: nat)
    requires Matches(z, s) && M.Inv(s) && M.Enabled(s, M.Give(m))
    ensures var d := Disinherit(z);
      && Agree(d.s, GivenBack(s, m)) && d.s == z.(tcbs := d.s.tcbs, state := d.s.state, top := d.s.top)
      && (d.switch <==> M.Drops(M.Me(s)))
  {
    GiveEnabled(z, s, m);
    hide Inv, M.Inv, Agree, Disinherit, SameTask, M.Enabled, Enabled;
    assert SameTask(z, s, z.current);
    SameRec(z, s, z.current);
    DisinheritReprices(z);
    var d, r := Disinherit(z), M.Returned(M.Me(s));
    RepricedAgrees(z, d.s, s, z.current, r.prio, r.held);
    OwnerAgrees(d.s, M.Put(s, s.current, r), GivenBack(s, m));
  }

  lemma SameRec(z: Sched, s: M.Sys, t: Task)
    requires SameTask(z, s, t)
    ensures T(z, t).base == M.R(s, t).base && Prio(z, t) == M.R(s, t).prio && T(z, t).held == M.R(s, t).held
  {
  }

  lemma OwnerAgrees(z: Sched, s: M.Sys, s': M.Sys)
    requires Agree(z, s) && s'.tasks == s.tasks && s'.waiting == s.waiting && s'.current == s.current
    ensures Agree(z, s')
  {
    forall t ensures SameTask(z, s', t) && SameWait(z, s', t) { assert SameTask(z, s, t) && SameWait(z, s, t); }
    forall m ensures SameList(z, s', m) { assert SameList(z, s, m); }
  }

  /** Requests for a switch concern no task. */
  lemma OwedAgrees(z: Sched, z': Sched, s: M.Sys, s': M.Sys)
    requires Agree(z, s) && z' == z.(owed := z'.owed, yieldPending := z'.yieldPending) && s' == s.(owed := s'.owed)
    ensures Agree(z', s')
  {
    forall t ensures SameTask(z', s', t) && SameWait(z', s', t) && Keyed(z', t) {
      assert SameTask(z, s, t) && SameWait(z, s, t) && Keyed(z, t);
    }
    forall m ensures SameList(z', s', m) { assert SameList(z, s, m); }
  }

  lemma GiveCall(z: Sched, s: M.Sys, m: nat)
    requires Matches(z, s) && M.Inv(s) && M.Enabled(s, M.Give(m))
    ensures Enabled(z, Step.GiveMutex(m)) && Matches(Apply(z, Step.GiveMutex(m)), M.Apply(s, M.Give(m)))
  {
    hide Inv, M.Inv, Agree, Disinherit, M.Ordered, Valid, M.Enabled, Enabled, SameTask, Keyed, GivenBack, Flags, TaskRuns;
    hide Scheduler.GiveMutex;
    ListOfMutex(z, s, m);
    GiveEnabled(z, s, m);
    GiveParts(z, s, m);
    DisinheritValid(z);
    GiveInv(z, m);
    var d := Disinherit(z).s;
    if M.W(s, m) == [] { GivenNobody(z, s, m, d, GivenBack(s, m)); } else { GivenHead(z, s, m, d, GivenBack(s, m), M.W(s, m)[0]); }
    assert Apply(z, Step.GiveMutex(m)) == Scheduler.GiveMutex(z, m);
  }

  lemma ListOfMutex(z: Sched, s: M.Sys, m: nat)
    requires Agree(z, s) && M.Inv(s)
    ensures InEvent(z, WaitList(m)) == M.W(s, m) && M.Ordered(s, m)
  {
    assert SameList(z, s, m);
  }

  lemma GiveInv(z: Sched, m: nat)
    requires Inv(z) && Enabled(z, Step.GiveMutex(m))
    ensures Inv(Scheduler.GiveMutex(z, m))
  {
    hide Inv, Enabled;
    StepKept(z, Step.GiveMutex(m));
  }

  lemma GivenNobody(z: Sched, s: M.Sys, m: nat, d: Sched, s1: M.Sys)
    requires Flags(z, s) && M.W(s, m) == [] && d == Disinherit(z).s && Agree(d, s1) && InEvent(z, WaitList(m)) == []
    requires d == z.(tcbs := d.tcbs, state := d.state, top := d.top) && (Disinherit(z).switch <==> M.Drops(M.Me(s)))
    requires s1 == GivenBack(s, m)
    requires M.Enabled(s, M.Give(m)) && Inv(Scheduler.GiveMutex(z, m))
    ensures Matches(Scheduler.GiveMutex(z, m), M.Apply(s, M.Give(m)))
  {
    hide Inv, Agree, Disinherit, M.Enabled;
    OwedAgrees(d, Scheduler.GiveMutex(z, m), s1, M.Apply(s, M.Give(m)));
  }

  /** The task to be woken waits, and is known. */
  lemma HeadWaits(s: M.Sys, m: nat, d: Sched, s1: M.Sys, head: Task)
    requires M.W(s, m) != [] && head == M.W(s, m)[0] && M.Ordered(s, m) && Agree(d, s1) && Valid(d.event)
    requires s1 == GivenBack(s, m) && InEvent(d, WaitList(m)) == M.W(s, m)
    requires d.state.at.Keys == d.tcbs.Keys
    ensures M.R(s1, head).phase.Waiting? && head in d.tcbs && head in d.state.at
    ensures Prio(d, head) == M.Prio(s1, head) && Prio(d, s.current) == M.Prio(s1, s.current)
  {
    assert head in M.W(s, m);
    assert SameTask(d, s1, head) && SameTask(d, s1, s.current);
    InItsList(d, WaitList(m), head);
    assert SameWait(d, s1, head);
    hide Agree, Valid;
    KnownTask(d, s1, head);
  }

  lemma GivenHead(z: Sched, s: M.Sys, m: nat, d: Sched, s1: M.Sys, head: Task)
    requires Flags(z, s) && M.W(s, m) != [] && head == M.W(s, m)[0] && d == Disinherit(z).s && Agree(d, s1)
    requires Valid(d.state) && Valid(d.event) && d.state.at.Keys == d.tcbs.Keys && z.current == s.current
    requires d == z.(tcbs := d.tcbs, state := d.state, top := d.top) && InEvent(z, WaitList(m)) == M.W(s, m)
    requires s1 == GivenBack(s, m) && M.Ordered(s, m)
    requires M.Enabled(s, M.Give(m)) && Inv(Scheduler.GiveMutex(z, m))
    ensures Matches(Scheduler.GiveMutex(z, m), M.Apply(s, M.Give(m)))
  {
    hide Inv, Agree, Disinherit, Valid, Woken, Take, M.Ordered, Prio, M.Prio, M.Enabled;
    HeadWaits(s, m, d, s1, head);
    WokenAgrees(d, s1, head);
    WokenIs(z, m, d, head);
    WokenFlags(d, head);
    OwedAgrees(Woken(d, head), Scheduler.GiveMutex(z, m), M.Released(s1, head), M.Apply(s, M.Give(m)));
  }

  lemma WokenIs(z: Sched, m: nat, d: Sched, head: Task)
    requires d == Disinherit(z).s && z.suspended == 0 && d.suspended == 0 && d.current == z.current
    requires InEvent(z, WaitList(m)) != [] && InEvent(z, WaitList(m))[0] == head && d.event == z.event
    ensures Scheduler.GiveMutex(z, m) ==
      if Prio(d, head) > Prio(d, z.current) then Woken(d, head).(yieldPending := true, owed := true) else Woken(d, head)
  {
    hide Disinherit, AddReady, RemoveState, RemoveEvent, Prio;
  }

  lemma WokenFlags(d: Sched, t: Task)
    ensures var z' := Woken(d, t); z' == d.(state := z'.state, event := z'.event, top := z'.top)
  {
    hide Take, PutEnd;
  }

  lemma InItsList(z: Sched, e: EventId, t: Task)
    requires Valid(z.event) && t in InEvent(z, e)
    ensures t in z.event.at && z.event.at[t] == e
  {
    assert t in Items(z.event, e);
  }

  lemma KnownTask(z: Sched, s: M.Sys, t: Task)
    requires SameTask(z, s, t) && M.R(s, t).phase.Waiting? && z.state.at.Keys == z.tcbs.Keys
    ensures t in z.tcbs && t in z.state.at
  {
    assert t in s.tasks;
    assert t in z.state.at.Keys;
  }

  // ---- The tick ----

  /** The protocol's view of the unblocking loop. */
  function Rouse(z: Sched, s: M.Sys, fuel: nat): M.Sys
    decreases fuel
  {
    var l := InState(z, CurrentList(z));
    if l == [] || z.tick < Wake(z.tcbs, l[0]) || fuel == 0 then s
    else Rouse(TimeOut(z, l[0]), Woke(s, l[0]), fuel - 1)
  }

  lemma {:induction false} RouseAgrees(z: Sched, s: M.Sys, switch: bool, fuel: nat)
    requires Core(z, {}, Now(z)) && Agree(z, s)
    ensures Agree(Unblock(z, switch, fuel).s, Rouse(z, s, fuel))
    decreases fuel
  {
    hide Core, Agree, TimeOut, Woke;
    var l := InState(z, CurrentList(z));
    if l == [] || z.tick < Wake(z.tcbs, l[0]) || fuel == 0 {
      NextAgrees(z, Unblock(z, switch, fuel).s, s);
    } else {
      var t := l[0];
      HeadOfDelayed(z, Now(z));
      CoreValid(z);
      WokenAgrees(z, s, t);
      WokenShape(z, t);
      TimeOutCore(z, t, Now(z));
      TimeOutClock(z, t);
      RouseAgrees(TimeOut(z, t), Woke(s, t), switch || Prio(z, t) >= Prio(z, z.current), fuel - 1);
    }
  }

  lemma CoreValid(z: Sched)
    requires Core(z, {}, Now(z))
    ensures Valid(z.state) && Valid(z.event) && z.state.at.Keys == z.tcbs.Keys
  {
  }

  lemma NextAgrees(z: Sched, z': Sched, s: M.Sys)
    requires Agree(z, s) && z' == z.(next := z'.next, tick := z'.tick, epoch := z'.epoch, swapped := z'.swapped)
    ensures Agree(z', s)
  {
    forall t ensures SameTask(z', s, t) && SameWait(z', s, t) && Keyed(z', t) {
      assert SameTask(z, s, t) && SameWait(z, s, t) && Keyed(z, t);
    }
    forall m ensures SameList(z', s, m) { assert SameList(z, s, m); }
  }

  function AfterTick(z: Sched, s: M.Sys): M.Sys {
    var z1 := Advanced(z);
    var s1 := if z1.tick >= z1.next then Rouse(z1, s, |InState(z1, CurrentList(z1))|) else s;
    s1.(owed := Apply(z, Tick).owed)
  }

  lemma TickCall(z: Sched, s: M.Sys)
    requires Matches(z, s)
    ensures Matches(Apply(z, Tick), AfterTick(z, s))
  {
    StepKept(z, Tick);
    var z1 := Advanced(z);
    AdvancedCore(z);
    hide Inv, Core, Agree, Advanced;
    AdvancedIs(z);
    NextAgrees(z, z1, s);
    var n := |InState(z1, CurrentList(z1))|;
    if z1.tick >= z1.next { RouseAgrees(z1, s, false, n); }
    var r := if z1.tick >= z1.next then Unblock(z1, false, n).s else z1;
    var s1 := if z1.tick >= z1.next then Rouse(z1, s, n) else s;
    UnblockFlags(z1, false, n);
    hide Unblock, Rouse;
    TickAgrees(r, Apply(z, Tick), s1, AfterTick(z, s));
  }

  lemma AdvancedIs(z: Sched)
    ensures var z1 := Advanced(z); z1 == z.(next := z1.next, tick := z1.tick, epoch := z1.epoch, swapped := z1.swapped)
  {
  }

  lemma TickAgrees(z: Sched, z': Sched, s: M.Sys, s': M.Sys)
    requires Agree(z, s) && z' == z.(owed := z'.owed, delivered := z'.delivered) && s' == s.(owed := s'.owed)
    ensures Agree(z', s')
  {
    forall t ensures SameTask(z', s', t) && SameWait(z', s', t) && Keyed(z', t) {
      assert SameTask(z, s, t) && SameWait(z, s, t) && Keyed(z, t);
    }
    forall m ensures SameList(z', s', m) { assert SameList(z, s, m); }
  }

  lemma {:induction false} UnblockFlags(z: Sched, switch: bool, fuel: nat)
    ensures var r := Unblock(z, switch, fuel).s;
      r == z.(state := r.state, event := r.event, top := r.top, next := r.next)
    decreases fuel
  {
    var l := InState(z, CurrentList(z));
    if l != [] && z.tick >= Wake(z.tcbs, l[0]) && fuel > 0 {
      TimeOutFlags(z, l[0]);
      hide TimeOut;
      UnblockFlags(TimeOut(z, l[0]), switch || Prio(z, l[0]) >= Prio(z, z.current), fuel - 1);
    }
  }

  lemma TimeOutFlags(z: Sched, t: Task)
    ensures var r := TimeOut(z, t); r == z.(state := r.state, event := r.event, top := r.top)
  {
    hide Take, PutEnd;
  }

  // ---- Blocking ----

  /** prvAddCurrentTaskToDelayedList changes the list and the due time of the running task. */
  lemma BlockShape(z: Sched, n: Machine.Tick, indefinitely: bool)
    requires Core(z, {}, Now(z) + 1) && IsReady(z, z.current) && z.current in z.tcbs && n >= 1
    ensures var z', c := BlockCurrent(z, n, indefinitely), z.current;
      && z' == z.(state := z'.state, top := z'.top, next := z'.next, tcbs := z'.tcbs)
      && c in z'.tcbs && z'.tcbs == z.tcbs[c := z'.tcbs[c]]
      && z'.tcbs[c] == z.tcbs[c].(wake := z'.tcbs[c].wake, due := z'.tcbs[c].due)
      && (forall x :: IsReady(z', x) <==> IsReady(z, x) && x != c)
  {
    BlockCore(z, n, indefinitely);
    BlockTcbs(z, n, indefinitely);
    hide Core, BlockCurrent;
    var z' := BlockCurrent(z, n, indefinitely);
    forall x ensures IsReady(z', x) <==> IsReady(z, x) && x != z.current {
      assert x in z'.state.at.Keys <==> x in z.state.at.Keys;
    }
  }

  lemma BlockTcbs(z: Sched, n: Machine.Tick, indefinitely: bool)
    requires z.current in z.tcbs
    ensures var z', c := BlockCurrent(z, n, indefinitely), z.current;
      c in z'.tcbs && z'.tcbs == z.tcbs[c := z'.tcbs[c]]
      && z'.tcbs[c] == z.tcbs[c].(wake := z'.tcbs[c].wake, due := z'.tcbs[c].due)
  {
    hide UnreadyDirect, FileDelayed;
    var s1 := UnreadyDirect(z, z.current, Prio(z, z.current));
    UnreadyTcbs(z, z.current, Prio(z, z.current));
    FiledTcbs(s1, z.current, n);
    assert z.tcbs[z.current := z.tcbs[z.current]] == z.tcbs;
  }

  lemma UnreadyTcbs(z: Sched, t: Task, p: nat)
    ensures UnreadyDirect(z, t, p).tcbs == z.tcbs
  {
    hide Take, Emptied;
  }

  lemma FiledTcbs(z: Sched, t: Task, n: Machine.Tick)
    requires t in z.tcbs
    ensures var z' := FileDelayed(z, t, n);
      t in z'.tcbs && z'.tcbs == z.tcbs[t := z.tcbs[t].(wake := z'.tcbs[t].wake, due := z'.tcbs[t].due)]
  {
    hide PutAt, SearchPos, WakeKeys;
  }

  /** vTaskSuspendAll around a block, with nothing held back, and the yield that ends it. */
  function Halted(z: Sched): Sched { z.(suspended := 1) }

  function Left(b: Sched): Sched { b.(suspended := 0, owed := true, blocking := false) }

  lemma NonePended(z: Sched)
    requires Inv(z) && z.suspended == 0
    ensures z.pended == 0 && InEvent(z, PendingReady) == []
  {
    if InEvent(z, PendingReady) != [] { FirstPends(z); }
  }

  lemma FirstPends(z: Sched)
    requires Valid(z.event) && InEvent(z, PendingReady) != []
    ensures Pending(z, InEvent(z, PendingReady)[0])
  {
    assert InEvent(z, PendingReady)[0] in Items(z.event, PendingReady);
  }

  lemma ResumeNothing(b: Sched)
    requires b.suspended == 1 && b.pended == 0 && InEvent(b, PendingReady) == [] && !b.owed && !b.yieldPending
    ensures ResumeAll(b) == b.(suspended := 0)
  {
  }

  /** The four steps of a block: the scheduler is suspended, the task blocks, the scheduler resumes, and the
      task yields. */
  lemma BlockRun(z: Sched, step: Step, b: Sched)
    requires Inv(z) && z.suspended == 0 && Quiet(z) && TaskRuns(z) && (step.Delay? || step.WaitOrdered?)
    requires Enabled(Halted(z), step) && Apply(Halted(z), step) == b
    requires b == Halted(z).(state := b.state, event := b.event, top := b.top, next := b.next, tcbs := b.tcbs, blocking := true)
    requires InEvent(b, PendingReady) == []
    ensures var steps := [SuspendScheduler, step, ResumeScheduler, Yield];
      Legal(z, steps) && Exec(z, steps) == Left(b) && Inv(Left(b))
  {
    NonePended(z);
    ResumeNothing(b);
    var r := b.(suspended := 0);
    BlockSteps(z, b, r);
    hide Inv, ResumeAll, InEvent, Enabled, Apply, TaskRuns;
    StepKept(z, SuspendScheduler);
    StepKept(Halted(z), step);
    StepKept(b, ResumeScheduler);
    StepKept(r, Yield);
    Four(z, SuspendScheduler, Halted(z), step, b, ResumeScheduler, r, Yield, Left(b));
  }

  lemma BlockSteps(z: Sched, b: Sched, r: Sched)
    requires TaskRuns(z) && z.suspended == 0 && b.suspended == 1 && r == b.(suspended := 0) && ResumeAll(b) == r
    ensures Enabled(z, SuspendScheduler) && Apply(z, SuspendScheduler) == Halted(z)
    ensures Enabled(b, ResumeScheduler) && Apply(b, ResumeScheduler) == r && Enabled(r, Yield) && Apply(r, Yield) == Left(b)
  {
    hide ResumeAll;
  }

  lemma Four(z0: Sched, a: Step, z1: Sched, b: Step, z2: Sched, c: Step, z3: Sched, d: Step, z4: Sched)
    requires Enabled(z0, a) && !StaleBit(z0, a) && Apply(z0, a) == z1 && Enabled(z1, b) && !StaleBit(z1, b) && Apply(z1, b) == z2
    requires Enabled(z2, c) && !StaleBit(z2, c) && Apply(z2, c) == z3 && Enabled(z3, d) && !StaleBit(z3, d) && Apply(z3, d) == z4
    ensures Legal(z0, [a, b, c, d]) && Exec(z0, [a, b, c, d]) == z4
  {
    hide Enabled, StaleBit, Apply;
    assert [a, b, c, d][1..] == [b, c, d] && [b, c, d][1..] == [c, d] && [c, d][1..] == [d] && [d][1..] == [];
    assert Legal(z3, [d]) && Exec(z3, [d]) == z4;
    assert Legal(z2, [c, d]) && Exec(z2, [c, d]) == z4;
    assert Legal(z1, [b, c, d]) && Exec(z1, [b, c, d]) == z4;
  }

  lemma DelayRun(z: Sched, n: Machine.Tick)
    requires Inv(z) && z.suspended == 0 && Quiet(z) && TaskRuns(z) && z.current != z.idle && n >= 1 && z.current in z.tcbs
    ensures var steps, b := [SuspendScheduler, Delay(n), ResumeScheduler, Yield], BlockCurrent(Halted(z), n, false);
      Legal(z, steps) && Exec(z, steps) == Left(b) && Inv(Left(b))
  {
    var h := Halted(z);
    HaltedCore(z);
    NonePended(z);
    MayDelay(z, n);
    hide Inv, BlockCurrent, Core, TaskRuns, Enabled;
    BlockShape(h, n, false);
    BlockRun(z, Delay(n), BlockCurrent(h, n, false).(blocking := true));
  }

  lemma MayDelay(z: Sched, n: Machine.Tick)
    requires TaskRuns(z) && z.current != z.idle && n >= 1
    ensures Enabled(Halted(z), Delay(n)) && IsReady(Halted(z), z.current)
    ensures forall m :: z.current !in z.event.at ==> Enabled(Halted(z), WaitOrdered(m, n))
  {
  }

  lemma SleepCall(z: Sched, s: M.Sys, n: Machine.Tick)
    requires Matches(z, s) && M.Inv(s) && M.Enabled(s, M.Sleep) && n >= 1 && z.current != z.idle
    ensures var steps := [SuspendScheduler, Delay(n), ResumeScheduler, Yield];
      Legal(z, steps) && Matches(Exec(z, steps), M.Apply(s, M.Sleep))
  {
    hide Inv, M.Inv, BlockCurrent, Agree, Legal, Exec, Core, IsReady;
    Running(z, s);
    RunsReady(z);
    HaltedCore(z);
    DelayRun(z, n);
    SameReady(z, Halted(z));
    BlockShape(Halted(z), n, false);
    SameReady(BlockCurrent(Halted(z), n, false), Left(BlockCurrent(Halted(z), n, false)));
    SleptAgrees(z, s, Left(BlockCurrent(Halted(z), n, false)));
  }

  lemma HaltedCore(z: Sched)
    requires Inv(z)
    ensures Core(Halted(z), {}, Now(Halted(z)) + 1)
  {
    hide Core;
    SameListsCore(z, Halted(z), {}, Now(z) + 1);
  }

  lemma SleptAgrees(z: Sched, s: M.Sys, z': Sched)
    requires Agree(z, s) && M.Enabled(s, M.Sleep) && z.current in z.tcbs && z.current in z'.tcbs
    requires z' == z.(state := z'.state, top := z'.top, next := z'.next, tcbs := z'.tcbs, owed := true)
    requires z'.tcbs == z.tcbs[z.current := z'.tcbs[z.current]]
    requires z'.tcbs[z.current] == z.tcbs[z.current].(wake := z'.tcbs[z.current].wake, due := z'.tcbs[z.current].due)
    requires forall x :: IsReady(z', x) <==> IsReady(z, x) && x != z.current
    ensures Agree(z', M.Apply(s, M.Sleep))
  {
    var s' := M.Apply(s, M.Sleep);
    forall x ensures SameTask(z', s', x) && SameWait(z', s', x) && Keyed(z', x) {
      assert SameTask(z, s, x) && SameWait(z, s, x) && Keyed(z, x);
      assert IsReady(z', x) <==> IsReady(z, x) && x != z.current;
    }
    forall m ensures SameList(z', s', m) { assert SameList(z, s, m); }
  }

  // ---- Waiting for a mutex ----

  lemma {:induction false} SearchShift(a: seq<int>, b: seq<int>, v: int, w: int, d: int)
    requires |a| == |b| && w == v + d && forall i | 0 <= i < |a| :: b[i] == a[i] + d
    ensures SearchPos(a, v) == SearchPos(b, w)
    decreases |a|
  {
    if a != [] && a[0] <= v { SearchShift(a[1..], b[1..], v, w, d); }
  }

  /** The place in the waiting list is the same, whether found by priority or by the keys of the event items. */
  lemma SamePlace(z: Sched, s: M.Sys, m: nat, h: Task)
    requires Agree(z, M.Put(s, h, M.Raised(M.R(s, h), M.Me(s).prio))) && z.current == s.current && h != s.current
    requires h !in M.W(s, m) && s.current in z.tcbs && forall t <- M.W(s, m) :: t in z.tcbs
    requires InEvent(z, WaitList(m)) == M.W(s, m)
    ensures var items := InEvent(z, WaitList(m));
      SearchPos(EventKeys(z.tcbs, items), T(z, z.current).eventValue)
      == SearchPos(M.Keys(s, M.W(s, m)), 0 - M.Me(s).prio)
  {
    var s1, items := M.Put(s, h, M.Raised(M.R(s, h), M.Me(s).prio)), InEvent(z, WaitList(m));
    assert SameTask(z, s1, z.current) && Keyed(z, z.current);
    var a, b := M.Keys(s, items), EventKeys(z.tcbs, items);
    forall i | 0 <= i < |items| ensures b[i] == a[i] + z.levels {
      var x := items[i];
      assert x in M.W(s, m) && SameTask(z, s1, x) && Keyed(z, x);
    }
    hide Agree;
    SearchShift(a, b, 0 - M.Me(s).prio, T(z, z.current).eventValue, z.levels);
  }

  /** The waiting task joins the list, and is blocked. */
  ghost predicate Joins(z: Sched, z': Sched, m: nat, k: nat) {
    var c := z.current;
    && k <= |InEvent(z, WaitList(m))| && z'.event == PutAt(z.event, WaitList(m), k, c)
    && z' == z.(state := z'.state, event := z'.event, top := z'.top, next := z'.next, tcbs := z'.tcbs, owed := true)
    && c in z.tcbs && c in z'.tcbs && z'.tcbs == z.tcbs[c := z'.tcbs[c]]
    && z'.tcbs[c] == z.tcbs[c].(wake := z'.tcbs[c].wake, due := z'.tcbs[c].due)
    && forall x :: IsReady(z', x) <==> IsReady(z, x) && x != c
  }

  function Joining(s: M.Sys, m: nat, k: nat, inherited: bool): M.Sys {
    var c := s.current;
    var w := M.W(s, m);
    M.Put(s, c, M.R(s, c).(ready := false, phase := M.Waiting(m, inherited)))
      .(waiting := s.waiting[m := if k <= |w| then w[..k] + [c] + w[k..] else w], owed := true)
  }

  lemma JoinedLists(z: Sched, m: nat, k: nat, e: EventId)
    requires Valid(z.event) && z.current !in z.event.at && k <= |InEvent(z, WaitList(m))|
    ensures var l := InEvent(z, WaitList(m));
      Items(PutAt(z.event, WaitList(m), k, z.current), e)
        == if e == WaitList(m) then l[..k] + [z.current] + l[k..] else InEvent(z, e)
    ensures PutAt(z.event, WaitList(m), k, z.current).at == z.event.at[z.current := WaitList(m)]
  {
  }

  lemma JoinsAgrees(z: Sched, z': Sched, s: M.Sys, m: nat, k: nat, inherited: bool)
    requires Agree(z, s) && Joins(z, z', m, k) && Valid(z.event) && !M.R(s, s.current).phase.Waiting? && s.current in s.tasks
    ensures Agree(z', Joining(s, m, k, inherited))
  {
    var s' := Joining(s, m, k, inherited);
    assert SameWait(z, s, z.current) && SameList(z, s, m);
    forall x ensures SameTask(z', s', x) && SameWait(z', s', x) && Keyed(z', x) {
      JoinedLists(z, m, k, WaitList(m));
      JoinsTask(z, z', s, m, k, inherited, x);
    }
    forall q ensures SameList(z', s', q) {
      assert SameList(z, s, q);
      JoinedLists(z, m, k, WaitList(q));
    }
  }

  lemma JoinsTask(z: Sched, z': Sched, s: M.Sys, m: nat, k: nat, inherited: bool, x: Task)
    requires Agree(z, s) && Joins(z, z', m, k) && !M.R(s, s.current).phase.Waiting? && s.current in s.tasks
    requires z'.event.at == z.event.at[z.current := WaitList(m)]
    ensures SameTask(z', Joining(s, m, k, inherited), x) && SameWait(z', Joining(s, m, k, inherited), x) && Keyed(z', x)
  {
    hide PutAt, InEvent;
    assert SameTask(z, s, x) && SameWait(z, s, x) && Keyed(z, x) && z.current == s.current;
    assert IsReady(z', x) <==> IsReady(z, x) && x != z.current;
    hide Agree, IsReady;
  }

  /** The running task in the list of waiting tasks. */
  function Queued(z: Sched, m: nat): Sched {
    var k := SearchPos(EventKeys(z.tcbs, InEvent(z, WaitList(m))), T(z, z.current).eventValue);
    z.(event := PutAt(z.event, WaitList(m), k, z.current))
  }

  lemma QueuedCore(z: Sched, m: nat)
    requires Inv(z) && z.suspended == 0 && z.current in z.tcbs && z.current !in z.event.at
    ensures var q := Queued(Halted(z), m);
      Core(q, {}, Now(q) + 1) && q == Halted(z).(event := q.event) && InEvent(q, PendingReady) == [] && Valid(z.event)
  {
    var h := Halted(z);
    var k := SearchPos(EventKeys(z.tcbs, InEvent(z, WaitList(m))), T(z, z.current).eventValue);
    HaltedCore(z);
    PutEventCore(h, WaitList(m), k, h.current);
    NonePended(z);
    assert Valid(z.event);
    JoinedLists(z, m, k, PendingReady);
    hide Inv, Core, Valid, PutAt, SearchPos;
  }

  lemma QueuedBlocks(z: Sched, m: nat, n: Machine.Tick)
    ensures Apply(Halted(z), WaitOrdered(m, n)) == BlockCurrent(Queued(Halted(z), m), n, true).(blocking := true)
  {
    hide BlockCurrent, PutAt, SearchPos;
  }

  lemma WaitBlocks(z: Sched, m: nat, n: Machine.Tick)
    requires Inv(z) && z.suspended == 0 && Quiet(z) && TaskRuns(z) && z.current != z.idle && n >= 1
    requires z.current in z.tcbs && z.current !in z.event.at
    ensures var steps, k := [SuspendScheduler, WaitOrdered(m, n), ResumeScheduler, Yield],
                            SearchPos(EventKeys(z.tcbs, InEvent(z, WaitList(m))), T(z, z.current).eventValue);
      Legal(z, steps) && Inv(Exec(z, steps)) && Joins(z, Exec(z, steps), m, k) && !Exec(z, steps).blocking
  {
    hide Inv, BlockCurrent, PutAt, Core, Valid, SearchPos, Enabled, Apply, TaskRuns, Legal, Exec, IsReady, Queued;
    RunsReady(z);
    QueuedCore(z, m);
    MayDelay(z, n);
    QueuedBlocks(z, m, n);
    var q := Queued(Halted(z), m);
    SameReady(z, q);
    BlockShape(q, n, true);
    var b := BlockCurrent(q, n, true).(blocking := true);
    SameEvents(q, b);
    BlockRun(z, WaitOrdered(m, n), b);
    SameReady(BlockCurrent(q, n, true), Left(b));
    QueuedJoins(z, m, Left(b));
  }

  lemma RunsReady(z: Sched)
    requires TaskRuns(z)
    ensures IsReady(z, z.current) && !z.blocking
  {
  }

  lemma SameReady(z: Sched, q: Sched)
    requires q.state == z.state
    ensures forall x :: IsReady(q, x) == IsReady(z, x)
  {
  }

  lemma SameEvents(q: Sched, b: Sched)
    requires b.event == q.event
    ensures InEvent(b, PendingReady) == InEvent(q, PendingReady)
  {
  }

  lemma QueuedJoins(z: Sched, m: nat, z': Sched)
    requires z'.event == Queued(Halted(z), m).event && z.current in z.tcbs && z.current in z'.tcbs
    requires z' == z.(state := z'.state, event := z'.event, top := z'.top, next := z'.next, tcbs := z'.tcbs, owed := true)
    requires z'.tcbs == z.tcbs[z.current := z'.tcbs[z.current]]
    requires z'.tcbs[z.current] == z.tcbs[z.current].(wake := z'.tcbs[z.current].wake, due := z'.tcbs[z.current].due)
    requires forall x :: IsReady(z', x) <==> IsReady(z, x) && x != z.current
    ensures Joins(z, z', m, SearchPos(EventKeys(z.tcbs, InEvent(z, WaitList(m))), T(z, z.current).eventValue))
  {
    hide PutAt, SearchPos, IsReady;
  }

  lemma InheritFlags(z: Sched, h: Task)
    ensures var z' := Inherit(z, h);
      && z'.owed == z.owed && z'.yieldPending == z.yieldPending && z'.suspended == z.suspended && z'.blocking == z.blocking
      && z'.current == z.current && z'.idle == z.idle && z'.event == z.event
  {
    hide Unready, AddReady;
    var tcb, p := T(z, h), Prio(z, z.current);
    var raised := tcb.(prio := p, eventValue := EventValueFor(z, tcb.eventValue, p));
    UnreadyShape(z, h, tcb.prio);
    AddFlags(SetTcb(Unready(z, h, tcb.prio), h, raised), h);
  }

  lemma AddFlags(z: Sched, h: Task)
    ensures var z' := AddReady(z, h); z' == z.(state := z'.state, top := z'.top)
  {
    hide PutEnd;
  }

  /** Nobody who holds a mutex waits for one. */
  lemma HolderElsewhere(z: Sched, s: M.Sys, m: nat)
    requires Matches(z, s) && M.Inv(s) && M.Enabled(s, M.Wait) && !M.Nests(s, M.Wait) && m == M.Me(s).phase.m
    ensures var h := M.Owner(s, m).task;
      && h != s.current && h in z.tcbs && h !in M.W(s, m) && (forall t <- M.W(s, m) :: t in z.tcbs)
      && InEvent(z, WaitList(m)) == M.W(s, m) && z.current !in z.event.at
  {
    var h := M.Owner(s, m).task;
    MK.OwnerHolds(s, m);
    assert M.Ordered(s, m) && SameTask(z, s, h) && SameList(z, s, m) && SameWait(z, s, s.current);
    forall t | t in M.W(s, m) ensures t in z.tcbs && t != h {
      assert M.InPhase(s, t) && SameTask(z, s, t);
    }
    hide Inv;
  }

  lemma KeyedHolder(z: Sched, s: M.Sys, h: Task)
    requires Agree(z, s) && h in z.tcbs
    ensures Keyed(z, h) && SameTask(z, s, h) && SameTask(z, s, z.current) && z.current == s.current
  {
  }

  lemma Raises(z: Sched, s: M.Sys, h: Task)
    requires Matches(z, s) && h in z.tcbs && M.Runs(s)
    ensures var z1 := Inherit(z, h);
      && Enabled(z, InheritPriority(h)) && Inv(z1) && Agree(z1, M.Put(s, h, M.Raised(M.R(s, h), M.Me(s).prio)))
      && TaskRuns(z1) && z1.current in z1.tcbs && Quiet(z1) && z1.current == s.current
      && forall t :: t in z1.tcbs <==> t in z.tcbs
  {
    hide Inv, Agree, Inherit, SameTask, Keyed, M.Runs;
    KeyedHolder(z, s, h);
    Running(z, s);
    StepKept(z, InheritPriority(h));
    InheritReprices(z, h);
    SameRec(z, s, h);
    SameRec(z, s, z.current);
    InheritFlags(z, h);
    var r := M.Raised(M.R(s, h), M.Me(s).prio);
    RepricedAgrees(z, Inherit(z, h), s, h, r.prio, r.held);
  }

  function WaitSteps(m: nat, n: Machine.Tick): seq<Step> { [SuspendScheduler, WaitOrdered(m, n), ResumeScheduler, Yield] }

  function Where(s: M.Sys, m: nat): nat { SearchPos(M.Keys(s, M.W(s, m)), 0 - M.Me(s).prio) }

  lemma WaitRun(z: Sched, s: M.Sys, n: Machine.Tick, m: nat, h: Task)
    requires Matches(z, s) && M.Inv(s) && M.Enabled(s, M.Wait) && !M.Nests(s, M.Wait) && n >= 1 && z.current != z.idle
    requires M.Me(s).phase.m == m && M.Owner(s, m).task == h
    ensures var z1, steps := Inherit(z, h), [InheritPriority(h)] + WaitSteps(m, n);
      && Legal(z, steps) && Exec(z, steps) == Exec(z1, WaitSteps(m, n)) && Inv(Exec(z, steps)) && !Exec(z, steps).blocking
      && Inv(z1) && Agree(z1, M.Put(s, h, M.Raised(M.R(s, h), M.Me(s).prio))) && h != s.current
      && Joins(z1, Exec(z, steps), m, Where(s, m)) && z1.suspended == 0 && Quiet(z1)
  {
    hide Inv, M.Inv, Agree, Inherit, Enabled, Legal, Exec, SearchPos, TaskRuns, Joins, EventKeys, Prio;
    HolderElsewhere(z, s, m);
    Raises(z, s, h);
    InheritFlags(z, h);
    var z1 := Inherit(z, h);
    WaitBlocks(z1, m, n);
    SameWaiters(z, z1, m);
    SamePlace(z1, s, m, h);
    Then(z, InheritPriority(h), WaitSteps(m, n));
  }

  lemma SameWaiters(z: Sched, z1: Sched, m: nat)
    requires z1.event == z.event
    ensures InEvent(z1, WaitList(m)) == InEvent(z, WaitList(m))
  {
  }

  /** Raising the holder makes no difference to suspending the scheduler, so it may come after. */
  lemma HaltFirst(z: Sched, h: Task, rest: seq<Step>)
    requires Legal(z, [InheritPriority(h), SuspendScheduler] + rest) && z.suspended == 0
    ensures var steps := [SuspendScheduler, InheritPriority(h)] + rest;
      Legal(z, steps) && Exec(z, steps) == Exec(z, [InheritPriority(h), SuspendScheduler] + rest)
  {
    hide Apply, Enabled, StaleBit;
    var inherit, halt := InheritPriority(h), SuspendScheduler;
    var first, second := [inherit, halt] + rest, [halt, inherit] + rest;
    assert first[1..] == [halt] + rest && first[1..][1..] == rest;
    assert second[1..] == [inherit] + rest && second[1..][1..] == rest;
    assert Enabled(z, inherit);
    HaltedInherits(z, h);
    NeitherStale(z, h);
    NeitherStale(Halted(z), h);
  }

  lemma HaltedInherits(z: Sched, h: Task)
    requires Enabled(z, InheritPriority(h)) && z.suspended == 0
    ensures Enabled(z, SuspendScheduler) && Enabled(Apply(z, SuspendScheduler), InheritPriority(h))
    ensures Apply(z, SuspendScheduler) == Halted(z)
    ensures Apply(Apply(z, SuspendScheduler), InheritPriority(h)) == Apply(Apply(z, InheritPriority(h)), SuspendScheduler)
  {
    hide Inherit;
    InheritFlags(z, h);
    InheritCounting(z, h, 1, z.pended, z.delivered);
    InheritCounting(z, h, z.suspended, z.pended, z.delivered);
  }

  /** The same state with other counts of suspensions and ticks. */
  function Counting(z: Sched, suspended: nat, pended: nat, delivered: nat): Sched {
    z.(suspended := suspended, pended := pended, delivered := delivered)
  }

  lemma InheritCounting(z: Sched, h: Task, n: nat, p: nat, d: nat)
    ensures Inherit(Counting(z, n, p, d), h) == Counting(Inherit(z, h), n, p, d)
  {
    hide Unready, AddReady, SetTcb;
    var tcb, prio := T(z, h), Prio(z, z.current);
    var raised := tcb.(prio := prio, eventValue := EventValueFor(z, tcb.eventValue, prio));
    UnreadyCounting(z, h, tcb.prio, n, p, d);
    RaisedCounting(z, h, raised, n, p, d);
    RaisedCounting(Unready(z, h, tcb.prio), h, raised, n, p, d);
  }

  lemma RaisedCounting(u: Sched, h: Task, tcb: Tcb, n: nat, p: nat, d: nat)
    ensures SetTcb(Counting(u, n, p, d), h, tcb) == Counting(SetTcb(u, h, tcb), n, p, d)
    ensures AddReady(SetTcb(Counting(u, n, p, d), h, tcb), h) == Counting(AddReady(SetTcb(u, h, tcb), h), n, p, d)
  {
    hide PutEnd;
  }

  lemma EmptiedCounting(z: Sched, h: Task, n: nat, p: nat, d: nat)
    ensures Emptied(Counting(z, n, p, d), h) == Emptied(z, h)
  {
    hide Take;
  }

  lemma UnreadyCounting(z: Sched, h: Task, prio: nat, n: nat, p: nat, d: nat)
    ensures Unready(Counting(z, n, p, d), h, prio) == Counting(Unready(z, h, prio), n, p, d)
    ensures UnreadyDirect(Counting(z, n, p, d), h, prio) == Counting(UnreadyDirect(z, h, prio), n, p, d)
  {
    hide Take, Emptied;
    EmptiedCounting(z, h, n, p, d);
  }

  lemma NeitherStale(z: Sched, h: Task)
    ensures !StaleBit(z, InheritPriority(h)) && !StaleBit(z, SuspendScheduler)
  {
  }

  lemma WaitCall(z: Sched, s: M.Sys, n: Machine.Tick, m: nat, h: Task)
    requires Matches(z, s) && M.Inv(s) && M.Enabled(s, M.Wait) && !M.Nests(s, M.Wait) && n >= 1 && z.current != z.idle
    requires M.Me(s).phase.m == m && M.Owner(s, m).task == h
    ensures var steps := [SuspendScheduler, InheritPriority(h), WaitOrdered(m, n), ResumeScheduler, Yield];
      Legal(z, steps) && Matches(Exec(z, steps), M.Apply(s, M.Wait))
  {
    hide Inv, M.Inv, Agree, Inherit, Legal, Exec, Joins;
    WaitRun(z, s, n, m, h);
    var rest := [WaitOrdered(m, n), ResumeScheduler, Yield];
    assert [InheritPriority(h)] + WaitSteps(m, n) == [InheritPriority(h), SuspendScheduler] + rest;
    HaltFirst(z, h, rest);
    assert [SuspendScheduler, InheritPriority(h)] + rest
        == [SuspendScheduler, InheritPriority(h), WaitOrdered(m, n), ResumeScheduler, Yield];
    var z1, z' := Inherit(z, h), Exec(z, [InheritPriority(h)] + WaitSteps(m, n));
    hide Where, WaitSteps;
    WaitJoins(z1, z', s, M.Put(s, h, M.Raised(M.R(s, h), M.Me(s).prio)), m, h);
    JoinsOwed(z1, z', m, Where(s, m));
  }

  lemma WaitJoins(z1: Sched, z': Sched, s: M.Sys, s1: M.Sys, m: nat, h: Task)
    requires Agree(z1, s1) && s1 == M.Put(s, h, M.Raised(M.R(s, h), M.Me(s).prio)) && h != s.current && Inv(z1)
    requires M.Enabled(s, M.Wait) && M.Me(s).phase.m == m && M.Owner(s, m).task == h
    requires Joins(z1, z', m, Where(s, m))
    ensures Agree(z', M.Apply(s, M.Wait)) && z'.owed && M.Apply(s, M.Wait).owed
  {
    var k := Where(s, m);
    var inherited := M.Inherits(M.R(s, h), M.Me(s).prio);
    EventsValid(z1);
    hide Inv, Agree, Joins, Valid;
    JoinsAgrees(z1, z', s1, m, k, inherited);
    assert Joining(s1, m, k, inherited) == M.Apply(s, M.Wait);
    JoinsOwed(z1, z', m, k);
  }

  lemma EventsValid(z: Sched)
    requires Inv(z)
    ensures Valid(z.event)
  {
  }

  lemma JoinsOwed(z: Sched, z': Sched, m: nat, k: nat)
    requires Joins(z, z', m, k)
    ensures z'.owed && z'.yieldPending == z.yieldPending && z'.suspended == z.suspended
  {
  }

  lemma Then(z: Sched, first: Step, rest: seq<Step>)
    requires Enabled(z, first) && !StaleBit(z, first) && Legal(Apply(z, first), rest)
    ensures Legal(z, [first] + rest) && Exec(z, [first] + rest) == Exec(Apply(z, first), rest)
  {
    hide Enabled, StaleBit, Apply;
    assert ([first] + rest)[1..] == rest;
  }

  // ---- The tick, as steps of the protocol ----

  lemma {:induction false} RouseOwed(z: Sched, s: M.Sys, owed: bool, fuel: nat)
    ensures Rouse(z, s.(owed := owed), fuel) == Rouse(z, s, fuel).(owed := owed) && Rouse(z, s, fuel).owed == s.owed
    decreases fuel
  {
    var l := InState(z, CurrentList(z));
    if l != [] && z.tick >= Wake(z.tcbs, l[0]) && fuel > 0 {
      WokeOwed(s, l[0], owed);
      hide Woke, TimeOut;
      RouseOwed(TimeOut(z, l[0]), Woke(s, l[0]), owed, fuel - 1);
    }
  }

  lemma WokeOwed(s: M.Sys, t: Task, owed: bool)
    ensures Woke(s.(owed := owed), t) == Woke(s, t).(owed := owed) && Woke(s, t).owed == s.owed
  {
    hide Without;
  }

  /** The step of the protocol by which t is woken. */
  function WakeStep(s: M.Sys, t: Task): M.Step { if M.R(s, t).phase.Waiting? then M.TimeOut(t) else M.Wake(t) }

  lemma WakeStepIs(z: Sched, s: M.Sys, t: Task)
    requires SameTask(z, s, t) && t in z.tcbs && !IsReady(z, t) && M.InPhase(s, t)
    ensures M.Enabled(s, WakeStep(s, t)) && !M.Strands(s, WakeStep(s, t)) && !M.Nests(s, WakeStep(s, t))
    ensures var s' := M.Apply(s, WakeStep(s, t));
      s' == Woke(s, t).(owed := s'.owed) && (s'.owed ==> s.owed || M.Prio(s, t) >= M.Prio(s, s.current))
  {
    hide Without;
  }

  lemma {:induction false} RouseRun(z: Sched, s: M.Sys, switch: bool, fuel: nat) returns (steps: seq<M.Step>)
    requires Core(z, {}, Now(z)) && Agree(z, s) && M.Inv(s)
    ensures MR.Legal(s, steps) && MR.Careful(s, steps)
    ensures var e := MR.Exec(s, steps);
      e == Rouse(z, s, fuel).(owed := e.owed) && (e.owed ==> s.owed || Unblock(z, switch, fuel).switch)
    decreases fuel
  {
    hide Core, Agree, TimeOut, Woke, M.Inv, M.Apply, M.Enabled, M.Strands, M.Nests, WakeStep;
    var l := InState(z, CurrentList(z));
    steps := [];
    if l != [] && z.tick >= Wake(z.tcbs, l[0]) && fuel > 0 {
      var t := l[0];
      var step := WakeStep(s, t);
      HeadOfDelayed(z, Now(z));
      CoreValid(z);
      HeadStep(z, s, t);
      var s1 := M.Apply(s, step);
      MK.StepKept(s, step);
      WokenAgrees(z, s, t);
      WokenShape(z, t);
      hide Valid, Take;
      OwedAgrees(TimeOut(z, t), TimeOut(z, t), Woke(s, t), s1);
      TimeOutCore(z, t, Now(z));
      TimeOutClock(z, t);
      var rest := RouseRun(TimeOut(z, t), s1, switch || Prio(z, t) >= Prio(z, z.current), fuel - 1);
      RouseOwed(TimeOut(z, t), Woke(s, t), s1.owed, fuel - 1);
      RouseOwed(TimeOut(z, t), s1, false, fuel - 1);
      steps := [step] + rest;
      assert steps[1..] == rest;
      if s1.owed && !s.owed { SwitchStays(TimeOut(z, t), switch || Prio(z, t) >= Prio(z, z.current), fuel - 1); }
    }
  }

  lemma HeadStep(z: Sched, s: M.Sys, t: Task)
    requires Agree(z, s) && M.Inv(s) && t in z.tcbs && InList(z, t, CurrentList(z))
    ensures M.Enabled(s, WakeStep(s, t)) && !M.Strands(s, WakeStep(s, t)) && !M.Nests(s, WakeStep(s, t))
    ensures var s' := M.Apply(s, WakeStep(s, t));
      s' == Woke(s, t).(owed := s'.owed) && (s'.owed ==> s.owed || Prio(z, t) >= Prio(z, z.current))
  {
    assert SameTask(z, s, t) && M.InPhase(s, t) && SameTask(z, s, z.current);
    hide Agree, M.Inv, SameTask, M.InPhase, Woke, WakeStep;
    WakeStepIs(z, s, t);
    SameRec(z, s, t);
    SameRec(z, s, z.current);
  }

  lemma {:induction false} SwitchStays(z: Sched, switch: bool, fuel: nat)
    ensures switch ==> Unblock(z, switch, fuel).switch
    decreases fuel
  {
    var l := InState(z, CurrentList(z));
    if l != [] && z.tick >= Wake(z.tcbs, l[0]) && fuel > 0 {
      SwitchStays(TimeOut(z, l[0]), switch || Prio(z, l[0]) >= Prio(z, z.current), fuel - 1);
    }
  }

  /** The whole tick: the tasks it wakes one after another, and a request for a switch if it makes one. */
  lemma TickRun(z: Sched, s: M.Sys) returns (steps: seq<M.Step>)
    requires Matches(z, s) && M.Inv(s)
    ensures MR.Legal(s, steps) && MR.Careful(s, steps) && MR.Exec(s, steps) == AfterTick(z, s)
  {
    var z1 := Advanced(z);
    AdvancedCore(z);
    AdvancedIs(z);
    hide Inv, Core, Agree, Advanced, Rouse, M.Inv, Unblock;
    NextAgrees(z, z1, s);
    var n := |InState(z1, CurrentList(z1))|;
    steps := [];
    if z1.tick >= z1.next {
      steps := RouseRun(z1, s, false, n);
      RouseOwed(z1, s, false, n);
      UnblockFlags(z1, false, n);
    }
    var e, owed := MR.Exec(s, steps), Apply(z, Tick).owed;
    if e.owed != owed {
      ShareLast(s, steps);
      steps := steps + [M.Share];
    }
  }

  lemma ShareLast(s: M.Sys, steps: seq<M.Step>)
    requires MR.Legal(s, steps) && MR.Careful(s, steps)
    ensures MR.Legal(s, steps + [M.Share]) && MR.Careful(s, steps + [M.Share])
    ensures MR.Exec(s, steps + [M.Share]) == MR.Exec(s, steps).(owed := true)
  {
    hide MR.Legal, MR.Exec, MR.NoneStrands, MR.NoneNests;
    MR.OneMore(s, steps, M.Share);
  }

  lemma TickProtocol(z: Sched, s: M.Sys)
    requires Matches(z, s) && M.Inv(s) && MB.AllExplained(s)
    ensures M.Inv(AfterTick(z, s)) && MB.AllExplained(AfterTick(z, s))
  {
    hide Matches, M.Inv, MB.AllExplained, AfterTick;
    var steps := TickRun(z, s);
    MB.RunExplained(s, steps);
  }
}
