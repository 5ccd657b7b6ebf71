/** The mutex protocol runs on the scheduler: from its start on, in every run of such calls, wherever ticks fall
    between them or inside them, every scheduler step is legal, and the invariants of both hold. */
module MutexSimulation {
  import opened Machine
  import opened ItemStore
  import opened Scheduler
  import opened SchedulerLists
  import opened SchedulerTick
  import opened SchedulerResume
  import opened SchedulerSteps
  import opened SchedulerSwitch
  import opened SchedulerRuns
  import M = Mutex
  import MK = MutexKept
  import MR = MutexRuns
  import MB = MutexBitmap
  import opened MutexCalls
  import opened MutexTicks
  import opened SchedulerStart

  // ---- Both together ----

  /** A call, and the ticks that fall inside it: so many after each of its scheduler steps but the last. */
  datatype Timed = Timed(call: Call, falls: seq<nat>)

  /** The scheduler's steps. The last of a wait and of a sleep is the yield of the call; it stands for the one
      xTaskResumeAll makes itself where a replayed tick has asked for it. */
  function TimedSteps(z: Sched, s: M.Sys, c: Timed): seq<Step> { Woven(Steps(z, s, c.call), c.falls) }

  /** The protocol's state after k ticks. */
  function AfterTicks(z: Sched, s: M.Sys, k: nat): M.Sys
    decreases k
  {
    if k == 0 then s else AfterTicks(Apply(z, Tick), AfterTick(z, s), k - 1)
  }

  /** And after a call in which none falls. */
  function Next(z: Sched, s: M.Sys, c: Call): M.Sys
    requires CallOk(z, s, c)
  {
    if c.Ticks? then AfterTick(z, s) else M.Apply(s, Protocol(z, c))
  }

  function TimedNext(z: Sched, s: M.Sys, c: Timed): M.Sys
    requires CallOk(z, s, c.call)
  {
    AfterTicks(Exec(z, Steps(z, s, c.call)), Next(z, s, c.call), Fallen(Steps(z, s, c.call), c.falls))
  }

  ghost predicate Sound(z: Sched, s: M.Sys) { Matches(z, s) && M.Inv(s) && MB.AllExplained(s) }

  /** The call is a give that strands a task, or a wait of a task that holds a mutex. */
  ghost predicate Breaks(s: M.Sys, c: Call) {
    (c.Give? && M.Strands(s, M.Give(c.m))) || (c.Wait? && M.Nests(s, M.Wait))
  }

  lemma ProtocolKept(z: Sched, s: M.Sys, c: Call)
    requires Sound(z, s) && CallOk(z, s, c) && !Breaks(s, c)
    ensures M.Inv(Next(z, s, c)) && MB.AllExplained(Next(z, s, c))
  {
    if c.Ticks? {
      TickProtocol(z, s);
    } else {
      hide M.Inv, MB.AllExplained, Matches, M.Apply;
      OnlyGive(s, Protocol(z, c));
      MK.StepKept(s, Protocol(z, c));
      MB.StepExplained(s, Protocol(z, c));
    }
  }

  lemma {:induction false} TicksSound(z: Sched, s: M.Sys, k: nat)
    requires Sound(z, s)
    ensures Sound(TickMany(z, k), AfterTicks(z, s, k))
    decreases k
  {
    hide M.Inv, MB.AllExplained, Matches, Apply, AfterTick;
    if k > 0 {
      TickProtocol(z, s);
      TickCall(z, s);
      TicksSound(Apply(z, Tick), AfterTick(z, s), k - 1);
    }
  }

  /** Each call, whatever ticks fall inside it, is a legal sequence of scheduler steps, and scheduler and
      protocol agree again after it. */
  lemma CallKept(z: Sched, s: M.Sys, c: Timed)
    requires Sound(z, s) && CallOk(z, s, c.call) && !Breaks(s, c.call)
    ensures Legal(z, TimedSteps(z, s, c)) && Sound(Exec(z, TimedSteps(z, s, c)), TimedNext(z, s, c))
  {
    hide M.Inv, MB.AllExplained, Matches, Legal, Exec, M.Apply, Enabled, M.Enabled, StaleBit, Apply, Next, CallOk, AfterTicks;
    ProtocolKept(z, s, c.call);
    CallMatches(z, s, c.call);
    var steps := Steps(z, s, c.call);
    if |steps| <= 1 {
      NoneFall(z, steps, c.falls, Next(z, s, c.call));
    } else {
      if c.call.Retry? || c.call.Expire? {
        Glances(z, s, c.call);
        GlanceLate(z, c.falls);
      } else {
        Blocks(z, s, c.call);
        CallLate(z, steps, c.falls);
      }
      var e, s', k := Exec(z, steps), Next(z, s, c.call), Fallen(steps, c.falls);
      TicksSound(e, s', k);
      NotedYield(TickMany(e, k), Exec(z, TimedSteps(z, s, c)), AfterTicks(e, s', k));
    }
  }

  lemma NoneFall(z: Sched, steps: seq<Step>, falls: seq<nat>, s: M.Sys)
    requires |steps| <= 1
    ensures Woven(steps, falls) == steps && AfterTicks(z, s, Fallen(steps, falls)) == s
    ensures forall x :: AfterTicks(x, s, Fallen(steps, falls)) == s
  {
  }

  lemma Glances(z: Sched, s: M.Sys, c: Call)
    requires Matches(z, s) && CallOk(z, s, c) && (c.Retry? || c.Expire?)
    ensures Calm(z) && z.suspended == 0 && TaskRuns(z) && Steps(z, s, c) == GLANCE
  {
    hide Inv, Agree;
    Running(z, s);
    NonePended(z);
  }

  /** The other calls with more than one step are those that block. */
  lemma Blocks(z: Sched, s: M.Sys, c: Call)
    requires Matches(z, s) && CallOk(z, s, c) && |Steps(z, s, c)| > 1 && !c.Retry? && !c.Expire?
    ensures Calm(z) && z.suspended == 0
    ensures var steps := Steps(z, s, c); |steps| > 2 && steps[0] == SuspendScheduler && Inside(steps[1..])
  {
    hide Inv, Agree;
    Running(z, s);
    NonePended(z);
    var steps := Steps(z, s, c);
    if c.Wait? {
      var q, n := M.Me(s).phase.m, c.n;
      InsideWait(M.Owner(s, q).task, q, n);
      assert steps[1..] == [InheritPriority(M.Owner(s, q).task), WaitOrdered(q, n), ResumeScheduler, Yield];
    } else {
      InsideSleep(c.n);
      assert steps[1..] == [Delay(c.n), ResumeScheduler, Yield];
    }
  }

  lemma InsideWait(h: Task, q: nat, n: Machine.Tick)
    ensures Inside([InheritPriority(h), WaitOrdered(q, n), ResumeScheduler, Yield])
  {
    assert [InheritPriority(h), WaitOrdered(q, n), ResumeScheduler, Yield][1..] == [WaitOrdered(q, n), ResumeScheduler, Yield];
    assert [WaitOrdered(q, n), ResumeScheduler, Yield][1..] == [ResumeScheduler, Yield];
  }

  lemma InsideSleep(n: Machine.Tick)
    ensures Inside([Delay(n), ResumeScheduler, Yield])
  {
    assert [Delay(n), ResumeScheduler, Yield][1..] == [ResumeScheduler, Yield];
  }

  /** A yield noted makes no difference, since a switch is pending. */
  lemma NotedYield(e: Sched, e': Sched, s: M.Sys)
    requires Sound(e, s) && e' == e.(yieldPending := e'.yieldPending) && (e'.yieldPending ==> e.owed)
    ensures Sound(e', s)
  {
    hide M.Inv, MB.AllExplained;
    NotedInv(e, e');
    hide Inv;
    forall t ensures SameTask(e', s, t) && SameWait(e', s, t) && Keyed(e', t) {
      assert SameTask(e, s, t) && SameWait(e, s, t) && Keyed(e, t);
    }
    forall m ensures SameList(e', s, m) { assert SameList(e, s, m); }
  }

  lemma NotedInv(e: Sched, e': Sched)
    requires Inv(e) && e' == e.(yieldPending := e'.yieldPending)
    ensures Inv(e')
  {
    hide Core;
    SameListsCore(e, e', {}, Now(e) + 1);
    assert forall t :: Pending(e', t) == Pending(e, t);
  }

  lemma OnlyGive(s: M.Sys, step: M.Step)
    ensures (M.Strands(s, step) ==> step.Give?) && (M.Nests(s, step) ==> step.Wait?)
  {
  }

  lemma NoStep(z: Sched)
    ensures Legal(z, []) && Exec(z, []) == z
  {
  }

  lemma CallMatches(z: Sched, s: M.Sys, c: Call)
    requires Sound(z, s) && CallOk(z, s, c) && !Breaks(s, c)
    ensures Legal(z, Steps(z, s, c)) && Matches(Exec(z, Steps(z, s, c)), Next(z, s, c))
  {
    hide M.Inv, MB.AllExplained, Matches, Legal, Exec, M.Apply, Enabled, StaleBit, Apply, AfterTick;
    NoStep(z);
    match c {
      case Grab => GrabCall(z, s); NeverStale(z, TakeMutex); One(z, TakeMutex);
      case Wait(n) =>
        var m := M.Me(s).phase.m;
        WaitCall(z, s, n, m, M.Owner(s, m).task);
      case Undo => UndoMatches(z, s);
      case Give(m) => GiveCall(z, s, m); NeverStale(z, Step.GiveMutex(m)); One(z, Step.GiveMutex(m));
      case Sleep(n) => SleepCall(z, s, n);
      case Share => ShareCall(z, s); NeverStale(z, Yield); One(z, Yield);
      case Preempt => SwitchOwed(z, s); PreemptCall(z, s); NeverStale(z, PendSv); One(z, PendSv);
      case Ticks => TickCall(z, s); TickLegal(z);
      case Retry => QuietCall(z, s, c); Glances(z, s, c); GlanceLate(z, []);
      case Expire(_) => QuietCall(z, s, c); Glances(z, s, c); GlanceLate(z, []);
      case _ => QuietCall(z, s, c);
    }
  }

  lemma SwitchOwed(z: Sched, s: M.Sys)
    requires Matches(z, s)
    ensures z.owed == s.owed
  {
  }

  lemma TickLegal(z: Sched)
    ensures Legal(z, [Tick]) && Exec(z, [Tick]) == Apply(z, Tick)
  {
    assert [Tick][1..] == [];
    hide Apply;
  }

  lemma UndoMatches(z: Sched, s: M.Sys)
    requires Sound(z, s) && M.Enabled(s, M.Undo)
    ensures Legal(z, Steps(z, s, Undo)) && Matches(Exec(z, Steps(z, s, Undo)), M.Apply(s, M.Undo))
  {
    hide M.Inv, MB.AllExplained, Matches, Legal, Exec, M.Apply, Enabled, StaleBit, Apply;
    if M.Owner(s, M.Me(s).phase.m).Held? {
      UndoCall(z, s);
      One(z, MutexTimeout(M.Owner(s, M.Me(s).phase.m).task, M.HighestWaiting(s, M.Me(s).phase.m)));
    } else {
      NoStep(z);
      UndoFree(z, s);
    }
  }

  lemma UndoFree(z: Sched, s: M.Sys)
    requires Matches(z, s) && M.Enabled(s, M.Undo) && !M.Owner(s, M.Me(s).phase.m).Held?
    ensures Matches(z, M.Apply(s, M.Undo))
  {
    hide Inv, Agree;
    PhaseAgrees(z, s, s.current, M.Out);
  }

  // ---- Runs ----

  predicate Runs(z: Sched, s: M.Sys, calls: seq<Timed>)
    decreases |calls|
  {
    calls == [] || (CallOk(z, s, calls[0].call)
      && Runs(Exec(z, TimedSteps(z, s, calls[0])), TimedNext(z, s, calls[0]), calls[1..]))
  }

  ghost predicate Careful(z: Sched, s: M.Sys, calls: seq<Timed>)
    requires Runs(z, s, calls)
    decreases |calls|
  {
    calls == [] || (!Breaks(s, calls[0].call)
      && Careful(Exec(z, TimedSteps(z, s, calls[0])), TimedNext(z, s, calls[0]), calls[1..]))
  }

  /** All scheduler steps of a run. */
  function AllSteps(z: Sched, s: M.Sys, calls: seq<Timed>): seq<Step>
    requires Runs(z, s, calls)
    decreases |calls|
  {
    if calls == [] then [] else
    var steps := TimedSteps(z, s, calls[0]);
    steps + AllSteps(Exec(z, steps), TimedNext(z, s, calls[0]), calls[1..])
  }

  function Last(z: Sched, s: M.Sys, calls: seq<Timed>): M.Sys
    requires Runs(z, s, calls)
    decreases |calls|
  {
    if calls == [] then s else Last(Exec(z, TimedSteps(z, s, calls[0])), TimedNext(z, s, calls[0]), calls[1..])
  }

  lemma {:induction false} RunSound(z: Sched, s: M.Sys, calls: seq<Timed>)
    requires Sound(z, s) && Runs(z, s, calls) && Careful(z, s, calls)
    ensures Legal(z, AllSteps(z, s, calls)) && Sound(Exec(z, AllSteps(z, s, calls)), Last(z, s, calls))
    decreases |calls|
  {
    hide Sound, CallOk, TimedSteps, TimedNext, Breaks, Legal, Exec;
    if calls == [] {
      NoStep(z);
    } else {
      var c := calls[0];
      CallKept(z, s, c);
      var z', s' := Exec(z, TimedSteps(z, s, c)), TimedNext(z, s, c);
      RunSound(z', s', calls[1..]);
      LegalBoth(z, TimedSteps(z, s, c), AllSteps(z', s', calls[1..]));
    }
  }

  // ---- The start ----

  /** The protocol's view of the tasks that have been created, before any of these mutexes is used. */
  function First(z: Sched, mutexes: set<nat>): M.Sys {
    M.Sys(map t | t in z.tcbs :: M.Rec(z.tcbs[t].base, z.tcbs[t].prio, 0, true, M.Out), map m | m in mutexes :: M.Free,
          map m | m in mutexes :: [], z.current, false)
  }

  lemma FirstSound(z: Sched, mutexes: set<nat>)
    requires Starting(z) && Inv(z) && Quiet(z) && !z.blocking && z.suspended == 0
    ensures Sound(z, First(z, mutexes))
  {
    var s := First(z, mutexes);
    assert z.current in z.tcbs;
    forall t ensures SameTask(z, s, t) && SameWait(z, s, t) && Keyed(z, t) {
      if IsReady(z, t) { ReadyKnown(z, t); }
    }
    assert Valid(z.event);
    forall m ensures SameList(z, s, m) {
      if InEvent(z, WaitList(m)) != [] { InItsList(z, WaitList(m), InEvent(z, WaitList(m))[0]); }
    }
    assert MR.Fresh(s) by {
      assert M.Highest(s, s.current);
    }
    MR.FreshInv(s);
    MB.FreshExplained(s);
  }

  /** From the start of the scheduler, with any tasks and mutexes: in every run of such calls in which no give
      strands a task, every scheduler step is legal, the time-outs among them, the scheduler's invariant holds
      at the end, and the protocol's, of the same tasks. */
  lemma ProtocolOnScheduler(levels: nat, idle: Task, tasks: seq<New>, mutexes: set<nat>, calls: seq<Timed>)
    requires 1 <= levels <= 32 && Differ(tasks + [New(idle, 0)]) && forall x <- tasks :: x.p < levels
    requires var z := CreateAll(Blank(levels, idle), tasks + [New(idle, 0)]);
      Runs(z, First(z, mutexes), calls) && Careful(z, First(z, mutexes), calls)
    ensures var z := CreateAll(Blank(levels, idle), tasks + [New(idle, 0)]);
      var steps, s' := AllSteps(z, First(z, mutexes), calls), Last(z, First(z, mutexes), calls);
      Legal(z, steps) && Inv(Exec(z, steps)) && M.Inv(s') && Agree(Exec(z, steps), s')
  {
    StartInv(levels, idle, tasks);
    var z := CreateAll(Blank(levels, idle), tasks + [New(idle, 0)]);
    hide Inv, M.Inv, Starting, CreateAll, Runs, Careful, Legal, Exec, Agree;
    FirstSound(z, mutexes);
    RunSound(z, First(z, mutexes), calls);
  }
}
