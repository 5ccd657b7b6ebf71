/** Runs of the scheduler from its start that end where its theorems make an exception: task 1 holds a mutex,
    task 2 waits for it with a time-out of one tick, and somebody changes a priority meanwhile. A scene is
    what shows of a state: the tasks there are, their control blocks, the lists that matter, the bitmap and
    the flags. Each step of a run is proved to lead from one scene to the next, and the last scene to be one
    in which the time-out, or the give, does what it should not. */
module SchedulerScenes {
  import opened Machine
  import opened ListModel
  import opened ItemStore
  import opened Scheduler
  import opened SchedulerSteps
  import opened SchedulerRuns

  /** What shows of a state with the idle task 0 and the tasks 1 and 2: their lists and control blocks, the
      ready lists 1 to 3, the delayed list and the list of the tasks waiting for the mutex. */
  datatype Scene = Scene(
    known: set<Task>, l1: ListId, l2: ListId, t1: Tcb, t2: Tcb,
    r1: Rota<Task>, r2: Rota<Task>, r3: Rota<Task>, delayed: seq<Task>, waits: seq<Task>,
    top: set<nat>, current: Task, tick: Tick, next: Tick, suspended: nat, owed: bool, blocking: bool)

  predicate Flags(s: Sched, c: Scene) {
    && s.levels == 4 && s.idle == 0 && s.top == c.top && s.current == c.current && !s.swapped && s.tick == c.tick
    && s.next == c.next && s.suspended == c.suspended && s.pended == 0 && !s.yieldPending && s.owed == c.owed
    && s.blocking == c.blocking && s.epoch == 0
  }

  predicate Blocks(s: Sched, c: Scene) {
    && s.tcbs.Keys == c.known && (1 in c.known ==> s.tcbs[1] == c.t1) && (2 in c.known ==> s.tcbs[2] == c.t2)
    && 0 in c.known && c.known <= {0, 1, 2} && s.tcbs[0] == Tcb(0, 0, 0, 0, 4, 0)
  }

  predicate Places(s: Sched, c: Scene) {
    && s.state.at.Keys == c.known && (1 in c.known ==> s.state.at[1] == c.l1) && (2 in c.known ==> s.state.at[2] == c.l2)
    && 0 in c.known && s.state.at[0] == Ready(0)
    && s.event.at.Keys == (if c.waits == [] then {} else {2}) && (2 in s.event.at ==> s.event.at[2] == WaitList(0))
  }

  predicate Lines(s: Sched, c: Scene) {
    && ListOf(s.state, Ready(1)) == c.r1 && ListOf(s.state, Ready(2)) == c.r2 && ListOf(s.state, Ready(3)) == c.r3
    && InState(s, DelayedA) == c.delayed && InEvent(s, WaitList(0)) == c.waits && InEvent(s, PendingReady) == []
  }

  predicate Shows(s: Sched, c: Scene) { Flags(s, c) && Blocks(s, c) && Places(s, c) && Lines(s, c) }

  const NONE: Tcb := Tcb(0, 0, 0, 0, 0, 0)

  const START: Scene := Scene({0}, Ready(1), Ready(2), NONE, NONE, Rota([], 0), Rota([], 0), Rota([], 0), [], [], {0}, 0, 0, MAX_DELAY, 0,
                              false, false)

  // task 1 is created, runs, and takes the mutex
  const CREATED1: Scene := START.(known := {0, 1}, t1 := Tcb(1, 1, 0, 0, 3, 0), r1 := Rota([1], 0), top := {0, 1},
                                owed := true)
  const RUNS1: Scene := CREATED1.(r1 := Rota([1], 1), current := 1, owed := false)
  const HOLDS: Scene := RUNS1.(t1 := Tcb(1, 1, 1, 0, 3, 0))
  // task 2 is created, runs, passes its priority on, and waits for one tick
  const CREATED2: Scene := HOLDS.(known := {0, 1, 2}, t2 := Tcb(2, 2, 0, 0, 2, 0), r2 := Rota([2], 0), top := {0, 1, 2},
                                  owed := true)
  const RUNS2: Scene := CREATED2.(r2 := Rota([2], 1), current := 2, owed := false)
  const RAISED: Scene := RUNS2.(t1 := Tcb(2, 1, 1, 0, 2, 0), l1 := Ready(2), r1 := Rota([], 0), r2 := Rota([1, 2], 2),
                               top := {0, 2})
  const STOPPED: Scene := RAISED.(suspended := 1)
  const WAITS: Scene := STOPPED.(t2 := Tcb(2, 2, 0, 1, 2, 1), l2 := DelayedA, r2 := Rota([1], 1), delayed := [2], waits := [2],
                                 next := 1, blocking := true)
  const RESUMED: Scene := WAITS.(suspended := 0)
  const YIELDED: Scene := RESUMED.(owed := true, blocking := false)
  const BACK1: Scene := YIELDED.(current := 1, owed := false)

  lemma Starts()
    ensures Shows(Started(4, 0), START)
  {
  }

  lemma Creates1(s: Sched)
    requires Shows(s, START)
    ensures Enabled(s, CreateTask(1, 1)) && Shows(Apply(s, CreateTask(1, 1)), CREATED1)
  {
  }

  lemma Runs1(s: Sched)
    requires Shows(s, CREATED1)
    ensures Enabled(s, PendSv) && Shows(Apply(s, PendSv), RUNS1)
  {
    Highest({0, 1}, 1);
  }

  lemma Highest(top: set<nat>, p: nat)
    requires p in top && p < 4 && forall q <- top :: q <= p
    ensures HighestBelow(top, 4) == p
  {
  }

  lemma Holds(s: Sched)
    requires Shows(s, RUNS1)
    ensures Enabled(s, Step.TakeMutex) && Shows(Apply(s, Step.TakeMutex), HOLDS)
  {
  }

  lemma Creates2(s: Sched)
    requires Shows(s, HOLDS)
    ensures Enabled(s, CreateTask(2, 2)) && Shows(Apply(s, CreateTask(2, 2)), CREATED2)
  {
  }

  lemma Runs2(s: Sched)
    requires Shows(s, CREATED2)
    ensures Enabled(s, PendSv) && Shows(Apply(s, PendSv), RUNS2)
  {
    Highest({0, 1, 2}, 2);
  }

  lemma Raises(s: Sched)
    requires Shows(s, RUNS2)
    ensures Enabled(s, InheritPriority(1)) && Shows(Apply(s, InheritPriority(1)), RAISED)
  {
    var u := Unready(s, 1, 1);
    Leaves1(s);
    InheritIs(s);
    hide Unready, Places, Lines, AddReady, Inherit;
    Joins2(u.(tcbs := u.tcbs[1 := RAISED.t1]));
  }

  lemma InheritIs(s: Sched)
    requires Shows(s, RUNS2)
    ensures Enabled(s, InheritPriority(1)) && Inherit(s, 1) == AddReady(SetTcb(Unready(s, 1, 1), 1, RAISED.t1), 1)
  {
    hide Unready, AddReady, Lines;
  }

  /** Between two lists, task 1 is in none. */
  predicate Between(s: Sched, c: Scene) {
    && Lines(s, c) && s.state.at.Keys == {0, 2} && s.state.at[2] == c.l2 && s.state.at[0] == Ready(0)
    && s.event.at.Keys == (if c.waits == [] then {} else {2}) && (2 in s.event.at ==> s.event.at[2] == WaitList(0))
  }

  lemma Leaves1(s: Sched)
    requires Shows(s, RUNS2)
    ensures var u := Unready(s, 1, 1);
      Between(u, RUNS2.(r1 := Rota([], 0))) && u == s.(state := u.state, top := s.top - {1}) && InList(s, 1, Ready(1))
  {
  }

  lemma Joins2(u: Sched)
    requires Between(u, RUNS2.(r1 := Rota([], 0))) && 1 in u.tcbs && u.tcbs[1] == RAISED.t1
    ensures var j := AddReady(u, 1);
      Places(j, RAISED) && Lines(j, RAISED) && j == u.(state := j.state, top := u.top + {2})
  {
  }

  lemma Stops(s: Sched)
    requires Shows(s, RAISED)
    ensures Enabled(s, SuspendScheduler) && Shows(Apply(s, SuspendScheduler), STOPPED)
  {
  }

  lemma Waits(s: Sched)
    requires Shows(s, STOPPED)
    ensures Enabled(s, WaitOrdered(0, 1)) && Shows(Apply(s, WaitOrdered(0, 1)), WAITS)
  {
    hide BlockCurrent;
    assert InEvent(s, WaitList(0)) == [];
    var e := s.(event := PutAt(s.event, WaitList(0), 0, 2));
    assert Shows(e, STOPPED.(waits := [2]));
    Files(e);
  }

  lemma Files(e: Sched)
    requires Shows(e, STOPPED.(waits := [2]))
    ensures Shows(BlockCurrent(e, 1, true), WAITS.(blocking := false))
  {
  }

  lemma Resumes(s: Sched)
    requires Shows(s, WAITS)
    ensures Enabled(s, ResumeScheduler) && Shows(Apply(s, ResumeScheduler), RESUMED)
  {
  }

  lemma Yields(s: Sched)
    requires Shows(s, RESUMED)
    ensures Enabled(s, Yield) && Shows(Apply(s, Yield), YIELDED)
  {
  }

  lemma Back1(s: Sched)
    requires Shows(s, YIELDED)
    ensures Enabled(s, PendSv) && Shows(Apply(s, PendSv), BACK1)
  {
    Highest({0, 2}, 2);
  }

  // somebody gives task 2 a higher priority while it waits, and its time runs out
  const LIFTED: Scene := BACK1.(t2 := Tcb(3, 3, 0, 1, 1, 1), owed := true)
  const STAYS1: Scene := LIFTED.(owed := false)
  const OUT2: Scene := STAYS1.(l2 := Ready(3), r3 := Rota([2], 0), delayed := [], waits := [], top := {0, 2, 3}, tick := 1,
                               next := MAX_DELAY, owed := true)
  const LEADS2: Scene := OUT2.(r3 := Rota([2], 1), current := 2, owed := false)

  lemma Lifts(s: Sched)
    requires Shows(s, BACK1)
    ensures Enabled(s, SetPriority(2, 3)) && Shows(Apply(s, SetPriority(2, 3)), LIFTED)
  {
  }

  lemma Stays1(s: Sched)
    requires Shows(s, LIFTED)
    ensures Enabled(s, PendSv) && Shows(Apply(s, PendSv), STAYS1)
  {
    Highest({0, 2}, 2);
  }

  lemma Leads2(s: Sched)
    requires Shows(s, OUT2)
    ensures Enabled(s, PendSv) && Shows(Apply(s, PendSv), LEADS2)
  {
    Highest({0, 2, 3}, 3);
  }

  /** The tick that readies task 2: the loop goes round once. */
  lemma Expires(s: Sched, c: Scene, c': Scene)
    requires Shows(s, c) && c.suspended == 0 && c.tick == 0 && c.next == 1 && c.delayed == [2] && c.t2.wake == 1
    requires c.known == {0, 1, 2} && c.waits == [2] && c.current == 1 && c.t2.prio >= c.t1.prio && c'.delayed == []
    requires var t := TimeOut(s.(tick := 1), 2);
      Shows(t.(next := MAX_DELAY), c'.(owed := c.owed)) && c'.owed
    ensures Shows(Apply(s, Tick), c')
  {
    var s1 := s.(tick := 1);
    assert Advanced(s) == s1;
    var t := TimeOut(s1, 2);
    assert InState(s1, CurrentList(s1)) == [2];
    assert Unblock(s1, false, 1) == Unblock(t, true, 0);
    assert InState(t, CurrentList(t)) == [];
    hide TimeOut;
  }

  lemma Out2(s: Sched)
    requires Shows(s, STAYS1)
    ensures Enabled(s, Tick) && Shows(Apply(s, Tick), OUT2)
  {
    Readied(s);
    hide Apply;
    Expires(s, STAYS1, OUT2);
  }

  /** The expired task moves from the delayed list, and the waiting list, to its ready list. */
  lemma Readied(s: Sched)
    requires Shows(s, STAYS1)
    ensures Shows(TimeOut(s.(tick := 1), 2).(next := MAX_DELAY), OUT2.(owed := false))
  {
  }

  // task 1 gets a higher base priority while it runs on task 2's, and task 2's time runs out
  const REBASED: Scene := BACK1.(t1 := Tcb(2, 3, 1, 0, 1, 0), r2 := Rota([1], 0))
  const LEVEL: Scene := REBASED.(l2 := Ready(2), r2 := Rota([1, 2], 0), delayed := [], waits := [], tick := 1,
                                 next := MAX_DELAY, owed := true)
  const FIRST1: Scene := LEVEL.(r2 := Rota([1, 2], 1), owed := false)
  const SHARED: Scene := FIRST1.(tick := 2, owed := true)
  const TURN2: Scene := SHARED.(r2 := Rota([1, 2], 2), current := 2, owed := false)

  lemma Rebases(s: Sched)
    requires Shows(s, BACK1)
    ensures Enabled(s, SetPriority(1, 3)) && Shows(Apply(s, SetPriority(1, 3)), REBASED)
  {
    var s1 := SetTcb(s, 1, REBASED.t1);
    var u := UnreadyDirect(s1, 1, 2);
    PrioritySetIs(s);
    Requeues(s);
    hide UnreadyDirect, AddReady, PrioritySet, Places, Lines;
  }

  lemma PrioritySetIs(s: Sched)
    requires Shows(s, BACK1)
    ensures Enabled(s, SetPriority(1, 3))
    ensures PrioritySet(s, 1, 3) == AddReady(UnreadyDirect(SetTcb(s, 1, REBASED.t1), 1, 2), 1)
  {
    hide UnreadyDirect, AddReady, Lines;
  }

  /** Task 1 leaves its ready list, which is then empty, and joins it again. */
  lemma Requeues(s: Sched)
    requires Shows(s, BACK1)
    ensures var s1 := SetTcb(s, 1, REBASED.t1); var j := AddReady(UnreadyDirect(s1, 1, 2), 1);
      Places(j, REBASED) && Lines(j, REBASED) && j == s1.(state := j.state)
  {
    var s1 := SetTcb(s, 1, REBASED.t1);
    var u := UnreadyDirect(s1, 1, 2);
    LeavesDirectly(s, s1);
    hide UnreadyDirect, Lines, Places;
    Rejoins(s, u);
  }

  lemma LeavesDirectly(s: Sched, s1: Sched)
    requires Shows(s, BACK1) && s1 == SetTcb(s, 1, REBASED.t1)
    ensures var u := UnreadyDirect(s1, 1, 2);
      Between(u, BACK1.(r2 := Rota([], 0))) && u == s1.(state := u.state, top := {0})
  {
  }

  lemma Rejoins(s: Sched, u: Sched)
    requires Shows(s, BACK1) && Between(u, BACK1.(r2 := Rota([], 0)))
    requires u == s.(tcbs := s.tcbs[1 := REBASED.t1], state := u.state, top := {0})
    ensures var j := AddReady(u, 1); Places(j, REBASED) && Lines(j, REBASED) && j == u.(state := j.state, top := s.top)
  {
    assert {0} + {2} == {0, 2};
  }

  lemma ReadiedToo(s: Sched)
    requires Shows(s, REBASED)
    ensures Shows(TimeOut(s.(tick := 1), 2).(next := MAX_DELAY), LEVEL.(owed := false))
  {
  }

  lemma Levels2(s: Sched)
    requires Shows(s, REBASED)
    ensures Enabled(s, Tick) && Shows(Apply(s, Tick), LEVEL)
  {
    ReadiedToo(s);
    hide Apply;
    Expires(s, REBASED, LEVEL);
  }

  lemma First1(s: Sched)
    requires Shows(s, LEVEL)
    ensures Enabled(s, PendSv) && Shows(Apply(s, PendSv), FIRST1)
  {
    Highest({0, 2}, 2);
  }

  lemma Shares(s: Sched)
    requires Shows(s, FIRST1)
    ensures Enabled(s, Tick) && Shows(Apply(s, Tick), SHARED)
  {
    assert Advanced(s) == s.(tick := 2);
  }

  lemma Turn2(s: Sched)
    requires Shows(s, SHARED)
    ensures Enabled(s, PendSv) && Shows(Apply(s, PendSv), TURN2)
  {
    Highest({0, 2}, 2);
  }

  // ---- The runs ----

  lemma More(s: Sched, steps: seq<Step>, step: Step) returns (more: seq<Step>)
    requires Legal(s, steps) && Enabled(Exec(s, steps), step) && !step.MutexTimeout?
    ensures Legal(s, more) && Exec(s, more) == Apply(Exec(s, steps), step)
  {
    more := steps + [step];
    OneMore(s, steps, step);
  }

  lemma {:induction false} OneMore(s: Sched, steps: seq<Step>, step: Step)
    requires Legal(s, steps) && Enabled(Exec(s, steps), step) && !StaleBit(Exec(s, steps), step)
    ensures Legal(s, steps + [step]) && Exec(s, steps + [step]) == Apply(Exec(s, steps), step)
    decreases |steps|
  {
    hide Apply, Enabled, StaleBit;
    if steps == [] {
      assert [step][1..] == [];
    } else {
      OneMore(Apply(s, steps[0]), steps[1..], step);
      assert (steps + [step])[1..] == steps[1..] + [step];
    }
  }

  /** Up to where task 1 runs again, at the priority of task 2, which waits. */
  lemma Inherited() returns (steps: seq<Step>)
    ensures Legal(Started(4, 0), steps) && Shows(Exec(Started(4, 0), steps), BACK1)
  {
    var s := Started(4, 0);
    steps := [];
    assert Legal(s, steps) && Exec(s, steps) == s;
    Starts();
    hide Legal, Exec, Shows, Apply, Enabled;
    Creates1(Exec(s, steps));
    steps := More(s, steps, CreateTask(1, 1));
    Runs1(Exec(s, steps));
    steps := More(s, steps, PendSv);
    Holds(Exec(s, steps));
    steps := More(s, steps, Step.TakeMutex);
    Creates2(Exec(s, steps));
    steps := More(s, steps, CreateTask(2, 2));
    Runs2(Exec(s, steps));
    steps := More(s, steps, PendSv);
    Raises(Exec(s, steps));
    steps := More(s, steps, InheritPriority(1));
    steps := Blocked(s, steps);
  }

  lemma Blocked(s: Sched, before: seq<Step>) returns (steps: seq<Step>)
    requires Legal(s, before) && Shows(Exec(s, before), RAISED)
    ensures Legal(s, steps) && Shows(Exec(s, steps), BACK1)
  {
    hide Legal, Exec, Shows, Apply, Enabled;
    Stops(Exec(s, before));
    steps := More(s, before, SuspendScheduler);
    Waits(Exec(s, steps));
    steps := More(s, steps, WaitOrdered(0, 1));
    Resumes(Exec(s, steps));
    steps := More(s, steps, ResumeScheduler);
    Yields(Exec(s, steps));
    steps := More(s, steps, Yield);
    Back1(Exec(s, steps));
    steps := More(s, steps, PendSv);
  }

  /** The wrong bit: task 1 is left alone in ready list 2 when task 2, given priority 3 while it waited,
      times out and lowers it. Bit 2 of the bitmap then stays set over an empty list. */
  lemma BitLeftSet() returns (steps: seq<Step>)
    ensures Legal(Started(4, 0), steps)
    ensures var s := Exec(Started(4, 0), steps); var s' := Apply(s, MutexTimeout(1, 0));
      && Inv(s) && Preemptive(s) && Enabled(s, MutexTimeout(1, 0)) && StaleBit(s, MutexTimeout(1, 0))
      && 2 in s'.top && InState(s', Ready(2)) == [] && !Inv(s')
  {
    var s := Started(4, 0);
    steps := Inherited();
    StartedInv(4, 0);
    hide Legal, Exec, Shows, Apply, Enabled, Inv, Preemptive;
    Lifts(Exec(s, steps));
    steps := More(s, steps, SetPriority(2, 3));
    Stays1(Exec(s, steps));
    steps := More(s, steps, PendSv);
    Out2(Exec(s, steps));
    steps := More(s, steps, Tick);
    Leads2(Exec(s, steps));
    steps := More(s, steps, PendSv);
    RunKept(s, steps);
    BitLeft(Exec(s, steps));
    StepKept(Exec(s, steps), MutexTimeout(1, 0));
  }

  lemma BitLeft(s: Sched)
    requires Shows(s, LEADS2)
    ensures Preemptive(s) && Enabled(s, MutexTimeout(1, 0)) && StaleBit(s, MutexTimeout(1, 0))
    ensures var s' := Apply(s, MutexTimeout(1, 0)); 2 in s'.top && InState(s', Ready(2)) == []
  {
  }

  /** No switch is asked for: task 1, given base priority 3 while it ran at 2, is raised to it by the time-out
      of task 2, which goes on running at priority 2. */
  lemma RaisedUnnoticed() returns (steps: seq<Step>)
    ensures Legal(Started(4, 0), steps)
    ensures var s := Exec(Started(4, 0), steps);
      && Inv(s) && Preemptive(s) && Enabled(s, MutexTimeout(1, 0)) && !StaleBit(s, MutexTimeout(1, 0))
      && Strands(s, MutexTimeout(1, 0)) && !Preemptive(Apply(s, MutexTimeout(1, 0)))
  {
    var s := Started(4, 0);
    steps := Inherited();
    StartedInv(4, 0);
    hide Legal, Exec, Shows, Apply, Enabled, Inv, Preemptive;
    Rebases(Exec(s, steps));
    steps := More(s, steps, SetPriority(1, 3));
    Levels2(Exec(s, steps));
    steps := More(s, steps, Tick);
    First1(Exec(s, steps));
    steps := More(s, steps, PendSv);
    Shares(Exec(s, steps));
    steps := More(s, steps, Tick);
    Turn2(Exec(s, steps));
    steps := More(s, steps, PendSv);
    RunKept(s, steps);
    Unnoticed(Exec(s, steps));
    StepKept(Exec(s, steps), MutexTimeout(1, 0));
    KeptPreempts(Exec(s, steps), MutexTimeout(1, 0));
  }

  lemma Unnoticed(s: Sched)
    requires Shows(s, TURN2)
    ensures Preemptive(s) && Enabled(s, MutexTimeout(1, 0)) && !StaleBit(s, MutexTimeout(1, 0)) && Strands(s, MutexTimeout(1, 0))
  {
  }

  // task 3 is created at the priority task 1 has inherited, and task 2's own is lowered while it waits

  predicate ShowsThird(s: Sched, t2: Tcb) {
    && Flags(s, BACK1) && s.tcbs == map[0 := Tcb(0, 0, 0, 0, 4, 0), 1 := BACK1.t1, 2 := t2, 3 := Tcb(2, 2, 0, 0, 2, 0)]
    && s.state.at == map[0 := Ready(0), 1 := Ready(2), 2 := DelayedA, 3 := Ready(2)]
    && InState(s, Ready(2)) == [3, 1] && InEvent(s, WaitList(0)) == [2] && s.event.at == map[2 := WaitList(0)]
  }

  lemma Creates3(s: Sched)
    requires Shows(s, BACK1)
    ensures Enabled(s, CreateTask(3, 2)) && ShowsThird(Apply(s, CreateTask(3, 2)), BACK1.t2)
  {
    assert s.top + {2} == s.top;
  }

  const LOWERED2: Tcb := Tcb(1, 1, 0, 1, 3, 1)

  lemma Lowers2(s: Sched)
    requires ShowsThird(s, BACK1.t2)
    ensures Enabled(s, SetPriority(2, 1)) && ShowsThird(Apply(s, SetPriority(2, 1)), LOWERED2)
  {
  }

  lemma Stranding(s: Sched)
    requires ShowsThird(s, LOWERED2)
    ensures Preemptive(s) && Enabled(s, Step.GiveMutex(0)) && Strands(s, Step.GiveMutex(0))
  {
    Disinherits(s);
    hide Disinherit;
    assert IsReady(Disinherit(s).s, 3);
  }

  lemma Disinherits(s: Sched)
    requires ShowsThird(s, LOWERED2)
    ensures var r := Disinherit(s);
      r.switch && r.s.current == 1 && Prio(r.s, 1) == 1 && Prio(r.s, 2) == 1 && Prio(r.s, 3) == 2 && IsReady(r.s, 3)
  {
  }

  /** A ready task stranded: task 1, of base priority 1, runs at an inherited priority 2 and gives its mutex
      back; task 2, now of priority 1, waits for it, and task 3, of priority 2, is ready. Afterwards task 3
      outranks the running task and no switch is pending. */
  lemma ReadyTaskStranded() returns (steps: seq<Step>)
    ensures Legal(Started(4, 0), steps)
    ensures var s := Exec(Started(4, 0), steps);
      && Inv(s) && Preemptive(s) && Enabled(s, Step.GiveMutex(0)) && Strands(s, Step.GiveMutex(0))
      && !Preemptive(Apply(s, Step.GiveMutex(0)))
  {
    var s := Started(4, 0);
    steps := Inherited();
    StartedInv(4, 0);
    hide Legal, Exec, Shows, ShowsThird, Apply, Enabled, Inv, Preemptive;
    Creates3(Exec(s, steps));
    steps := More(s, steps, CreateTask(3, 2));
    Lowers2(Exec(s, steps));
    steps := More(s, steps, SetPriority(2, 1));
    RunKept(s, steps);
    Stranding(Exec(s, steps));
    StepKept(Exec(s, steps), Step.GiveMutex(0));
    KeptPreempts(Exec(s, steps), Step.GiveMutex(0));
  }
}
