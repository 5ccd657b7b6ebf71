/** Ticks that fall inside a call that blocks. The call suspends the scheduler, raises a holder or not, files the
    running task, resumes the scheduler and yields, and a tick may fall between any two of these. While the
    scheduler is suspended xTaskIncrementTick only counts the tick, and nothing the call does meanwhile depends
    on that count; xTaskResumeAll replays what has been counted, tick by tick, with the task already filed. So
    the call ends as if all of them had come after it, but for the yield that the replay may note in
    xYieldPending, which makes no difference where a switch is pending. The lemmas say so of one step, of the
    replay, and of the whole call with any number of ticks in any of its gaps. */
module MutexTicks {
  import opened Machine
  import opened ListModel
  import opened ItemStore
  import opened Scheduler
  import opened SchedulerSteps
  import opened SchedulerRuns
  import opened MutexCalls

  // ---- Ticks while the scheduler is suspended ----

  function Ticking(k: nat): seq<Step> { if k == 0 then [] else [Tick] + Ticking(k - 1) }

  function TickMany(s: Sched, k: nat): Sched
    decreases k
  {
    if k == 0 then s else TickMany(Apply(s, Tick), k - 1)
  }

  lemma {:induction false} TickingRuns(s: Sched, k: nat)
    ensures Legal(s, Ticking(k)) && Exec(s, Ticking(k)) == TickMany(s, k)
    decreases k
  {
    hide Apply;
    if k > 0 {
      assert Ticking(k)[1..] == Ticking(k - 1);
      TickingRuns(Apply(s, Tick), k - 1);
    }
  }

  lemma {:induction false} TickManyAdds(s: Sched, j: nat, k: nat)
    ensures TickMany(TickMany(s, j), k) == TickMany(s, j + k)
    decreases j
  {
    hide Apply;
    if j > 0 { TickManyAdds(Apply(s, Tick), j - 1, k); }
  }

  /** k ticks held back. */
  function Late(s: Sched, k: nat): Sched { Counting(s, s.suspended, s.pended + k, s.delivered + k) }

  lemma {:induction false} HaltedTicks(s: Sched, k: nat)
    requires s.suspended > 0 && !s.yieldPending
    ensures TickMany(s, k) == Late(s, k)
    decreases k
  {
    if k > 0 {
      assert Apply(s, Tick) == Late(s, 1);
      hide Apply;
      HaltedTicks(Late(s, 1), k - 1);
    }
  }

  lemma BlockCounting(s: Sched, n: Machine.Tick, indefinitely: bool, u: nat, p: nat, d: nat)
    ensures BlockCurrent(Counting(s, u, p, d), n, indefinitely) == Counting(BlockCurrent(s, n, indefinitely), u, p, d)
  {
    hide UnreadyDirect, FileDelayed, PutEnd;
    UnreadyCounting(s, s.current, Prio(s, s.current), u, p, d);
    var s1 := UnreadyDirect(s, s.current, Prio(s, s.current));
    UnreadyFlags(s, s.current, Prio(s, s.current));
    FileCounting(s1, s.current, n, u, p, d);
  }

  lemma UnreadyFlags(s: Sched, t: Task, p: nat)
    ensures var s' := UnreadyDirect(s, t, p); s' == s.(state := s'.state, top := s'.top)
  {
    hide Take, Emptied;
  }

  lemma FileCounting(s: Sched, t: Task, n: Machine.Tick, u: nat, p: nat, d: nat)
    ensures FileDelayed(Counting(s, u, p, d), t, n) == Counting(FileDelayed(s, t, n), u, p, d)
  {
    hide PutAt, SearchPos, WakeKeys;
  }

  lemma BlockOnCounting(s: Sched, q: nat, n: Machine.Tick, u: nat, p: nat, d: nat)
    ensures BlockOn(Counting(s, u, p, d), q, n) == Counting(BlockOn(s, q, n), u, p, d)
  {
    hide BlockCurrent, PutAt, SearchPos, EventKeys;
    var k := SearchPos(EventKeys(s.tcbs, InEvent(s, WaitList(q))), T(s, s.current).eventValue);
    BlockCounting(s.(event := PutAt(s.event, WaitList(q), k, s.current)), n, true, u, p, d);
  }

  /** Holding ticks back makes no difference to what the call does meanwhile. */
  lemma LateStep(s: Sched, step: Step, k: nat)
    requires Enabled(s, step) && (step.InheritPriority? || step.Delay? || step.WaitOrdered?)
    ensures Enabled(Late(s, k), step) && Apply(Late(s, k), step) == Late(Apply(s, step), k)
  {
    hide Inherit, BlockCurrent, BlockOn;
    var p, d := s.pended + k, s.delivered + k;
    match step {
      case InheritPriority(h) => InheritCounting(s, h, s.suspended, p, d); InheritCounting(s, h, s.suspended, s.pended, s.delivered);
      case Delay(n) => BlockCounting(s, n, false, s.suspended, p, d); BlockCounting(s, n, false, s.suspended, s.pended, s.delivered);
      case WaitOrdered(q, n) => BlockOnCounting(s, q, n, s.suspended, p, d); BlockOnCounting(s, q, n, s.suspended, s.pended, s.delivered);
    }
  }

  // ---- Ticks replayed ----

  /** The same but for the flags and the counts of ticks. */
  predicate Alike(x: Sched, y: Sched) {
    x == y.(pended := x.pended, delivered := x.delivered, yieldPending := x.yieldPending, owed := x.owed, blocking := x.blocking)
  }

  lemma AlikeTimeOut(x: Sched, y: Sched, t: Task)
    requires Alike(x, y)
    ensures Alike(TimeOut(x, t), TimeOut(y, t))
  {
    hide Take, PutEnd;
  }

  lemma AlikeLists(x: Sched, y: Sched)
    requires Alike(x, y)
    ensures x.tick == y.tick && x.next == y.next && x.tcbs == y.tcbs && x.suspended == y.suspended
    ensures InState(x, CurrentList(x)) == InState(y, CurrentList(y)) && x.current == y.current
    ensures (forall t :: Prio(x, t) == Prio(y, t)) && forall l :: InState(x, l) == InState(y, l)
  {
  }

  lemma AlikeNext(x: Sched, y: Sched, n: Machine.Tick)
    requires Alike(x, y)
    ensures Alike(x.(next := n), y.(next := n))
  {
  }

  lemma {:induction false} AlikeUnblock(x: Sched, y: Sched, b: bool, c: bool, fuel: nat)
    requires Alike(x, y)
    ensures Alike(Unblock(x, b, fuel).s, Unblock(y, c, fuel).s)
    ensures b == c ==> Unblock(x, b, fuel).switch == Unblock(y, c, fuel).switch
    decreases fuel
  {
    hide TimeOut, Alike, Prio, InState, CurrentList;
    var l := InState(x, CurrentList(x));
    AlikeLists(x, y);
    AlikeNext(x, y, if l == [] then MAX_DELAY else Wake(x.tcbs, l[0]));
    if l != [] && x.tick >= Wake(x.tcbs, l[0]) && fuel > 0 {
      AlikeTimeOut(x, y, l[0]);
      AlikeUnblock(TimeOut(x, l[0]), TimeOut(y, l[0]), b || Prio(x, l[0]) >= Prio(x, x.current),
        c || Prio(y, l[0]) >= Prio(y, y.current), fuel - 1);
    }
  }

  lemma AlikeAdvanced(x: Sched, y: Sched)
    requires Alike(x, y)
    ensures Alike(Advanced(x), Advanced(y))
  {
    hide ResetNext;
    var x1, y1 := x.(tick := 0, swapped := !x.swapped, epoch := x.epoch + 1), y.(tick := 0, swapped := !y.swapped, epoch := y.epoch + 1);
    assert Alike(x1, y1);
    AlikeReset(x1, y1);
  }

  lemma AlikeReset(x: Sched, y: Sched)
    requires Alike(x, y)
    ensures Alike(ResetNext(x), ResetNext(y))
  {
    AlikeLists(x, y);
    hide CurrentList, InState;
  }

  /** A tick sees none of them. */
  lemma AlikeTick(x: Sched, y: Sched)
    requires Alike(x, y) && x.suspended == 0
    ensures Alike(IncrementTick(x).s, IncrementTick(y).s)
  {
    hide Unblock, Advanced, Alike;
    AlikeLists(x, y);
    AlikeAdvanced(x, y);
    AlikeLists(Advanced(x), Advanced(y));
    var l := InState(Advanced(x), CurrentList(Advanced(x)));
    AlikeUnblock(Advanced(x), Advanced(y), false, false, |l|);
  }

  /** And changes none of them. */
  lemma TickFlags(x: Sched)
    requires x.suspended == 0
    ensures var r := IncrementTick(x).s;
      && r.pended == x.pended && r.delivered == x.delivered && r.yieldPending == x.yieldPending && r.owed == x.owed
      && r.blocking == x.blocking && r.suspended == 0
  {
    hide Unblock, Advanced;
    AdvancedIs(x);
    UnblockFlags(Advanced(x), false, |InState(Advanced(x), CurrentList(Advanced(x)))|);
  }

  /** And asks for the same switch, but for a yield noted before. */
  lemma TickSwitch(x: Sched, y: Sched)
    requires Alike(x, y) && x.suspended == 0 && !y.yieldPending
    ensures IncrementTick(x).switch == (IncrementTick(y).switch || x.yieldPending)
  {
    hide Unblock, Advanced, Alike, InState, Prio;
    AlikeLists(x, y);
    AlikeAdvanced(x, y);
    AlikeLists(Advanced(x), Advanced(y));
    var l := InState(Advanced(x), CurrentList(Advanced(x)));
    AlikeUnblock(Advanced(x), Advanced(y), false, false, |l|);
    AlikeLists(Unblock(Advanced(x), false, |l|).s, Unblock(Advanced(y), false, |l|).s);
  }

  lemma TickIs(x: Sched)
    ensures var r := IncrementTick(x); Apply(x, Tick) == r.s.(owed := x.owed || r.switch, delivered := x.delivered + 1)
  {
    hide IncrementTick;
  }

  lemma {:induction false} Replayed(x: Sched, y: Sched, k: nat)
    requires Alike(x, y) && x.suspended == 0
    ensures var x', y' := Replay(x, k), TickMany(y, k);
      && Alike(x', y') && x'.pended == x.pended && x'.delivered == x.delivered && x'.owed == x.owed && x'.blocking == x.blocking
      && x'.suspended == 0 && y'.pended == y.pended && y'.delivered == y.delivered + k && (y.owed ==> y'.owed) && y'.blocking == y.blocking
    decreases k
  {
    if k > 0 {
      hide IncrementTick, Apply;
      AlikeTick(x, y);
      TickFlags(x);
      TickFlags(y);
      TickIs(y);
      var r := IncrementTick(x);
      var x1, y1 := if r.switch then r.s.(yieldPending := true) else r.s, Apply(y, Tick);
      assert Alike(x1, y1);
      hide Alike;
      Replayed(x1, y1, k - 1);
    }
  }

  /** A replay notes a yield exactly if the ticks, falling one by one, ask for a switch. */
  lemma {:induction false} ReplayedOwed(x: Sched, y: Sched, k: nat)
    requires Alike(x, y) && x.suspended == 0 && x.yieldPending == y.owed && !y.yieldPending
    ensures Replay(x, k).yieldPending == TickMany(y, k).owed && !TickMany(y, k).yieldPending
    decreases k
  {
    if k > 0 {
      hide IncrementTick, Apply;
      AlikeTick(x, y);
      TickSwitch(x, y);
      TickFlags(x);
      TickFlags(y);
      TickIs(y);
      var r := IncrementTick(x);
      var x1, y1 := if r.switch then r.s.(yieldPending := true) else r.s, Apply(y, Tick);
      assert Alike(x1, y1);
      hide Alike;
      ReplayedOwed(x1, y1, k - 1);
    }
  }

  lemma {:induction false} TicksAlike(x: Sched, y: Sched, k: nat)
    requires Alike(x, y) && x.suspended == 0
    ensures var x', y' := TickMany(x, k), TickMany(y, k);
      && Alike(x', y') && x'.pended == x.pended && x'.delivered == x.delivered + k && (x.owed ==> x'.owed)
      && x'.blocking == x.blocking && x'.suspended == 0
    decreases k
  {
    if k > 0 {
      hide IncrementTick, Apply;
      AlikeTick(x, y);
      TickFlags(x);
      TickFlags(y);
      TickIs(x);
      TickIs(y);
      TicksAlike(Apply(x, Tick), Apply(y, Tick), k - 1);
    }
  }

  /** The scheduler resumes after a block with k ticks held back, d more fall, and the task yields: but for the
      yield that the replay has noted, that is as if all of them fell after the call. */
  lemma LateResume(b: Sched, k: nat, d: nat)
    requires b.suspended == 1 && b.pended == 0 && InEvent(b, PendingReady) == [] && !b.owed && !b.yieldPending
    ensures var e, e' := TickMany(Left(b), k + d), Apply(TickMany(ResumeAll(Late(b, k)), d), Yield);
      e' == e.(yieldPending := e'.yieldPending) && e.owed && TickMany(ResumeAll(Late(b, k)), d).suspended == 0
  {
    hide Replay, ResumeAll;
    var r := Late(b, k).(suspended := 0);
    var x := Replay(r, k).(pended := 0);
    Replayed(r, Left(b), k);
    var x1 := x.(owed := x.owed || x.yieldPending);
    ResumeReplays(b, k, r, x);
    var y := TickMany(Left(b), k);
    TicksAlike(x1, y, d);
    TicksAlike(y, y, d);
    TickManyAdds(Left(b), k, d);
    hide TickMany;
  }

  lemma ResumeReplays(b: Sched, k: nat, r: Sched, x: Sched)
    requires b.suspended == 1 && b.pended == 0 && InEvent(b, PendingReady) == []
    requires r == Late(b, k).(suspended := 0) && x == Replay(r, k).(pended := 0)
    ensures ResumeAll(Late(b, k)) == x.(owed := x.owed || x.yieldPending)
  {
    hide Replay;
    assert ReadyPended(r) == r;
  }

  // ---- A call with ticks inside ----

  /** The steps of a call, and after each but the last so many ticks. */
  function Woven(steps: seq<Step>, falls: seq<nat>): seq<Step> {
    if |steps| <= 1 || falls == [] then steps
    else [steps[0]] + Ticking(falls[0]) + Woven(steps[1..], falls[1..])
  }

  /** How many ticks fall in it. */
  function Fallen(steps: seq<Step>, falls: seq<nat>): nat {
    if |steps| <= 1 || falls == [] then 0 else falls[0] + Fallen(steps[1..], falls[1..])
  }

  lemma {:induction false} LegalBoth(z: Sched, a: seq<Step>, b: seq<Step>)
    requires Legal(z, a) && Legal(Exec(z, a), b)
    ensures Legal(z, a + b) && Exec(z, a + b) == Exec(Exec(z, a), b)
    decreases |a|
  {
    hide Enabled, StaleBit, Apply;
    if a == [] {
      assert a + b == b;
    } else {
      assert (a + b)[1..] == a[1..] + b;
      LegalBoth(Apply(z, a[0]), a[1..], b);
    }
  }

  /** One step, some ticks, and the rest. */
  lemma StepTicks(z: Sched, step: Step, k: nat, rest: seq<Step>)
    requires Enabled(z, step) && !StaleBit(z, step) && Legal(TickMany(Apply(z, step), k), rest)
    ensures var steps := [step] + Ticking(k) + rest;
      Legal(z, steps) && Exec(z, steps) == Exec(TickMany(Apply(z, step), k), rest)
  {
    hide Enabled, StaleBit, Apply, Ticking, TickMany;
    var z1 := Apply(z, step);
    TickingRuns(z1, k);
    LegalBoth(z1, Ticking(k), rest);
    assert [step] + Ticking(k) + rest == [step] + (Ticking(k) + rest);
    Then(z, step, Ticking(k) + rest);
  }

  /** Nothing is held back, and no switch has been asked for. */
  predicate Calm(s: Sched) { s.pended == 0 && InEvent(s, PendingReady) == [] && Quiet(s) }

  predicate Inner(step: Step) { step.InheritPriority? || step.Delay? || step.WaitOrdered? }

  /** What a call does once the scheduler is suspended: it ends by resuming it and yielding. */
  predicate Inside(steps: seq<Step>) {
    if |steps| <= 2 then steps == [ResumeScheduler, Yield] else Inner(steps[0]) && Inside(steps[1..])
  }

  lemma InnerCalm(s: Sched, step: Step)
    requires Enabled(s, step) && Inner(step) && Calm(s)
    ensures Calm(Apply(s, step)) && Apply(s, step).suspended == s.suspended && !StaleBit(s, step)
  {
    hide Inherit, BlockCurrent, SearchPos;
    match step {
      case InheritPriority(h) => InheritFlags(s, h); InheritCounting(s, h, s.suspended, s.pended, s.delivered);
      case Delay(n) => BlockFlags(s, n, false);
      case WaitOrdered(q, n) =>
        var k := SearchPos(EventKeys(s.tcbs, InEvent(s, WaitList(q))), T(s, s.current).eventValue);
        var s1 := s.(event := PutAt(s.event, WaitList(q), k, s.current));
        BlockFlags(s1, n, true);
    }
  }

  lemma BlockFlags(s: Sched, n: Machine.Tick, indefinitely: bool)
    ensures var s' := BlockCurrent(s, n, indefinitely);
      s' == s.(state := s'.state, top := s'.top, next := s'.next, tcbs := s'.tcbs)
  {
    hide UnreadyDirect, PutEnd, PutAt, SearchPos, WakeKeys;
    UnreadyFlags(s, s.current, Prio(s, s.current));
  }

  lemma {:induction false} InsideLate(s: Sched, k: nat, steps: seq<Step>, falls: seq<nat>)
    requires Calm(s) && s.suspended == 1 && Inside(steps) && Legal(s, steps)
    ensures Legal(Late(s, k), Woven(steps, falls))
    ensures var e, e' := TickMany(Exec(s, steps), k + Fallen(steps, falls)), Exec(Late(s, k), Woven(steps, falls));
      e' == e.(yieldPending := e'.yieldPending) && e.owed
    decreases |steps|
  {
    hide Apply, Enabled, StaleBit, TickMany, Ticking;
    var f := if falls == [] then 0 else falls[0];
    var rest := if falls == [] then [] else falls[1..];
    NoTicks(Apply(Late(s, k), steps[0]));
    WovenFirst(steps, falls);
    if |steps| == 2 {
      ResumeLate(s, k, f);
    } else {
      var step := steps[0];
      InnerCalm(s, step);
      LateStep(s, step, k);
      NeverStale(Late(s, k), step);
      var s1 := Apply(s, step);
      HaltedTicks(Late(s1, k), f);
      InsideLate(s1, k + f, steps[1..], rest);
      StepTicks(Late(s, k), step, f, Woven(steps[1..], rest));
    }
  }

  lemma NoTicks(s: Sched)
    ensures Ticking(0) == [] && TickMany(s, 0) == s
  {
  }

  lemma WovenFirst(steps: seq<Step>, falls: seq<nat>)
    requires |steps| >= 2
    ensures var f, rest := if falls == [] then 0 else falls[0], if falls == [] then [] else falls[1..];
      && Woven(steps, falls) == [steps[0]] + Ticking(f) + Woven(steps[1..], rest)
      && Fallen(steps, falls) == f + Fallen(steps[1..], rest)
  {
    if falls == [] { assert steps == [steps[0]] + [] + steps[1..]; }
  }

  lemma NeverStale(z: Sched, step: Step)
    requires !step.MutexTimeout?
    ensures !StaleBit(z, step)
  {
  }

  lemma ResumeLate(s: Sched, k: nat, d: nat)
    requires Calm(s) && s.suspended == 1
    ensures var steps := [ResumeScheduler] + Ticking(d) + [Yield];
      Legal(Late(s, k), steps)
      && var e, e' := TickMany(Exec(s, [ResumeScheduler, Yield]), k + d), Exec(Late(s, k), steps);
         Legal(s, [ResumeScheduler, Yield]) && e' == e.(yieldPending := e'.yieldPending) && e.owed
  {
    ResumeNothing(s);
    LateResume(s, k, d);
    hide ResumeAll, TickMany, Ticking;
    var r := s.(suspended := 0);
    assert Enabled(s, ResumeScheduler) && Apply(s, ResumeScheduler) == r && Enabled(r, Yield) && Apply(r, Yield) == Left(s);
    assert Enabled(Late(s, k), ResumeScheduler) && Apply(Late(s, k), ResumeScheduler) == ResumeAll(Late(s, k));
    var x := TickMany(ResumeAll(Late(s, k)), d);
    assert Enabled(x, Yield);
    hide Apply, Enabled;
    NeverStale(s, ResumeScheduler);
    NeverStale(Late(s, k), ResumeScheduler);
    NeverStale(r, Yield);
    NeverStale(x, Yield);
    hide StaleBit;
    One(x, Yield);
    One(r, Yield);
    StepTicks(Late(s, k), ResumeScheduler, d, [Yield]);
    assert [ResumeScheduler, Yield][1..] == [Yield];
  }

  lemma HaltApplied(z: Sched)
    requires Calm(z) && z.suspended == 0
    ensures Apply(z, SuspendScheduler) == Halted(z) && Calm(Halted(z)) && Halted(z).suspended == 1 && !Halted(z).yieldPending
  {
  }

  lemma CallStarts(z: Sched, steps: seq<Step>)
    requires Legal(z, steps) && steps != []
    ensures Enabled(z, steps[0]) && Legal(Apply(z, steps[0]), steps[1..])
    ensures Exec(z, steps) == Exec(Apply(z, steps[0]), steps[1..])
  {
    hide Apply, Enabled;
  }

  /** Wherever in a blocking call the ticks fall, it ends, but for a yield noted, as if they came after it. */
  lemma CallLate(z: Sched, steps: seq<Step>, falls: seq<nat>)
    requires Calm(z) && z.suspended == 0 && |steps| > 2 && steps[0] == SuspendScheduler && Inside(steps[1..])
    requires Legal(z, steps)
    ensures Legal(z, Woven(steps, falls))
    ensures var e, e' := TickMany(Exec(z, steps), Fallen(steps, falls)), Exec(z, Woven(steps, falls));
      e' == e.(yieldPending := e'.yieldPending) && e.owed
  {
    hide Apply, Enabled, TickMany, Ticking, Halted, Calm, Inside;
    var h := Halted(z);
    HaltApplied(z);
    CallStarts(z, steps);
    var f := if falls == [] then 0 else falls[0];
    var rest := if falls == [] then [] else falls[1..];
    WovenFirst(steps, falls);
    HaltedTicks(h, f);
    InsideLate(h, f, steps[1..], rest);
    NeverStale(z, steps[0]);
    StepTicks(z, steps[0], f, Woven(steps[1..], rest));
  }

  // ---- A look at the time ----

  /** The scheduler is suspended and resumed, with nothing done in between. */
  const GLANCE: seq<Step> := [SuspendScheduler, ResumeScheduler]

  lemma Resumed(z: Sched, k: nat)
    requires Calm(z) && z.suspended == 0
    ensures var e, e' := TickMany(z, k), ResumeAll(Late(Halted(z), k));
      e' == e.(yieldPending := e'.yieldPending) && (e'.yieldPending ==> e.owed)
  {
    var r := Late(Halted(z), k).(suspended := 0);
    assert ReadyPended(r) == r;
    Replayed(r, z, k);
    ReplayedOwed(r, z, k);
    var x := Replay(r, k).(pended := 0);
    assert ResumeAll(Late(Halted(z), k)) == x.(owed := x.owed || x.yieldPending);
    hide Replay, ResumeAll, TickMany;
  }

  /** Wherever in it the ticks fall, it ends, but for a yield noted, as if they came after it. */
  lemma GlanceLate(z: Sched, falls: seq<nat>)
    requires Calm(z) && z.suspended == 0 && TaskRuns(z)
    ensures Legal(z, GLANCE) && Exec(z, GLANCE) == z && Legal(z, Woven(GLANCE, falls))
    ensures var e, e' := TickMany(z, Fallen(GLANCE, falls)), Exec(z, Woven(GLANCE, falls));
      e' == e.(yieldPending := e'.yieldPending) && (e'.yieldPending ==> e.owed)
  {
    var h, f := Halted(z), if falls == [] then 0 else falls[0];
    GlanceTicks(z, f);
    GlanceTicks(z, 0);
    NoTicks(z);
    WovenFirst(GLANCE, falls);
    Resumed(z, f);
    ResumeNothing(h);
    hide ResumeAll, TickMany, Ticking;
    assert [SuspendScheduler] + [] + [ResumeScheduler] == GLANCE && GLANCE[1..] == [ResumeScheduler];
  }

  lemma GlanceTicks(z: Sched, f: nat)
    requires Calm(z) && z.suspended == 0 && TaskRuns(z)
    ensures var steps := [SuspendScheduler] + Ticking(f) + [ResumeScheduler];
      Legal(z, steps) && Exec(z, steps) == ResumeAll(Late(Halted(z), f))
  {
    hide ResumeAll, TickMany, Ticking;
    var h := Halted(z);
    assert Enabled(z, SuspendScheduler) && Apply(z, SuspendScheduler) == h;
    HaltedTicks(h, f);
    assert Enabled(Late(h, f), ResumeScheduler) && Apply(Late(h, f), ResumeScheduler) == ResumeAll(Late(h, f));
    hide Apply, Enabled;
    NeverStale(z, SuspendScheduler);
    NeverStale(Late(h, f), ResumeScheduler);
    One(Late(h, f), ResumeScheduler);
    StepTicks(z, SuspendScheduler, f, [ResumeScheduler]);
  }
}
