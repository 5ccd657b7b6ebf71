/** Two assertions in the mutex code that can fail (queue.c:1474, tasks.c:4005), and exactly when the first does. */
module MutexAssertions {
  import opened ListModel
  import opened Mutex
  import opened MutexRuns

  /** The running task is to be refused, and has raised a holder in this call. */
  predicate AssertionFails(s: Sys) { Enabled(s, Refuse) && Me(s).phase.inherited }

  // ---- When that fails ----

  /** After a time-out that has set its block time to 0, t looks once more and finds m available; it had raised
      the holder of m. */
  predicate FindsFree(s: Sys, step: Step, t: Task, m: MutexId) {
    step.Test? && s.current == t && R(s, t).phase == Expired(m, true, true) && Owner(s, m).Free?
  }

  /** The step is one of t's own. */
  predicate Acts(s: Sys, step: Step, t: Task) {
    s.current == t && !step.Wake? && !step.TimeOut? && !step.Share? && !step.Switch?
  }

  /** The last step of t in the run is that look; or t takes no step in it, and `before` says so of the time before. */
  predicate FoundFree(s: Sys, steps: seq<Step>, t: Task, m: MutexId, before: bool)
    requires Legal(s, steps)
    decreases |steps|
  {
    if steps == [] then before
    else FoundFree(Apply(s, steps[0]), steps[1..], t, m, FindsFree(s, steps[0], t, m) || (before && !Acts(s, steps[0], t)))
  }

  lemma OneStep(s: Sys, step: Step, t: Task, m: MutexId)
    requires Enabled(s, step)
    ensures R(Apply(s, step), t).phase == Trying(m, true, true)
      <==> FindsFree(s, step, t, m) || (R(s, t).phase == Trying(m, true, true) && !Acts(s, step, t))
  {
    hide Joined, HighestWaiting;
  }

  lemma {:induction false} History(s: Sys, steps: seq<Step>, t: Task, m: MutexId)
    requires Legal(s, steps)
    ensures R(Exec(s, steps), t).phase == Trying(m, true, true)
      <==> FoundFree(s, steps, t, m, R(s, t).phase == Trying(m, true, true))
    decreases |steps|
  {
    hide Apply, Enabled, FindsFree, Acts;
    if steps != [] {
      OneStep(s, steps[0], t, m);
      History(Apply(s, steps[0]), steps[1..], t, m);
    }
  }

  /** The assertion fails exactly if the mutex was available when the running task looked after its time-out,
      which was the last thing it did, and is taken again now that it tries. */
  lemma FailsExactly(s: Sys, steps: seq<Step>)
    requires Fresh(s) && Legal(s, steps)
    ensures var e := Exec(s, steps);
      AssertionFails(e) <==> Runs(e) && exists m :: FoundFree(s, steps, e.current, m, false) && Owner(e, m).Held?
  {
    var e := Exec(s, steps);
    forall m ensures R(e, e.current).phase == Trying(m, true, true) <==> FoundFree(s, steps, e.current, m, false) {
      History(s, steps, e.current, m);
    }
    if AssertionFails(e) { assert FoundFree(s, steps, e.current, Me(e).phase.m, false); }
  }

  // ---- A run in which it does ----

  ghost predicate Leads(s: Sys, steps: seq<Step>, e: Sys) { Legal(s, steps) && Careful(s, steps) && Exec(s, steps) == e }

  lemma Go(s: Sys, steps: seq<Step>, e: Sys, step: Step) returns (all: seq<Step>, e': Sys)
    requires Leads(s, steps, e) && Enabled(e, step) && !Nests(e, step) && !Strands(e, step)
    ensures e' == Apply(e, step) && Leads(s, all, e')
  {
    hide Apply, Enabled, Nests, Strands;
    OneMore(s, steps, step);
    all, e' := steps + [step], Apply(e, step);
  }

  /** Three tasks and a mutex. */
  ghost predicate Three(s: Sys, a: Rec, b: Rec, c: Rec, o: Holder, w: seq<Task>, current: Task, owed: bool) {
    && s.tasks.Keys == {0, 1, 2} && s.owner.Keys == s.waiting.Keys == {7} && R(s, 0) == a && R(s, 1) == b && R(s, 2) == c
    && Owner(s, 7) == o && W(s, 7) == w && s.current == current && s.owed == owed
  }

  lemma Begins() returns (s: Sys)
    ensures Fresh(s) && Leads(s, [], s)
    ensures Three(s, Rec(1, 1, 0, true, Out), Rec(2, 2, 0, false, Out), Rec(3, 3, 0, false, Out), Free, [], 0, false)
  {
    s := Sys(map[0 := Rec(1, 1, 0, true, Out), 1 := Rec(2, 2, 0, false, Out), 2 := Rec(3, 3, 0, false, Out)],
             map[7 := Free], map[7 := []], 0, false);
  }

  /** The running task takes the mutex. */
  lemma Takes(s: Sys, before: seq<Step>, start: Sys) returns (steps: seq<Step>, e: Sys)
    requires Leads(s, before, start) && Runs(start) && Me(start).phase.Out? && 7 in start.owner && start.owner[7].Free?
    ensures Leads(s, steps, e)
    ensures e == Put(start, start.current, Me(start).(held := Me(start).held + 1)).(owner := start.owner[7 := Held(start.current)])
  {
    hide Leads;
    steps, e := Go(s, before, start, Request(7, true));
    steps, e := Go(s, steps, e, Grab);
    assert e.tasks == start.tasks[start.current := Me(start).(held := Me(start).held + 1)];
  }

  /** A sleeping task that outranks the running one wakes and runs. */
  lemma Wakes(s: Sys, before: seq<Step>, start: Sys, t: Task) returns (steps: seq<Step>, e: Sys)
    requires Leads(s, before, start) && t in start.tasks && !R(start, t).ready && R(start, t).phase.Out?
    requires forall x <- start.tasks :: start.tasks[x].ready ==> start.tasks[x].prio < R(start, t).prio
    requires start.current in start.tasks && Prio(start, start.current) < Prio(start, t)
    ensures Leads(s, steps, e) && e == Put(start, t, R(start, t).(ready := true)).(current := t, owed := false)
  {
    hide Leads;
    steps, e := Go(s, before, start, Wake(t));
    steps, e := Go(s, steps, e, Switch(t));
  }

  /** Task 0 takes the mutex; task 1 raises it and waits. */
  lemma Raises(s: Sys, before: seq<Step>, start: Sys) returns (steps: seq<Step>, e: Sys)
    requires Leads(s, before, start)
    requires Three(start, Rec(1, 1, 0, true, Out), Rec(2, 2, 0, false, Out), Rec(3, 3, 0, false, Out), Free, [], 0, false)
    ensures Leads(s, steps, e)
    ensures Three(e, Rec(1, 2, 1, true, Out), Rec(2, 2, 0, false, Waiting(7, true)), Rec(3, 3, 0, false, Out), Held(0), [1], 1, true)
  {
    hide Leads;
    steps, e := Takes(s, before, start);
    steps, e := Wakes(s, steps, e, 1);
    steps, e := Go(s, steps, e, Request(7, true));
    steps, e := Waits1(s, steps, e);
  }

  lemma Waits1(s: Sys, before: seq<Step>, start: Sys) returns (steps: seq<Step>, e: Sys)
    requires Leads(s, before, start)
    requires Three(start, Rec(1, 1, 1, true, Out), Rec(2, 2, 0, true, Trying(7, false, false)), Rec(3, 3, 0, false, Out), Held(0), [], 1, false)
    ensures Leads(s, steps, e)
    ensures Three(e, Rec(1, 2, 1, true, Out), Rec(2, 2, 0, false, Waiting(7, true)), Rec(3, 3, 0, false, Out), Held(0), [1], 1, true)
  {
    hide Leads;
    steps, e := Go(s, before, start, Look);
    assert Joined(e, 7) == [1];
    steps, e := Go(s, steps, e, Wait);
  }

  /** Its time runs out, but before it looks again task 0 gives the mutex back. */
  lemma Frees(s: Sys, before: seq<Step>, start: Sys) returns (steps: seq<Step>, e: Sys)
    requires Leads(s, before, start)
    requires Three(start, Rec(1, 2, 1, true, Out), Rec(2, 2, 0, false, Waiting(7, true)), Rec(3, 3, 0, false, Out), Held(0), [1], 1, true)
    ensures Leads(s, steps, e)
    ensures Three(e, Rec(1, 1, 0, true, Out), Rec(2, 2, 0, true, Expired(7, true, true)), Rec(3, 3, 0, false, Out), Free, [], 0, true)
  {
    hide Leads;
    assert Highest(start, 0);
    steps, e := Go(s, before, start, Switch(0));
    steps, e := TimesOut(s, steps, e);
    steps, e := TooLate(s, steps, e);
    steps, e := Gives(s, steps, e);
  }

  lemma TooLate(s: Sys, before: seq<Step>, start: Sys) returns (steps: seq<Step>, e: Sys)
    requires Leads(s, before, start)
    requires Three(start, Rec(1, 2, 1, true, Out), Rec(2, 2, 0, true, Trying(7, true, false)), Rec(3, 3, 0, false, Out), Held(0), [], 0, true)
    ensures Leads(s, steps, e)
    ensures Three(e, Rec(1, 2, 1, true, Out), Rec(2, 2, 0, true, Expired(7, true, true)), Rec(3, 3, 0, false, Out), Held(0), [], 1, false)
  {
    hide Leads;
    steps, e := Go(s, before, start, Switch(1));
    steps, e := Go(s, steps, e, Look);
    steps, e := Go(s, steps, e, Expire(false));
  }

  lemma Gives(s: Sys, before: seq<Step>, start: Sys) returns (steps: seq<Step>, e: Sys)
    requires Leads(s, before, start)
    requires Three(start, Rec(1, 2, 1, true, Out), Rec(2, 2, 0, true, Expired(7, true, true)), Rec(3, 3, 0, false, Out), Held(0), [], 1, false)
    ensures Leads(s, steps, e)
    ensures Three(e, Rec(1, 1, 0, true, Out), Rec(2, 2, 0, true, Expired(7, true, true)), Rec(3, 3, 0, false, Out), Free, [], 0, true)
  {
    hide Leads;
    steps, e := Go(s, before, start, Share);
    steps, e := Go(s, steps, e, Switch(0));
    steps, e := Go(s, steps, e, Give(7));
  }

  lemma TimesOut(s: Sys, before: seq<Step>, start: Sys) returns (steps: seq<Step>, e: Sys)
    requires Leads(s, before, start)
    requires Three(start, Rec(1, 2, 1, true, Out), Rec(2, 2, 0, false, Waiting(7, true)), Rec(3, 3, 0, false, Out), Held(0), [1], 0, false)
    ensures Leads(s, steps, e)
    ensures Three(e, Rec(1, 2, 1, true, Out), Rec(2, 2, 0, true, Trying(7, true, false)), Rec(3, 3, 0, false, Out), Held(0), [], 0, true)
  {
    hide Leads;
    steps, e := Go(s, before, start, TimeOut(1));
  }

  /** Task 1 finds it available; before it can try, task 2 takes it and sleeps; then task 1 tries. */
  lemma FirstRefusal() returns (s: Sys, steps: seq<Step>)
    ensures Fresh(s) && Legal(s, steps) && Careful(s, steps) && AssertionFails(Exec(s, steps))
  {
    hide Leads, Fresh;
    var e;
    s := Begins();
    steps, e := Raises(s, [], s);
    steps, e := Frees(s, steps, e);
    steps, e := Retakes(s, steps, e);
    Led(s, steps, e);
  }

  lemma Retakes(s: Sys, before: seq<Step>, start: Sys) returns (steps: seq<Step>, e: Sys)
    requires Leads(s, before, start)
    requires Three(start, Rec(1, 1, 0, true, Out), Rec(2, 2, 0, true, Expired(7, true, true)), Rec(3, 3, 0, false, Out), Free, [], 0, true)
    ensures Leads(s, steps, e) && AssertionFails(e)
  {
    hide Leads;
    steps, e := Go(s, before, start, Switch(1));
    steps, e := Go(s, steps, e, Test);
    steps, e := Wakes(s, steps, e, 2);
    steps, e := Takes(s, steps, e);
    steps, e := Tries(s, steps, e);
  }

  lemma Tries(s: Sys, before: seq<Step>, start: Sys) returns (steps: seq<Step>, e: Sys)
    requires Leads(s, before, start)
    requires Three(start, Rec(1, 1, 0, true, Out), Rec(2, 2, 0, true, Trying(7, true, true)), Rec(3, 3, 1, true, Out), Held(2), [], 2, false)
    ensures Leads(s, steps, e) && AssertionFails(e)
  {
    hide Leads;
    steps, e := Go(s, before, start, Sleep);
    steps, e := Go(s, steps, e, Switch(1));
  }

  lemma Led(s: Sys, steps: seq<Step>, e: Sys)
    requires Leads(s, steps, e)
    ensures Legal(s, steps) && Careful(s, steps) && Exec(s, steps) == e
  {
  }

  // ---- A task that waits for itself ----

  /** The running task gives up waiting for a mutex that it holds itself, and is to lower its own priority. */
  predicate OwnAssertionFails(s: Sys) {
    && Enabled(s, Undo) && Owner(s, Me(s).phase.m) == Held(s.current)
    && Recomputed(Me(s), HighestWaiting(s, Me(s).phase.m)) != Me(s)
  }

  /** uxMutexesHeld is right. */
  ghost predicate Counted(s: Sys) { forall t :: R(s, t).held == |Owned(s, t)| }

  /** Who has waited in this call holds nothing. */
  predicate EmptyHanded(s: Sys, t: Task) {
    var r := R(s, t);
    var waited := r.phase.Waiting? || r.phase.Undoing?
      || ((r.phase.Trying? || r.phase.Looked? || r.phase.Expired?) && r.phase.inherited);
    waited ==> r.held == 0
  }

  /** What a step does to the owners and the counts. */
  lemma StepHolds(s: Sys, step: Step, t: Task)
    requires Enabled(s, step) && (step.Give? ==> Me(s).held > 0)
    ensures var s', c := Apply(s, step), s.current;
      && s'.owner == (if step.Grab? then s.owner[Me(s).phase.m := Held(c)] else if step.Give? then s.owner[step.m := Free] else s.owner)
      && R(s', t).held == R(s, t).held + (if t != c then 0 else if step.Grab? then 1 else if step.Give? then -1 else 0)
  {
    hide Joined, HighestWaiting, Without;
  }

  lemma CountedStep(s: Sys, step: Step)
    requires Counted(s) && Enabled(s, step)
    ensures Counted(Apply(s, step))
  {
    hide Apply, Enabled, Owned;
    var s' := Apply(s, step);
    if step.Give? { GiverOwns(s, step.m); }
    assert Me(s).held == |Owned(s, s.current)|;
    forall t ensures R(s', t).held == |Owned(s', t)| {
      assert R(s, t).held == |Owned(s, t)|;
      StepHolds(s, step, t);
      OwnedAfter(s, s', step, t);
    }
  }

  lemma OwnedAfter(s: Sys, s': Sys, step: Step, t: Task)
    requires Enabled(s, step)
    requires s'.owner == if step.Grab? then s.owner[Me(s).phase.m := Held(s.current)] else if step.Give? then s.owner[step.m := Free]
                         else s.owner
    ensures |Owned(s', t)| == |Owned(s, t)| + if t != s.current then 0 else if step.Grab? then 1 else if step.Give? then -1 else 0
  {
    GrabsFree(s, step);
    if step.Give? { GiverOwns(s, step.m); }
    hide Enabled, Owned;
    if step.Grab? {
      OwnedMore(s, s', Me(s).phase.m, s.current, t);
    } else if step.Give? {
      OwnedLess(s, s', step.m, s.current, t);
    } else {
      OwnedSame(s, s', t);
    }
  }

  lemma OwnedMore(s: Sys, s': Sys, m: MutexId, c: Task, t: Task)
    requires s'.owner == s.owner[m := Held(c)] && m !in Owned(s, t)
    ensures |Owned(s', t)| == |Owned(s, t)| + if t == c then 1 else 0
  {
    assert Owned(s', t) == if t == c then Owned(s, t) + {m} else Owned(s, t);
  }

  lemma OwnedLess(s: Sys, s': Sys, m: MutexId, c: Task, t: Task)
    requires s'.owner == s.owner[m := Free] && m in s.owner && s.owner[m] == Held(c)
    ensures |Owned(s', t)| == |Owned(s, t)| - if t == c then 1 else 0
  {
    assert t == c ==> m in Owned(s, t);
    assert Owned(s', t) == if t == c then Owned(s, t) - {m} else Owned(s, t);
  }

  lemma OwnedSame(s: Sys, s': Sys, t: Task)
    requires s'.owner == s.owner
    ensures Owned(s', t) == Owned(s, t)
  {
  }

  lemma GiverOwns(s: Sys, m: MutexId)
    requires Enabled(s, Give(m))
    ensures m in Owned(s, s.current) && m in s.owner && s.owner[m] == Held(s.current)
  {
  }

  lemma GrabsFree(s: Sys, step: Step)
    requires Enabled(s, step)
    ensures step.Grab? ==> forall t :: Me(s).phase.m !in Owned(s, t)
  {
  }

  lemma EmptyHandedStep(s: Sys, step: Step)
    requires Enabled(s, step) && !Nests(s, step) && forall t :: EmptyHanded(s, t)
    ensures forall t :: EmptyHanded(Apply(s, step), t)
  {
    hide Joined, HighestWaiting, Without;
    forall t ensures EmptyHanded(Apply(s, step), t) { assert EmptyHanded(s, t) && EmptyHanded(s, s.current); }
  }

  lemma {:induction false} CountedRun(s: Sys, steps: seq<Step>)
    requires Counted(s) && Legal(s, steps)
    ensures Counted(Exec(s, steps))
    ensures (forall t :: EmptyHanded(s, t)) && NoneNests(s, steps) ==> forall t :: EmptyHanded(Exec(s, steps), t)
    decreases |steps|
  {
    hide Counted, Apply, Enabled, Nests, EmptyHanded;
    if steps != [] {
      CountedStep(s, steps[0]);
      if (forall t :: EmptyHanded(s, t)) && !Nests(s, steps[0]) { EmptyHandedStep(s, steps[0]); }
      CountedRun(Apply(s, steps[0]), steps[1..]);
    }
  }

  /** A task that gives up always finds a holder with a mutex (tasks.c:3978) or none; and it never is that holder
      itself, to be lowered, unless some wait of the run was nested. */
  lemma FailsOnlyNested(s: Sys, steps: seq<Step>)
    requires Fresh(s) && Legal(s, steps)
    ensures var e := Exec(s, steps);
      && (forall m :: m in e.owner && e.owner[m].Held? ==> R(e, e.owner[m].task).held >= 1)
      && (OwnAssertionFails(e) ==> !NoneNests(s, steps))
  {
    var e := Exec(s, steps);
    forall t ensures R(s, t).held == |Owned(s, t)| && EmptyHanded(s, t) { assert Owned(s, t) == {}; }
    CountedRun(s, steps);
    hide Legal, Exec, NoneNests, Fresh;
    forall m | m in e.owner && e.owner[m].Held? ensures R(e, e.owner[m].task).held >= 1 {
      assert m in Owned(e, e.owner[m].task);
    }
    if OwnAssertionFails(e) { assert !EmptyHanded(e, e.current); }
  }
}
