/** vTaskPriorityDisinheritAfterTimeout clears the ready bit of the wrong priority (tasks.c:4035), which
    does harm only if the holder was alone in its old ready list. In the runs of the mutex protocol it
    never is: another ready task has the priority that the holder gives up. */
module MutexBitmap {
  import opened Mutex
  import opened MutexKept
  import opened MutexRuns
  import Scheduler
  import SchedulerSteps
  import opened ListModel

  /** t may yet take an inheritance back on m. */
  predicate Undoes(s: Sys, m: MutexId, t: Task) {
    var p := R(s, t).phase;
    (p.Undoing? && p.m == m) || (Loops(p) && p.m == m && p.inherited)
  }

  /** In its loop, and not blocked. */
  predicate Loops(p: Phase) { p.Trying? || p.Looked? || p.Expired? }

  /** x is ready, in a call on m, and holds nothing. */
  predicate Lingers(s: Sys, m: MutexId, x: Task) {
    (Loops(R(s, x).phase) || R(s, x).phase.Undoing?) && R(s, x).phase.m == m && R(s, x).held == 0
  }

  /** The holder's priority is its own, or that of a task waiting for m, or of one that lingers. */
  ghost predicate Sourced(s: Sys, m: MutexId, h: Task) {
    || Prio(s, h) == R(s, h).base
    || (exists x :: x in W(s, m) && Prio(s, x) == Prio(s, h))
    || (exists x :: Lingers(s, m, x) && x != h && Prio(s, x) == Prio(s, h))
  }

  ghost predicate Explained(s: Sys, m: MutexId, t: Task) {
    Undoes(s, m, t) && Owner(s, m).Held? ==>
      Prio(s, Owner(s, m).task) >= Prio(s, t) || Sourced(s, m, Owner(s, m).task)
  }

  ghost predicate AllExplained(s: Sys) { forall m, t :: Explained(s, m, t) }

  lemma SourcedStill(s: Sys, s': Sys, m: MutexId, h: Task)
    requires Sourced(s, m, h) && Prio(s', h) == Prio(s, h) && R(s', h).base == R(s, h).base
    requires forall x :: x in W(s, m) ==> Prio(s', x) == Prio(s, x) && (x in W(s', m) || (Lingers(s', m, x) && x != h))
    requires forall x :: Lingers(s, m, x) && Prio(s, x) == Prio(s, h) && x != h ==>
      Lingers(s', m, x) && Prio(s', x) == Prio(s, x)
    ensures Sourced(s', m, h)
  {
    hide Lingers;
    if x :| x in W(s, m) && Prio(s, x) == Prio(s, h) {
      assert x in W(s', m) || Lingers(s', m, x);
    } else if x :| Lingers(s, m, x) && x != h && Prio(s, x) == Prio(s, h) {
      assert Lingers(s', m, x);
    }
  }

  /** While the running task runs, t is ready and does not outrank it. */
  lemma NotAbove(s: Sys, t: Task)
    requires Inv(s) && Runs(s) && IsReady(s, t)
    ensures Prio(s, t) <= Me(s).prio
  {
  }

  /** A step by the running task, or from outside, that changes no priority and no owner, and no phase but
      the running task's. */
  lemma PhaseStep(s: Sys, s': Sys, c: Task, m: MutexId, t: Task)
    requires Inv(s) && Explained(s, m, t) && Undoes(s', m, t) && Undoes(s, m, t)
    requires Runs(s) && c == s.current
    requires s' == Put(s, c, R(s', c)).(owed := s'.owed) && R(s', c).prio == R(s, c).prio && R(s', c).base == R(s, c).base
    ensures Explained(s', m, t)
  {
    assert InPhase(s, t);
    NotAbove(s, t);
    hide Inv;
    if Owner(s, m).Held? && Prio(s, Owner(s, m).task) < Prio(s, t) {
      SourcedStill(s, s', m, Owner(s, m).task);
    }
  }

  lemma OutsideStep(s: Sys, s': Sys, m: MutexId, t: Task)
    requires Explained(s, m, t) && s'.owner == s.owner && s'.waiting == s.waiting
    requires forall x :: R(s', x) == R(s, x) || (R(s, x).phase.Out? && R(s', x) == R(s, x).(ready := R(s', x).ready))
    ensures Explained(s', m, t)
  {
    if Undoes(s', m, t) && Owner(s, m).Held? && Prio(s, Owner(s, m).task) < Prio(s, t) {
      SourcedStill(s, s', m, Owner(s, m).task);
    }
  }

  lemma GrabExplained(s: Sys, m: MutexId, t: Task)
    requires Inv(s) && Enabled(s, Grab) && Explained(s, m, t)
    ensures Explained(Apply(s, Grab), m, t)
  {
    var s', c := Apply(s, Grab), s.current;
    assert InPhase(s, t) && InPhase(s, c);
    if Undoes(s', m, t) {
      NotAbove(s, t);
      hide Inv, InPhase;
      if m != Me(s).phase.m && Owner(s, m).Held? && Prio(s, Owner(s, m).task) < Prio(s, t) {
        SourcedStill(s, s', m, Owner(s, m).task);
      }
    }
  }

  lemma WaitExplained(s: Sys, m: MutexId, t: Task)
    requires Inv(s) && Enabled(s, Wait) && !Nests(s, Wait) && Explained(s, m, t)
    ensures Explained(Apply(s, Wait), m, t)
  {
    var s', c, m0 := Apply(s, Wait), s.current, Me(s).phase.m;
    var h0 := Owner(s, m0).task;
    OwnerHolds(s, m0);
    WaitStep(s);
    WaitFrame(s, m0, h0);
    JoinedItems(s, m0) by { assert Ordered(s, m0) && InPhase(s, c); }
    assert InPhase(s, t) && Ordered(s, m);
    hide Apply, Waits, Joined;
    if Undoes(s', m, t) {
      assert t != c && t != h0;
      NotAbove(s, t);
      hide Inv, InPhase;
      if Owner(s, m).Held? && Prio(s', Owner(s, m).task) < Prio(s, t) {
        assert forall x :: x in W(s, m) ==> x != c && x != h0;
        SourcedStill(s, s', m, Owner(s, m).task);
      }
    }
  }

  /** Undoing recomputes the holder's priority from the tasks that still wait. */
  lemma UndoneSourced(s: Sys, m: MutexId)
    requires Inv(s) && Enabled(s, Undo) && Owner(s, m).Held?
    requires R(Apply(s, Undo), Owner(s, m).task) != R(s, Owner(s, m).task)
    ensures Sourced(Apply(s, Undo), m, Owner(s, m).task)
  {
    var s', h := Apply(s, Undo), Owner(s, m).task;
    UndoFrame(s, s');
    OwnerHolds(s, m);
    if Owner(s, Me(s).phase.m).Held? { OwnerHolds(s, Me(s).phase.m); }
    assert Ordered(s, m) && m == Me(s).phase.m;
    hide Inv, Apply;
    if W(s, m) != [] { assert W(s', m)[0] in W(s, m); }
  }

  lemma UndoExplained(s: Sys, m: MutexId, t: Task)
    requires Inv(s) && Enabled(s, Undo) && Explained(s, m, t)
    ensures Explained(Apply(s, Undo), m, t)
  {
    var s', c, m0 := Apply(s, Undo), s.current, Me(s).phase.m;
    UndoFrame(s, s');
    assert InPhase(s, t) && InPhase(s, c) && Ordered(s, m);
    if Undoes(s', m, t) && Owner(s, m).Held? {
      var h := Owner(s, m).task;
      assert t != c;
      NotAbove(s, t);
      OwnerHolds(s, m);
      if Owner(s, m0).Held? { OwnerHolds(s, m0); }
      if R(s', h) != R(s, h) { UndoneSourced(s, m); }
      hide Inv, InPhase, Apply;
      if R(s', h) == R(s, h) && Prio(s, h) < Prio(s, t) {
        SourcedStill(s, s', m, h);
      }
    }
  }

  lemma TimeOutExplained(s: Sys, t0: Task, m: MutexId, t: Task)
    requires Inv(s) && Enabled(s, TimeOut(t0)) && Explained(s, m, t)
    ensures Explained(Apply(s, TimeOut(t0)), m, t)
  {
    var s' := Apply(s, TimeOut(t0));
    ReleasedFrame(s, t0);
    assert InPhase(s, t0) && Ordered(s, R(s, t0).phase.m) && Inherited(s, m) && Ordered(s, m);
    WithoutItems(W(s, R(s, t0).phase.m), t0);
    if Owner(s, m).Held? { OwnerHolds(s, m); }
    hide Inv, Released, Without, InPhase;
    if Undoes(s', m, t) && Owner(s, m).Held? && t != t0 && Prio(s, Owner(s, m).task) < Prio(s, t) {
      SourcedStill(s, s', m, Owner(s, m).task);
    }
  }

  lemma GiveExplained(s: Sys, m0: MutexId, m: MutexId, t: Task)
    requires Inv(s) && Enabled(s, Give(m0)) && Explained(s, m, t)
    ensures Explained(Apply(s, Give(m0)), m, t)
  {
    var s', s1, c := Apply(s, Give(m0)), Handed(s, m0), s.current;
    HandedFrame(s, m0);
    assert s1 == Handed(s, m0);
    assert Ordered(s, m0) && Ordered(s, m);
    if W(s, m0) != [] {
      assert InPhase(s, W(s, m0)[0]);
      ReleasedFrame(s1, W(s, m0)[0]);
    }
    if m != m0 && Undoes(s', m, t) && Owner(s, m).Held? {
      assert InPhase(s, t);
      OwnerHolds(s, m);
      OwnerHolds(s, m0);
      assert Undoes(s, m, t);
      NotAbove(s, t);
      hide Inv, InPhase, Handed, Released;
      if Prio(s, Owner(s, m).task) < Prio(s, t) {
        SourcedStill(s, s', m, Owner(s, m).task);
      }
    }
  }

  lemma QuietExplained(s: Sys, step: Step, m: MutexId, t: Task)
    requires Inv(s) && Enabled(s, step) && Explained(s, m, t)
    requires !step.Grab? && !step.Wait? && !step.Undo? && !step.Give? && !step.TimeOut?
    ensures Explained(Apply(s, step), m, t)
  {
    var s' := Apply(s, step);
    if step.Wake? || step.Share? || step.Switch? {
      hide Inv;
      OutsideStep(s, s', m, t);
    } else if Undoes(s', m, t) {
      PhaseStep(s, s', s.current, m, t);
    }
  }

  lemma StepExplained(s: Sys, step: Step)
    requires Inv(s) && Enabled(s, step) && !Nests(s, step) && AllExplained(s)
    ensures AllExplained(Apply(s, step))
  {
    hide Inv, Apply, Explained;
    forall m, t ensures Explained(Apply(s, step), m, t) {
      assert Explained(s, m, t);
      match step {
        case Grab => GrabExplained(s, m, t);
        case Wait => WaitExplained(s, m, t);
        case Undo => UndoExplained(s, m, t);
        case Give(m0) => GiveExplained(s, m0, m, t);
        case TimeOut(t0) => TimeOutExplained(s, t0, m, t);
        case _ => QuietExplained(s, step, m, t);
      }
    }
  }

  lemma {:induction false} RunExplained(s: Sys, steps: seq<Step>)
    requires Inv(s) && AllExplained(s) && Legal(s, steps) && Careful(s, steps)
    ensures Inv(Exec(s, steps)) && AllExplained(Exec(s, steps))
    decreases |steps|
  {
    hide Inv, AllExplained, Apply;
    if steps != [] {
      StepKept(s, steps[0]);
      StepExplained(s, steps[0]);
      RunExplained(Apply(s, steps[0]), steps[1..]);
    }
  }

  /** When a time-out lowers a ready holder, another ready task has the holder's old priority. */
  lemma NotAlone(s: Sys)
    requires Inv(s) && AllExplained(s) && Enabled(s, Undo) && Owner(s, Me(s).phase.m).Held?
    requires var h := Owner(s, Me(s).phase.m).task;
      IsReady(s, h) && Recomputed(R(s, h), HighestWaiting(s, Me(s).phase.m)) != R(s, h)
    ensures var h := Owner(s, Me(s).phase.m).task;
      exists x :: x != h && IsReady(s, x) && Prio(s, x) == Prio(s, h)
  {
    var c, m := s.current, Me(s).phase.m;
    var h := Owner(s, m).task;
    OwnerHolds(s, m);
    assert Explained(s, m, c) && InPhase(s, c) && Ordered(s, m) && Inherited(s, m);
    NotAbove(s, h);
    if Prio(s, h) == Prio(s, c) {
      assert c != h && IsReady(s, c);
    } else {
      HeadHighest(s, m);
      if x :| Lingers(s, m, x) && x != h && Prio(s, x) == Prio(s, h) {
        assert InPhase(s, x) && IsReady(s, x);
      }
    }
  }

  lemma HeadHighest(s: Sys, m: MutexId)
    requires Ordered(s, m)
    ensures forall x :: x in W(s, m) ==> Prio(s, x) <= HighestWaiting(s, m)
  {
    forall x | x in W(s, m) ensures Prio(s, x) <= HighestWaiting(s, m) {
      var i :| 0 <= i < |W(s, m)| && W(s, m)[i] == x;
      assert i > 0 ==> Prio(s, W(s, m)[0]) >= Prio(s, W(s, m)[i]);
    }
  }

  // ---- The ready bitmap ----

  lemma TwoInList(z: Scheduler.Sched, h: Task, x: Task)
    requires SchedulerSteps.Inv(z) && Scheduler.IsReady(z, h) && Scheduler.IsReady(z, x) && x != h
    requires Scheduler.Prio(z, x) == Scheduler.Prio(z, h)
    ensures |Scheduler.InState(z, Scheduler.Ready(Scheduler.Prio(z, h)))| >= 2
  {
    var l := Scheduler.Ready(Scheduler.Prio(z, h));
    assert z.state.at[h] == l && z.state.at[x] == l;
    assert h in Scheduler.InState(z, l) && x in Scheduler.InState(z, l);
  }

  lemma FreshExplained(s: Sys)
    requires Fresh(s)
    ensures AllExplained(s)
  {
  }
}
