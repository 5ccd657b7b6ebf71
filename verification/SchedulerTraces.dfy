/** What runs of the scheduler do to one task, from what each operation does to it. */
module SchedulerTraces {
  import opened Machine
  import ItemStore
  import opened Scheduler
  import opened SchedulerSteps
  import opened SchedulerRuns
  import SchedulerSwitch
  import opened SchedulerEffects

  // ---- suspension ----

  /** What vTaskResume does: a task in the suspended list that waits for nothing is made ready, at its own
      priority, with a switch asked for if it is of at least the running task's; otherwise nothing changes. */
  lemma ResumeDoes(s: Sched, t: Task)
    requires Inv(s) && Enabled(s, ResumeTask(t))
    ensures var s' := Apply(s, ResumeTask(t));
      if IsSuspended(s, t) then
        && InList(s', t, Ready(Prio(s, t))) && t !in s'.event.at && Prio(s', t) == Prio(s, t)
        && (forall u :: u != t ==> Seen(s', u) == Seen(s, u))
        && (s'.owed <==> s.owed || Prio(s, t) >= Prio(s, s.current))
      else s' == s
  {
    hide Inv, Apply, Enabled;
    Keys(s);
    EnabledSane(s, ResumeTask(t));
    StepExact(s, ResumeTask(t));
    ResumedTcb(s, t);
    SuspendedIsParked(s, t);
    assert Seen(Apply(s, ResumeTask(t)), t) == After(s, ResumeTask(t), t);
    forall u | u != t ensures Seen(Apply(s, ResumeTask(t)), u) == Seen(s, u) {
      assert Seen(Apply(s, ResumeTask(t)), u) == After(s, ResumeTask(t), u);
    }
  }

  lemma ResumedTcb(s: Sched, t: Task)
    ensures var s' := Apply(s, ResumeTask(t));
      if t != s.current && IsSuspended(s, t) then s'.tcbs == s.tcbs && InList(s', t, Ready(Prio(s, t))) else s' == s
  {
    hide ItemStore.Take;
  }

  /** Whether the step suspends, resumes or deletes t, by its name alone. */
  predicate StoppedBy(was: bool, step: Step, t: Task) {
    match step
    case SuspendTask(x) => was || x == t
    case ResumeTask(x) => was && x != t
    case ResumeFromIsr(x) => was && x != t
    case DeleteTask(x) => was && x != t
    case _ => was
  }

  /** The same of a run: the last step that suspends, resumes or deletes t decides. */
  predicate StoppedAfter(was: bool, steps: seq<Step>, t: Task)
    decreases |steps|
  {
    if steps == [] then was else StoppedAfter(StoppedBy(was, steps[0], t), steps[1..], t)
  }

  /** What the caller of the step can count on: whoever executes code of its own is runnable, the head of a wait
      list waits there, and the head of the termination list is dead. */
  predicate Sane(s: Sched, step: Step) {
    && (step.Tick? || step.PendSv? || step.ResumeScheduler? || step.Yield? || step.WakeFirst? || step.WakeOne?
        || step.ResumeFromIsr? || RunsAt(Seen(s, s.current), Prio(s, s.current)))
    && (step.SuspendTask? ==> Seen(s, step.t).Card?)
    && (step.WakeOne? ==> Seen(s, step.t).Card? && Seen(s, step.t).wait.On?)
    && (step.WakeFirst? || step.GiveMutex? ==> HeadIs(s, InEvent(s, WaitList(step.q)), (c: Card) => WaitsIn(c, step.q)))
    && (step.CleanUp? ==> HeadIs(s, InState(s, Terminated), (c: Card) => c.Card? && c.place.Dead?))
  }

  predicate HeadIs(s: Sched, l: seq<Task>, p: Card -> bool) { l == [] || p(Seen(s, l[0])) }

  predicate WaitsIn(c: Card, q: nat) { c.Card? && c.wait == On(WaitList(q)) }

  lemma EnabledSane(s: Sched, step: Step)
    requires Inv(s) && Enabled(s, step)
    ensures Sane(s, step)
  {
    hide SchedulerLists.Core;
    Keys(s);
    match step {
      case WakeFirst(q) => HeadWaits(s, q);
      case GiveMutex(q) => if InEvent(s, WaitList(q)) != [] { HeadWaits(s, q); }
      case CleanUp => SchedulerSwitch.DeletedHead(s);
      case WakeOne(t, _) => assert t in s.event.at.Keys;
      case _ =>
    }
  }

  lemma StopStep(s: Sched, step: Step, t: Task)
    requires Sane(s, step)
    ensures IdlyParked(After(s, step, t)) <==> StoppedBy(IdlyParked(Seen(s, t)), step, t)
  {
    hide Seen;
  }

  /** A task is in the suspended list, waiting for nothing, exactly from its suspension to the next step that
      resumes or deletes it, whatever else happens. */
  lemma {:induction false} SuspendedExactly(s: Sched, steps: seq<Step>, t: Task)
    requires Inv(s) && Legal(s, steps)
    ensures IsSuspended(Exec(s, steps), t) <==> StoppedAfter(IsSuspended(s, t), steps, t)
    decreases |steps|
  {
    hide Inv, Apply, Enabled, IsSuspended, IdlyParked, Sane, StoppedBy, Seen, After;
    SuspendedIsParked(s, t);
    if steps != [] {
      var step, s' := steps[0], Apply(s, steps[0]);
      EnabledSane(s, step);
      StopStep(s, step, t);
      Fate(s, step, t);
      StepKept(s, step);
      SuspendedIsParked(s', t);
      SuspendedExactly(s', steps[1..], t);
    }
  }

  lemma SuspendedIsParked(s: Sched, t: Task)
    requires Inv(s)
    ensures IsSuspended(s, t) <==> IdlyParked(Seen(s, t))
  {
    Keys(s);
  }

  // ---- the value of an event item ----

  /** t waits in list q and is not runnable. */
  predicate Blocked(c: Card, q: nat) { WaitsIn(c, q) && (c.place.Parked? || c.place.Asleep?) }

  /** In every state of the run t waits in list q. */
  predicate StaysIn(s: Sched, steps: seq<Step>, t: Task, q: nat)
    decreases |steps|
  {
    WaitsIn(Seen(s, t), q) && (steps == [] || StaysIn(Apply(s, steps[0]), steps[1..], t, q))
  }

  lemma BlockedStep(s: Sched, step: Step, t: Task, q: nat)
    requires Sane(s, step) && Blocked(Seen(s, t), q) && WaitsIn(After(s, step, t), q)
    ensures Blocked(After(s, step, t), q)
    ensures Seen(s, t).value >= IN_USE ==> After(s, step, t).value == Seen(s, t).value
  {
    hide Seen;
  }

  lemma {:induction false} LentWhileWaiting(s: Sched, steps: seq<Step>, t: Task, q: nat)
    requires Inv(s) && Legal(s, steps) && StaysIn(s, steps, t, q) && Blocked(Seen(s, t), q) && Seen(s, t).value >= IN_USE
    ensures Seen(Exec(s, steps), t).Card? && Seen(Exec(s, steps), t).value == Seen(s, t).value
    decreases |steps|
  {
    hide Inv, Apply, Enabled, Sane, Seen, After;
    if steps != [] {
      var step, s' := steps[0], Apply(s, steps[0]);
      EnabledSane(s, step);
      Fate(s, step, t);
      StepKept(s, step);
      assert WaitsIn(Seen(s', t), q);
      BlockedStep(s, step, t, q);
      LentWhileWaiting(s', steps[1..], t, q);
    }
  }

  /** The bits that a task waits for in an event group stand in its event item, with the mark, for as long as it
      waits: no change of its priority touches them, by whatever road. */
  lemma WantedBitsStay(s: Sched, q: nat, v: Machine.Tick, n: Machine.Tick, steps: seq<Step>)
    requires Inv(s) && Enabled(s, WaitUnordered(q, v, n))
    requires var s' := Apply(s, WaitUnordered(q, v, n)); Legal(s', steps) && StaysIn(s', steps, s.current, q)
    ensures T(Exec(Apply(s, WaitUnordered(q, v, n)), steps), s.current).eventValue == IN_USE + v
  {
    var step := WaitUnordered(q, v, n);
    hide Apply, Exec, Legal, StaysIn, Sane;
    EnabledSane(s, step);
    WaitCard(s, q, v, n);
    Fate(s, step, s.current);
    StepKept(s, step);
    hide Inv, Enabled, After, Kept;
    LentWhileWaiting(Apply(s, step), steps, s.current, q);
  }

  lemma WaitCard(s: Sched, q: nat, v: Machine.Tick, n: Machine.Tick)
    requires Inv(s) && Enabled(s, WaitUnordered(q, v, n))
    ensures var c := After(s, WaitUnordered(q, v, n), s.current); Blocked(c, q) && c.value == IN_USE + v
  {
    Keys(s);
    hide Inv;
  }

  /** The step gives t's event item another use: it is written by a set of event bits, taken back by t, lent again,
      reset when t gives up an inherited priority, or gone with t. */
  predicate TakesItem(s: Sched, step: Step, t: Task) {
    match step
    case WakeOne(x, _) => x == t
    case WaitUnordered(_, _, _) => t == s.current
    case ResetItemValue => t == s.current
    case GiveMutex(_) => t == s.current
    case DeleteTask(x) => x == t
    case CleanUp => First(InState(s, Terminated), t)
    case _ => false
  }

  predicate NeverTaken(s: Sched, steps: seq<Step>, t: Task)
    decreases |steps|
  {
    steps == [] || (!TakesItem(s, steps[0], t) && NeverTaken(Apply(s, steps[0]), steps[1..], t))
  }

  lemma LentStep(s: Sched, step: Step, t: Task)
    requires Seen(s, t).Card? && Seen(s, t).value >= IN_USE && !TakesItem(s, step, t)
    ensures After(s, step, t).Card? && After(s, step, t).value == Seen(s, t).value
  {
    hide Seen;
  }

  lemma {:induction false} LentStays(s: Sched, steps: seq<Step>, t: Task)
    requires Inv(s) && Legal(s, steps) && NeverTaken(s, steps, t) && Seen(s, t).Card? && Seen(s, t).value >= IN_USE
    ensures Seen(Exec(s, steps), t).Card? && Seen(Exec(s, steps), t).value == Seen(s, t).value
    decreases |steps|
  {
    hide Inv, Apply, Enabled, TakesItem, Seen, After;
    if steps != [] {
      var step, s' := steps[0], Apply(s, steps[0]);
      LentStep(s, step, t);
      Fate(s, step, t);
      StepKept(s, step);
      LentStays(s', steps[1..], t);
    }
  }

  /** The event bits handed to a task by a set stand in its item until the task takes them. */
  lemma GrantedBitsStay(s: Sched, t: Task, v: Machine.Tick, steps: seq<Step>)
    requires Inv(s) && Enabled(s, WakeOne(t, v))
    requires Legal(Apply(s, WakeOne(t, v)), steps) && NeverTaken(Apply(s, WakeOne(t, v)), steps, t)
    ensures T(Exec(Apply(s, WakeOne(t, v)), steps), t).eventValue == IN_USE + v
  {
    var step := WakeOne(t, v);
    hide Apply, Exec, Legal, NeverTaken;
    EnabledSane(s, step);
    assert After(s, step, t).Card? && After(s, step, t).value == IN_USE + v by { hide Inv, Enabled, Seen; }
    Fate(s, step, t);
    StepKept(s, step);
    hide Inv, Enabled, After, Kept, Sane;
    LentStays(Apply(s, step), steps, t);
  }

  /** An event item that is not lent orders its task in the waiting lists by its priority, or by the base priority
      that was set while the task ran on an inherited one. */
  predicate Priced(s: Sched, t: Task) {
    var c := Seen(s, t);
    c.Card? ==> c.value >= IN_USE || c.value == s.levels - c.prio || c.value == s.levels - c.base
  }

  lemma PricedStep(s: Sched, step: Step, t: Task)
    requires Priced(s, t)
    ensures var c := After(s, step, t);
      c.Card? ==> c.value >= IN_USE || c.value == s.levels - c.prio || c.value == s.levels - c.base
  {
    hide Seen;
  }

  lemma {:induction false} ItemsPriced(s: Sched, steps: seq<Step>, t: Task)
    requires Inv(s) && Legal(s, steps) && Priced(s, t)
    ensures Priced(Exec(s, steps), t)
    decreases |steps|
  {
    hide Inv, Apply, Enabled, Seen, After, Books, Owes, Notes;
    if steps != [] {
      var step, s' := steps[0], Apply(s, steps[0]);
      PricedStep(s, step, t);
      StepExact(s, step);
      StepKept(s, step);
      assert Seen(s', t) == After(s, step, t) && s'.levels == s.levels by { BooksLevels(s, step, s'); }
      ItemsPriced(s', steps[1..], t);
    }
  }

  lemma BooksLevels(s: Sched, step: Step, s': Sched)
    requires Books(s, step, s')
    ensures s'.levels == s.levels
  {
  }

  // ---- a wait without a time limit ----

  /** The step wakes, suspends or deletes t. */
  predicate EndsWait(s: Sched, step: Step, t: Task) {
    match step
    case WakeFirst(q) => First(InEvent(s, WaitList(q)), t)
    case GiveMutex(q) => First(InEvent(s, WaitList(q)), t)
    case WakeOne(x, _) => x == t
    case SuspendTask(x) => x == t
    case DeleteTask(x) => x == t
    case _ => false
  }

  predicate NeverEnded(s: Sched, steps: seq<Step>, t: Task)
    decreases |steps|
  {
    steps == [] || (!EndsWait(s, steps[0], t) && NeverEnded(Apply(s, steps[0]), steps[1..], t))
  }

  lemma ForeverStep(s: Sched, step: Step, t: Task, q: nat)
    requires Sane(s, step) && WaitsIn(Seen(s, t), q) && Seen(s, t).place.Parked? && !EndsWait(s, step, t)
    ensures WaitsIn(After(s, step, t), q) && After(s, step, t).place.Parked?
  {
    hide Seen;
  }

  /** No number of ticks ends a wait without a time limit. */
  lemma {:induction false} WaitsForever(s: Sched, steps: seq<Step>, t: Task, q: nat)
    requires Inv(s) && Legal(s, steps) && NeverEnded(s, steps, t) && WaitsIn(Seen(s, t), q) && Seen(s, t).place.Parked?
    ensures InList(Exec(s, steps), t, Suspended) && t in InEvent(Exec(s, steps), WaitList(q))
    decreases |steps|
  {
    if steps == [] {
      hide Exec;
      assert s.event.at[t] == WaitList(q);
      assert t in InEvent(s, WaitList(q));
    } else {
      hide Inv, Apply, Enabled, EndsWait, Seen, After, Sane;
      var step, s' := steps[0], Apply(s, steps[0]);
      EnabledSane(s, step);
      ForeverStep(s, step, t, q);
      Fate(s, step, t);
      StepKept(s, step);
      WaitsForever(s', steps[1..], t, q);
    }
  }

  // ---- the idle task ----

  /** A dead task is in the termination list, and no other is. */
  lemma DeadListed(s: Sched, t: Task)
    requires Inv(s)
    ensures Seen(s, t).Card? && Seen(s, t).place.Dead? <==> t in InState(s, Terminated)
  {
    Keys(s);
    if t in InState(s, Terminated) { assert s.state.at[t] == Terminated; }
  }

  lemma OneFreed(s: Sched)
    requires Inv(s) && IsReady(s, s.current) && !s.blocking && s.deleted > 0
    ensures var s' := Cleanup(s);
      && Inv(s') && IsReady(s', s'.current) && !s'.blocking && s'.deleted == s.deleted - 1
      && (forall t :: Seen(s', t) == if First(InState(s, Terminated), t) then Unknown else Seen(s, t))
      && s' == s.(state := s'.state, tcbs := s'.tcbs, numTasks := s.numTasks - 1, deleted := s.deleted - 1)
  {
    Freeing(s);
    hide Inv, Cleanup, Enabled, IsReady, Seen;
    StepExact(s, CleanUp);
    StepKept(s, CleanUp);
    Fate(s, CleanUp, s.current);
    forall t ensures Seen(Cleanup(s), t) == if First(InState(s, Terminated), t) then Unknown else Seen(s, t) {
      Fate(s, CleanUp, t);
    }
    StillReady(s, Cleanup(s));
  }

  lemma Freeing(s: Sched)
    requires Inv(s) && IsReady(s, s.current) && !s.blocking && s.deleted > 0
    ensures Enabled(s, CleanUp) && !First(InState(s, Terminated), s.current)
    ensures var s' := Cleanup(s); s' == s.(state := s'.state, tcbs := s'.tcbs, numTasks := s.numTasks - 1, deleted := s.deleted - 1)
  {
    SchedulerSwitch.DeletedHead(s);
    Keys(s);
    hide SchedulerLists.Core, ItemStore.Take;
  }

  lemma StillReady(s: Sched, s': Sched)
    requires IsReady(s, s.current) && s.current in s.tcbs && s'.current == s.current && Seen(s', s.current) == Seen(s, s.current)
    ensures IsReady(s', s'.current)
  {
  }

  /** The idle task frees every dead task, and does nothing to any other. */
  lemma {:induction false} AllFreed(s: Sched)
    requires Inv(s) && IsReady(s, s.current) && !s.blocking
    ensures var s' := CleanupAll(s, s.deleted);
      && Inv(s') && s'.deleted == 0 && s' == s.(state := s'.state, tcbs := s'.tcbs, numTasks := s'.numTasks, deleted := 0)
      && forall t :: Seen(s', t) == if Seen(s, t).Card? && Seen(s, t).place.Dead? then Unknown else Seen(s, t)
    decreases s.deleted
  {
    hide Inv, IsReady, Cleanup, Seen;
    if s.deleted > 0 {
      var m := Cleanup(s);
      OneFreed(s);
      AllFreed(m);
      HeadDead(s);
    } else {
      NobodyDead(s);
    }
  }

  lemma HeadDead(s: Sched)
    requires Inv(s) && s.deleted > 0 && IsReady(s, s.current)
    ensures var l := InState(s, Terminated); l != [] && Seen(s, l[0]).Card? && Seen(s, l[0]).place.Dead?
  {
    SchedulerSwitch.DeletedHead(s);
    hide SchedulerLists.Core;
    Keys(s);
  }

  lemma NobodyDead(s: Sched)
    requires Inv(s) && s.deleted == 0
    ensures forall t :: !(Seen(s, t).Card? && Seen(s, t).place.Dead?)
  {
    Keys(s);
    forall t ensures !(Seen(s, t).Card? && Seen(s, t).place.Dead?) { DeadListed(s, t); }
  }
}
