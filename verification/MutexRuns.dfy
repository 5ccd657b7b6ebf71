/** What holds after every run of the mutex protocol. */
module MutexRuns {
  import opened Mutex
  import opened MutexKept

  predicate Legal(s: Sys, steps: seq<Step>)
    decreases |steps|
  {
    steps == [] || (Enabled(s, steps[0]) && Legal(Apply(s, steps[0]), steps[1..]))
  }

  function Exec(s: Sys, steps: seq<Step>): Sys
    requires Legal(s, steps)
    decreases |steps|
  {
    if steps == [] then s else Exec(Apply(s, steps[0]), steps[1..])
  }

  /** No give of the run strands a ready task. */
  ghost predicate NoneStrands(s: Sys, steps: seq<Step>)
    requires Legal(s, steps)
    decreases |steps|
  {
    steps == [] || (!Strands(s, steps[0]) && NoneStrands(Apply(s, steps[0]), steps[1..]))
  }

  /** No task of the run waits for a mutex while it holds one. */
  predicate NoneNests(s: Sys, steps: seq<Step>)
    requires Legal(s, steps)
    decreases |steps|
  {
    steps == [] || (!Nests(s, steps[0]) && NoneNests(Apply(s, steps[0]), steps[1..]))
  }

  ghost predicate Careful(s: Sys, steps: seq<Step>)
    requires Legal(s, steps)
  {
    NoneStrands(s, steps) && NoneNests(s, steps)
  }

  lemma {:induction false} OneMore(s: Sys, steps: seq<Step>, step: Step)
    requires Legal(s, steps) && Enabled(Exec(s, steps), step)
    ensures Legal(s, steps + [step]) && Exec(s, steps + [step]) == Apply(Exec(s, steps), step)
    ensures NoneNests(s, steps + [step]) <==> NoneNests(s, steps) && !Nests(Exec(s, steps), step)
    ensures NoneStrands(s, steps + [step]) <==> NoneStrands(s, steps) && !Strands(Exec(s, steps), step)
    decreases |steps|
  {
    hide Apply, Enabled, Nests, Strands;
    var all := steps + [step];
    if steps == [] {
      assert all[0] == step && all[1..] == [];
    } else {
      assert all[0] == steps[0] && all[1..] == steps[1..] + [step];
      OneMore(Apply(s, steps[0]), steps[1..], step);
    }
  }

  /** The invariant holds in every state of the run. */
  ghost predicate Throughout(s: Sys, steps: seq<Step>)
    requires Legal(s, steps)
    decreases |steps|
  {
    Inv(s) && (steps == [] || Throughout(Apply(s, steps[0]), steps[1..]))
  }

  /** A run keeps the invariant throughout exactly if no step of it strands a task or nests a wait. */
  lemma {:induction false} RunKept(s: Sys, steps: seq<Step>)
    requires Inv(s) && Legal(s, steps)
    ensures Throughout(s, steps) <==> Careful(s, steps)
    ensures Careful(s, steps) ==> Inv(Exec(s, steps))
    decreases |steps|
  {
    hide Inv, Apply, Enabled, Strands, Nests;
    if steps != [] {
      var s' := Apply(s, steps[0]);
      StepKept(s, steps[0]);
      if Inv(s') { RunKept(s', steps[1..]); }
    }
  }

  /** Before any mutex is used: every task runs at its own priority, and a highest ready one runs. */
  ghost predicate Fresh(s: Sys) {
    && (forall t <- s.tasks :: s.tasks[t].held == 0 && s.tasks[t].prio == s.tasks[t].base && s.tasks[t].phase.Out?)
    && s.owner.Keys == s.waiting.Keys
    && (forall m <- s.owner :: s.owner[m].Free? && s.waiting[m] == [])
    && Highest(s, s.current)
  }

  lemma FreshInv(s: Sys)
    requires Fresh(s)
    ensures Inv(s)
  {
    forall t ensures CountsHeld(s, t) { assert Owned(s, t) == {}; }
    forall t | IsReady(s, t) ensures Prio(s, t) <= Prio(s, s.current) { assert t in s.tasks; }
    forall m ensures W(s, m) == [] {}
  }

  /** After every run: uxMutexesHeld counts the mutexes held, a priority above the base one belongs to
      a holder, and no holder runs below a task it keeps waiting. */
  lemma Inheritance(s: Sys, steps: seq<Step>)
    requires Fresh(s) && Legal(s, steps) && Careful(s, steps)
    ensures var e := Exec(s, steps);
      && (forall t <- e.tasks :: var r := e.tasks[t];
            r.held == |Owned(e, t)| && r.base <= r.prio && (r.held == 0 ==> r.prio == r.base))
      && (forall m, t :: Owner(e, m).Held? && t in W(e, m) ==> Prio(e, t) <= Prio(e, Owner(e, m).task))
  {
    FreshInv(s);
    RunKept(s, steps);
    var e := Exec(s, steps);
    forall t | t in e.tasks
      ensures e.tasks[t].held == |Owned(e, t)| && e.tasks[t].base <= e.tasks[t].prio
      ensures e.tasks[t].held == 0 ==> e.tasks[t].prio == e.tasks[t].base
    {
      assert CountsHeld(e, t);
    }
    forall m, t | Owner(e, m).Held? && t in W(e, m) ensures Prio(e, t) <= Prio(e, Owner(e, m).task) {
      assert Inherited(e, m);
    }
  }

  /** No priority inversion: while a task waits for a mutex that is free, or whose holder could run,
      nothing of lower priority than the waiting task runs. */
  lemma NoInversion(s: Sys, steps: seq<Step>, m: MutexId, t: Task)
    requires Fresh(s) && Legal(s, steps) && Careful(s, steps)
    requires var e := Exec(s, steps);
      t in W(e, m) && !e.owed && (Owner(e, m).Held? ==> IsReady(e, Owner(e, m).task))
    ensures var e := Exec(s, steps); Prio(e, t) <= Prio(e, e.current)
  {
    FreshInv(s);
    RunKept(s, steps);
    var e := Exec(s, steps);
    assert Inherited(e, m);
    if Owner(e, m).Free? {
      FreeOutranked(e, m);
    }
  }
}
