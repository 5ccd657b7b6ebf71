/** A run of the mutex protocol in which the priority of a holder falls below that of a waiting task. */
module MutexInversion {
  import opened ListModel
  import opened Mutex
  import opened MutexKept
  import opened MutexRuns

  ghost predicate Reaches(s: Sys, steps: seq<Step>, e: Sys) { Legal(s, steps) && NoneNests(s, steps) && Exec(s, steps) == e }

  lemma Go(s: Sys, steps: seq<Step>, e: Sys, step: Step) returns (all: seq<Step>, e': Sys)
    requires Reaches(s, steps, e) && Enabled(e, step) && !Nests(e, step)
    ensures e' == Apply(e, step) && all == steps + [step] && Reaches(s, all, e')
  {
    hide Apply, Enabled, Nests;
    OneMore(s, steps, step);
    all, e' := steps + [step], Apply(e, step);
  }

  /** Four tasks, 0 to 3, and two mutexes, 1 and 2, in these states. */
  ghost predicate Four(s: Sys, a: Rec, b: Rec, c: Rec, d: Rec, o1: Holder, o2: Holder, w1: seq<Task>, w2: seq<Task>) {
    && s.tasks.Keys == {0, 1, 2, 3} && s.owner.Keys == s.waiting.Keys == {1, 2}
    && R(s, 0) == a && R(s, 1) == b && R(s, 2) == c && R(s, 3) == d
    && Owner(s, 1) == o1 && Owner(s, 2) == o2 && W(s, 1) == w1 && W(s, 2) == w2
  }

  function Asleep(p: nat): Rec { Rec(p, p, 0, false, Out) }

  lemma Stays(s: Sys)
    ensures Reaches(s, [], s)
  {
  }

  lemma JoinedLast(s: Sys, m: MutexId)
    requires |W(s, m)| <= 1 && (W(s, m) != [] ==> Prio(s, W(s, m)[0]) >= Me(s).prio)
    ensures Joined(s, m) == W(s, m) + [s.current]
  {
    if W(s, m) != [] { assert Keys(s, W(s, m))[0] == 0 - Prio(s, W(s, m)[0]); }
  }

  /** A sleeping task wakes, runs, asks for m, and waits behind those already waiting. */
  lemma Queues(s: Sys, steps: seq<Step>, e: Sys, t: Task, m: MutexId) returns (all: seq<Step>, e': Sys)
    requires Reaches(s, steps, e) && e.owed && t in e.tasks && e.tasks[t] == Asleep(e.tasks[t].prio)
    requires m in e.owner && Owner(e, m).Held? && Owner(e, m).task != t && Owner(e, m).task in e.tasks
    requires (forall x <- e.tasks :: !e.tasks[x].ready)
    requires |W(e, m)| <= 1 && t !in W(e, m) && (W(e, m) != [] ==> Prio(e, W(e, m)[0]) >= Prio(e, t))
    ensures Reaches(s, all, e')
    ensures var h, p := Owner(e, m).task, Prio(e, t);
      && e' == e.(tasks := e'.tasks, waiting := e.waiting[m := W(e, m) + [t]], current := t, owed := true)
      && e'.tasks.Keys == e.tasks.Keys && R(e', h) == Raised(R(e, h), p)
      && R(e', t) == Rec(p, p, 0, false, Waiting(m, Inherits(R(e, h), p)))
      && forall x :: x != h && x != t ==> R(e', x) == R(e, x)
  {
    hide Reaches, Joined;
    all, e' := Resumes(s, steps, e, t);
    all, e' := Go(s, all, e', Request(m, true));
    all, e' := Go(s, all, e', Look);
    JoinedLast(e', m);
    ghost var e3 := e';
    all, e' := Go(s, all, e', Wait);
    WaitStep(e3);
  }

  /** The claim fails without that condition. Task 0 (base priority 1) holds both mutexes; 1 and 2
      (priority 2) wait for mutex 2, and 3 (priority 0) for mutex 1. Task 0 gives 2 back, waking 1
      at its own inherited priority, then gives 1 back: waking 3 suppresses the switch, task 0 goes
      on at priority 1, takes mutex 2 again, and holds it below task 2, which waits for it. */
  lemma HolderBelowWaiter() returns (s: Sys, steps: seq<Step>)
    ensures Fresh(s) && Legal(s, steps) && NoneNests(s, steps)
    ensures var e := Exec(s, steps);
      Owner(e, 2) == Held(0) && 2 in W(e, 2) && Prio(e, 2) > Prio(e, 0) && e.current == 0 && !e.owed
  {
    hide Reaches, Legal, NoneNests, Exec, Fresh;
    var e;
    s, steps, e := BothHeld();
    steps, e := Queues(s, steps, e, 3, 1);
    steps, e := Queues(s, steps, e, 1, 2);
    steps, e := Queues(s, steps, e, 2, 2);
    steps, e := GivesOne(s, steps, e);
    steps, e := TakesAgain(s, steps, e);
    Reached(s, steps, e);
  }

  lemma Takes(s: Sys, steps: seq<Step>, e: Sys, m: MutexId) returns (all: seq<Step>, e': Sys)
    requires Reaches(s, steps, e) && Runs(e) && Me(e).phase.Out? && m in e.owner && e.owner[m].Free?
    ensures Reaches(s, all, e')
    ensures e' == Put(e, e.current, Me(e).(held := Me(e).held + 1)).(owner := e.owner[m := Held(e.current)])
  {
    hide Reaches;
    all, e' := Go(s, steps, e, Request(m, true));
    all, e' := Go(s, all, e', Grab);
    assert e'.tasks == e.tasks[e.current := Me(e).(held := Me(e).held + 1)];
  }

  lemma Resumes(s: Sys, steps: seq<Step>, e: Sys, t: Task) returns (all: seq<Step>, e': Sys)
    requires Reaches(s, steps, e) && e.owed && t in e.tasks && R(e, t).phase.Out? && !R(e, t).ready
    requires forall x <- e.tasks :: !e.tasks[x].ready
    ensures Reaches(s, all, e')
    ensures e' == Put(e, t, R(e, t).(ready := true)).(current := t, owed := false)
  {
    hide Reaches;
    all, e' := Go(s, steps, e, Wake(t));
    all, e' := Go(s, all, e', Switch(t));
  }

  lemma BothHeld() returns (s: Sys, steps: seq<Step>, e: Sys)
    ensures Fresh(s) && Reaches(s, steps, e) && e.owed
    ensures Four(e, Rec(1, 1, 2, false, Out), Asleep(2), Asleep(2), Asleep(0), Held(0), Held(0), [], [])
  {
    hide Fresh, Reaches;
    s := Start();
    Stays(s);
    steps, e := Takes(s, [], s, 1);
    steps, e := Takes(s, steps, e, 2);
    steps, e := Go(s, steps, e, Sleep);
  }

  lemma Start() returns (s: Sys)
    ensures Fresh(s) && s.current == 0 && !s.owed
    ensures Four(s, Rec(1, 1, 0, true, Out), Asleep(2), Asleep(2), Asleep(0), Free, Free, [], [])
  {
    s := Sys(map[0 := Rec(1, 1, 0, true, Out), 1 := Asleep(2), 2 := Asleep(2), 3 := Asleep(0)],
             map[1 := Free, 2 := Free], map[1 := [], 2 := []], 0, false);
  }

  /** The running task holds two mutexes and gives back one that is waited for. */
  lemma GivesOne(s: Sys, before: seq<Step>, start: Sys) returns (steps: seq<Step>, e: Sys)
    requires Reaches(s, before, start) && start.owed
    requires Four(start, Rec(1, 2, 2, false, Out), Rec(2, 2, 0, false, Waiting(2, true)), Rec(2, 2, 0, false, Waiting(2, true)),
                  Rec(0, 0, 0, false, Waiting(1, false)), Held(0), Held(0), [3], [1, 2])
    ensures Reaches(s, steps, e) && e.current == 0 && !e.owed
    ensures Four(e, Rec(1, 2, 1, true, Out), Rec(2, 2, 0, true, Trying(2, true, false)), Rec(2, 2, 0, false, Waiting(2, true)),
                 Rec(0, 0, 0, false, Waiting(1, false)), Held(0), Free, [3], [2])
  {
    hide Reaches;
    steps, e := Resumes(s, before, start, 0);
    assert Without([1, 2], 1) == [2];
    hide Without;
    steps, e := Go(s, steps, e, Give(2));
  }

  lemma TakesAgain(s: Sys, before: seq<Step>, start: Sys) returns (steps: seq<Step>, e: Sys)
    requires Reaches(s, before, start) && start.current == 0 && !start.owed
    requires Four(start, Rec(1, 2, 1, true, Out), Rec(2, 2, 0, true, Trying(2, true, false)), Rec(2, 2, 0, false, Waiting(2, true)),
                  Rec(0, 0, 0, false, Waiting(1, false)), Held(0), Free, [3], [2])
    ensures Reaches(s, steps, e)
    ensures Owner(e, 2) == Held(0) && 2 in W(e, 2) && Prio(e, 2) > Prio(e, 0) && e.current == 0 && !e.owed
  {
    hide Reaches, Without;
    steps, e := Go(s, before, start, Give(1));
    steps, e := Takes(s, steps, e, 2);
  }

  lemma Reached(s: Sys, steps: seq<Step>, e: Sys)
    requires Reaches(s, steps, e)
    ensures Legal(s, steps) && NoneNests(s, steps) && Exec(s, steps) == e
  {
  }
}
