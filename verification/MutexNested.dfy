/** Why a task may not block on a mutex while it holds one. Inheritance reaches the holder, but not the task that the
    holder waits for; and a task that takes the same mutex again may come to lower its own priority. */
module MutexNested {
  import opened ListModel
  import opened Mutex
  import opened MutexRuns
  import A = MutexAssertions

  ghost predicate Leads(s: Sys, steps: seq<Step>, e: Sys) { Legal(s, steps) && NoneStrands(s, steps) && Exec(s, steps) == e }

  lemma Go(s: Sys, steps: seq<Step>, e: Sys, step: Step) returns (all: seq<Step>, e': Sys)
    requires Leads(s, steps, e) && Enabled(e, step) && !step.Give?
    ensures e' == Apply(e, step) && Leads(s, all, e')
  {
    assert !Strands(e, step);
    hide Apply, Enabled, Strands;
    OneMore(s, steps, step);
    all, e' := steps + [step], Apply(e, step);
  }

  /** Four tasks, of base priorities 1 to 4, and two mutexes. */
  ghost predicate Four(s: Sys, a: Rec, b: Rec, c: Rec, d: Rec, o1: Holder, o2: Holder, w1: seq<Task>, w2: seq<Task>) {
    && s.tasks.Keys == {1, 2, 3, 4} && s.owner.Keys == s.waiting.Keys == {7, 8}
    && R(s, 1) == a && R(s, 2) == b && R(s, 3) == c && R(s, 4) == d
    && Owner(s, 7) == o1 && Owner(s, 8) == o2 && W(s, 7) == w1 && W(s, 8) == w2
  }

  function Asleep(p: nat): Rec { Rec(p, p, 0, false, Out) }

  lemma Begins() returns (s: Sys)
    ensures Fresh(s) && Leads(s, [], s) && s.current == 1 && !s.owed
    ensures Four(s, Rec(1, 1, 0, true, Out), Asleep(2), Asleep(3), Asleep(4), Free, Free, [], [])
  {
    s := Sys(map[1 := Rec(1, 1, 0, true, Out), 2 := Asleep(2), 3 := Asleep(3), 4 := Asleep(4)],
             map[7 := Free, 8 := Free], map[7 := [], 8 := []], 1, false);
  }

  /** The running task takes a mutex. */
  lemma Takes(s: Sys, before: seq<Step>, start: Sys, m: MutexId) returns (steps: seq<Step>, e: Sys)
    requires Leads(s, before, start) && Runs(start) && Me(start).phase.Out? && m in start.owner && start.owner[m].Free?
    ensures Leads(s, steps, e)
    ensures e == Put(start, start.current, Me(start).(held := Me(start).held + 1)).(owner := start.owner[m := Held(start.current)])
  {
    hide Leads;
    steps, e := Go(s, before, start, Request(m, true));
    steps, e := Go(s, steps, e, Grab);
    assert e.tasks == start.tasks[start.current := Me(start).(held := Me(start).held + 1)];
  }

  /** A sleeping task that outranks every ready one wakes and runs. */
  lemma Wakes(s: Sys, before: seq<Step>, start: Sys, t: Task) returns (steps: seq<Step>, e: Sys)
    requires Leads(s, before, start) && t in start.tasks && !R(start, t).ready && R(start, t).phase.Out?
    requires forall x <- start.tasks :: start.tasks[x].ready ==> start.tasks[x].prio < R(start, t).prio
    requires start.current in start.tasks && (start.owed || Prio(start, start.current) < Prio(start, t))
    ensures Leads(s, steps, e) && e == Put(start, t, R(start, t).(ready := true)).(current := t, owed := false)
  {
    hide Leads;
    steps, e := Go(s, before, start, Wake(t));
    steps, e := Go(s, steps, e, Switch(t));
  }

  /** The running task waits for a mutex nobody else waits for. */
  lemma Blocks(s: Sys, before: seq<Step>, start: Sys, m: MutexId) returns (steps: seq<Step>, e: Sys)
    requires Leads(s, before, start) && Runs(start) && Me(start).phase.Out? && m in start.owner && start.owner[m].Held?
    requires W(start, m) == [] && start.owner[m].task in start.tasks && start.owner[m].task != start.current
    ensures Leads(s, steps, e)
    ensures var c, h := start.current, start.owner[m].task;
      && e == start.(tasks := e.tasks, waiting := start.waiting[m := [c]], owed := true) && e.tasks.Keys == start.tasks.Keys
      && R(e, h) == Raised(R(start, h), Prio(start, c))
      && R(e, c) == Me(start).(ready := false, phase := Waiting(m, Inherits(R(start, h), Prio(start, c))))
      && forall x :: x != c && x != h ==> R(e, x) == R(start, x)
  {
    hide Leads;
    steps, e := Go(s, before, start, Request(m, true));
    steps, e := Go(s, steps, e, Look);
    assert Joined(e, m) == [e.current];
    hide Joined;
    steps, e := Go(s, steps, e, Wait);
  }

  /** Task 1 holds mutex 7; task 2 takes mutex 8 and waits for 7. */
  lemma Nested(s: Sys, before: seq<Step>, start: Sys) returns (steps: seq<Step>, e: Sys)
    requires Leads(s, before, start) && start.current == 1 && !start.owed
    requires Four(start, Rec(1, 1, 0, true, Out), Asleep(2), Asleep(3), Asleep(4), Free, Free, [], [])
    ensures Leads(s, steps, e) && e.current == 2 && e.owed
    ensures Four(e, Rec(1, 2, 1, true, Out), Rec(2, 2, 1, false, Waiting(7, true)), Asleep(3), Asleep(4), Held(1), Held(2), [2], [])
  {
    hide Leads;
    steps, e := Takes(s, before, start, 7);
    steps, e := Wakes(s, steps, e, 2);
    steps, e := Takes(s, steps, e, 8);
    steps, e := Blocks(s, steps, e, 7);
  }

  /** Inversion: task 1 holds mutex 7, and task 2 holds mutex 8 and waits for 7. Task 4 waits for 8 and raises task 2,
      but not task 1, which is ready and runs below them both; task 3, of a priority between, keeps it from running.
      No give has been made. */
  lemma InversionThrough() returns (s: Sys, steps: seq<Step>)
    ensures Fresh(s) && Legal(s, steps) && NoneStrands(s, steps)
    ensures var e := Exec(s, steps);
      && Owner(e, 8) == Held(2) && 4 in W(e, 8) && Owner(e, 7) == Held(1) && 2 in W(e, 7) && IsReady(e, 1)
      && e.current == 3 && !e.owed && Prio(e, 1) < Prio(e, 3) < Prio(e, 2) == Prio(e, 4)
  {
    hide Leads, Fresh;
    var e;
    s := Begins();
    steps, e := Nested(s, [], s);
    steps, e := Wakes(s, steps, e, 4);
    steps, e := Blocks(s, steps, e, 8);
    assert R(e, 1) == Rec(1, 2, 1, true, Out);
    assert Four(e, Rec(1, 2, 1, true, Out), Rec(2, 4, 1, false, Waiting(7, true)), Asleep(3), Rec(4, 4, 0, false, Waiting(8, true)),
                Held(1), Held(2), [2], [4]);
    steps, e := Wakes(s, steps, e, 3);
    Led(s, steps, e);
  }

  lemma Led(s: Sys, steps: seq<Step>, e: Sys)
    requires Leads(s, steps, e)
    ensures Legal(s, steps) && NoneStrands(s, steps) && Exec(s, steps) == e
  {
  }

  // ---- A task that waits for itself ----

  ghost predicate Two(s: Sys, a: Rec, b: Rec, o: Holder, w: seq<Task>, current: Task, owed: bool) {
    && s.tasks.Keys == {1, 2} && s.owner.Keys == s.waiting.Keys == {7} && R(s, 1) == a && R(s, 2) == b
    && Owner(s, 7) == o && W(s, 7) == w && s.current == current && s.owed == owed
  }

  lemma BeginsTwo() returns (s: Sys)
    ensures Fresh(s) && Leads(s, [], s) && Two(s, Rec(1, 1, 0, true, Out), Asleep(2), Free, [], 1, false)
  {
    s := Sys(map[1 := Rec(1, 1, 0, true, Out), 2 := Asleep(2)], map[7 := Free], map[7 := []], 1, false);
  }

  /** Task 1 takes the mutex, and is raised by task 2, which waits. */
  lemma Raised2(s: Sys, before: seq<Step>, start: Sys) returns (steps: seq<Step>, e: Sys)
    requires Leads(s, before, start) && Two(start, Rec(1, 1, 0, true, Out), Asleep(2), Free, [], 1, false)
    ensures Leads(s, steps, e)
    ensures Two(e, Rec(1, 2, 1, true, Out), Rec(2, 2, 0, false, Waiting(7, true)), Held(1), [2], 2, true)
  {
    hide Leads;
    steps, e := Takes(s, before, start, 7);
    steps, e := Wakes(s, steps, e, 2);
    steps, e := Blocks(s, steps, e, 7);
  }

  /** Task 1 takes the mutex again, and so waits for itself. */
  lemma Again(s: Sys, before: seq<Step>, start: Sys) returns (steps: seq<Step>, e: Sys)
    requires Leads(s, before, start)
    requires Two(start, Rec(1, 2, 1, true, Out), Rec(2, 2, 0, false, Waiting(7, true)), Held(1), [2], 2, true)
    ensures Leads(s, steps, e)
    ensures Two(e, Rec(1, 2, 1, false, Waiting(7, true)), Rec(2, 2, 0, false, Waiting(7, true)), Held(1), [2, 1], 1, true)
  {
    hide Leads;
    steps, e := Go(s, before, start, Switch(1));
    steps, e := Go(s, steps, e, Request(7, true));
    steps, e := Go(s, steps, e, Look);
    assert Keys(e, W(e, 7))[0] == -2;
    assert Joined(e, 7) == [2, 1];
    hide Joined;
    steps, e := Go(s, steps, e, Wait);
  }

  /** Task t times out, finds the mutex taken, and is about to take its inheritance back. */
  lemma GivesUp(s: Sys, before: seq<Step>, start: Sys, t: Task) returns (steps: seq<Step>, e: Sys)
    requires Leads(s, before, start) && t in start.tasks && R(start, t).phase == Waiting(7, true) && start.owed
    requires 7 in start.waiting && Owner(start, 7).Held? && forall x <- start.tasks :: !start.tasks[x].ready
    ensures Leads(s, steps, e)
    ensures e == Put(start, t, R(start, t).(ready := true, phase := Undoing(7)))
                 .(waiting := start.waiting[7 := Without(W(start, 7), t)], current := t, owed := false)
  {
    hide Leads, Without;
    steps, e := Go(s, before, start, TimeOut(t));
    steps, e := Go(s, steps, e, Switch(t));
    steps, e := Go(s, steps, e, Look);
    steps, e := Go(s, steps, e, Expire(false));
    steps, e := Go(s, steps, e, Test);
    assert e.tasks == start.tasks[t := R(start, t).(ready := true, phase := Undoing(7))];
  }

  /** Task 2 takes nothing back, since task 1 waits at the same priority. */
  lemma Leaves2(s: Sys, before: seq<Step>, start: Sys) returns (steps: seq<Step>, e: Sys)
    requires Leads(s, before, start)
    requires Two(start, Rec(1, 2, 1, false, Waiting(7, true)), Rec(2, 2, 0, true, Undoing(7)), Held(1), [1], 2, false)
    ensures Leads(s, steps, e)
    ensures Two(e, Rec(1, 2, 1, false, Waiting(7, true)), Asleep(2), Held(1), [1], 2, true)
  {
    hide Leads;
    steps, e := Go(s, before, start, Undo);
    steps, e := Go(s, steps, e, Sleep);
  }

  /** It happens: task 2 raises task 1, which holds the mutex and then takes it again; both time out, task 2 first. */
  lemma OwnAssertion() returns (s: Sys, steps: seq<Step>)
    ensures Fresh(s) && Legal(s, steps) && NoneStrands(s, steps) && A.OwnAssertionFails(Exec(s, steps))
  {
    hide Leads, Fresh;
    var e;
    s := BeginsTwo();
    steps, e := Raised2(s, [], s);
    steps, e := Again(s, steps, e);
    steps, e := First2(s, steps, e);
    steps, e := Leaves2(s, steps, e);
    steps, e := Then1(s, steps, e);
    Led(s, steps, e);
  }

  lemma First2(s: Sys, before: seq<Step>, start: Sys) returns (steps: seq<Step>, e: Sys)
    requires Leads(s, before, start)
    requires Two(start, Rec(1, 2, 1, false, Waiting(7, true)), Rec(2, 2, 0, false, Waiting(7, true)), Held(1), [2, 1], 1, true)
    ensures Leads(s, steps, e)
    ensures Two(e, Rec(1, 2, 1, false, Waiting(7, true)), Rec(2, 2, 0, true, Undoing(7)), Held(1), [1], 2, false)
  {
    hide Leads;
    assert Without(W(start, 7), 2) == [1];
    steps, e := GivesUp(s, before, start, 2);
  }

  lemma Then1(s: Sys, before: seq<Step>, start: Sys) returns (steps: seq<Step>, e: Sys)
    requires Leads(s, before, start)
    requires Two(start, Rec(1, 2, 1, false, Waiting(7, true)), Asleep(2), Held(1), [1], 2, true)
    ensures Leads(s, steps, e) && A.OwnAssertionFails(e)
  {
    hide Leads;
    assert Without(W(start, 7), 1) == [];
    steps, e := GivesUp(s, before, start, 1);
  }
}
