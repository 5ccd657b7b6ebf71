/** Before the scheduler runs: tasks are created in any number and order, the idle task last, and the state
    in which the first task starts satisfies the invariant. */
module SchedulerStart {
  import opened Machine
  import opened ItemStore
  import ListModel
  import opened Scheduler
  import opened SchedulerLists
  import opened SchedulerTick
  import opened SchedulerResume
  import opened SchedulerSteps
  import opened SchedulerSwitch

  datatype New = New(t: Task, p: nat)

  /** The kernel's variables before the first task is created. */
  function Blank(levels: nat, idle: Task): Sched {
    Sched(levels, idle, map[], Store(map[], map[]), Store(map[], map[]), {}, idle, false, 0, MAX_DELAY, 0, 0, false, 0, 0,
          false, false, 0, 0)
  }

  /** The control block of a new task. */
  function Plain(levels: nat, p: nat): Tcb { Tcb(p, p, 0, 0, levels - p, 0) }

  /** prvAddNewTaskToReadyList, before the scheduler runs: the last created of the highest tasks is to start. */
  function CreateEarly(s: Sched, t: Task, p: nat): Sched {
    var tcb := Plain(s.levels, p);
    var first := if s.numTasks == 0 || Prio(s, s.current) <= p then t else s.current;
    AddReady(SetTcb(s, t, tcb).(numTasks := s.numTasks + 1, current := first), t)
  }

  function CreateAll(s: Sched, tasks: seq<New>): Sched
    decreases |tasks|
  {
    if tasks == [] then s else CreateAll(CreateEarly(s, tasks[0].t, tasks[0].p), tasks[1..])
  }

  predicate Named(tasks: seq<New>, t: Task) { exists x <- tasks :: x.t == t }

  predicate Differ(tasks: seq<New>) { forall i, j | 0 <= i < j < |tasks| :: tasks[i].t != tasks[j].t }

  /** What holds meanwhile: every task is ready, none above the current one. */
  ghost predicate Starting(s: Sched) {
    && Core(s, {}, Now(s) + 1) && |s.tcbs| == s.numTasks && s.event.at == map[] && InState(s, Terminated) == []
    && (forall t <- s.tcbs :: IsReady(s, t) && Prio(s, t) <= Prio(s, s.current) && s.tcbs[t] == Plain(s.levels, s.tcbs[t].prio))
    && (s.numTasks > 0 ==> s.current in s.tcbs)
    && Now(s) == 0 && s.pended == 0 && s.suspended == 0 && s.deleted == 0 && s.delivered == 0
  }

  lemma BlankStarting(levels: nat, idle: Task)
    requires levels <= 32
    ensures Starting(Blank(levels, idle))
  {
  }

  lemma CreateKept(s: Sched, t: Task, p: nat)
    requires Starting(s) && t !in s.tcbs && p < s.levels
    ensures var s' := CreateEarly(s, t, p);
      Starting(s') && s'.tcbs.Keys == s.tcbs.Keys + {t} && s'.levels == s.levels && s'.idle == s.idle
  {
    hide Core, AddReady;
    var tcb, first := Tcb(p, p, 0, 0, s.levels - p, 0), if s.numTasks == 0 || Prio(s, s.current) <= p then t else s.current;
    NewTcbCore(s, t, tcb);
    var m := SetTcb(s, t, tcb);
    AddReadyCore(m, t, Now(s) + 1);
    NewFrame(s, t, tcb);
    EarlyOrder(s, m, first, t);
    var r, s' := AddReady(m, t), CreateEarly(s, t, p);
    SameListsCore(r, s', {}, Now(s) + 1);
    assert InState(s', Terminated) == InState(r, Terminated) == InState(s, Terminated);
    EarlyPrios(s, s', t, p);
  }

  lemma EarlyOrder(s: Sched, m: Sched, first: Task, t: Task)
    ensures AddReady(m.(numTasks := s.numTasks + 1, current := first), t)
            == AddReady(m, t).(numTasks := s.numTasks + 1, current := first)
  {
  }

  lemma EarlyPrios(s: Sched, s': Sched, t: Task, p: nat)
    requires Starting(s) && t !in s.tcbs && s'.current == (if s.numTasks == 0 || Prio(s, s.current) <= p then t else s.current)
    requires s'.tcbs == s.tcbs[t := Tcb(p, p, 0, 0, s.levels - p, 0)] && s'.state.at == s.state.at[t := Ready(p)]
    requires s' == s.(tcbs := s'.tcbs, state := s'.state, top := s'.top, numTasks := s.numTasks + 1, current := s'.current)
    requires Core(s', {}, Now(s') + 1) && InState(s', Terminated) == []
    ensures Starting(s') && s'.tcbs.Keys == s.tcbs.Keys + {t}
  {
    hide Core, InState;
    if s.numTasks == 0 { assert s.tcbs.Keys == {}; }
    assert s'.tcbs.Keys == s.tcbs.Keys + {t};
    assert |s'.tcbs.Keys| == |s.tcbs.Keys| + 1;
  }

  lemma {:induction false} AllKept(s: Sched, tasks: seq<New>)
    requires Starting(s) && Differ(tasks) && forall x <- tasks :: x.t !in s.tcbs && x.p < s.levels
    ensures var s' := CreateAll(s, tasks);
      Starting(s') && s'.levels == s.levels && s'.idle == s.idle
      && forall t :: t in s'.tcbs <==> t in s.tcbs || Named(tasks, t)
    decreases |tasks|
  {
    hide Starting, CreateEarly;
    if tasks != [] {
      var x, rest := tasks[0], tasks[1..];
      assert x in tasks;
      CreateKept(s, x.t, x.p);
      var s1 := CreateEarly(s, x.t, x.p);
      assert forall y :: y in rest ==> y in tasks;
      forall y | y in rest ensures y.t !in s1.tcbs.Keys {
        var i :| 0 <= i < |rest| && rest[i] == y;
        assert tasks[i + 1] == y;
      }
      AllKept(s1, rest);
      NamedFirst(tasks);
      hide Named;
      assert forall t :: t in s1.tcbs <==> t in s1.tcbs.Keys;
    }
  }

  lemma NamedFirst(tasks: seq<New>)
    requires tasks != []
    ensures forall t :: Named(tasks, t) <==> tasks[0].t == t || Named(tasks[1..], t)
  {
    forall t ensures Named(tasks, t) <==> tasks[0].t == t || Named(tasks[1..], t) {
      assert tasks == [tasks[0]] + tasks[1..];
    }
  }

  lemma StartingInv(s: Sched)
    requires Starting(s) && s.idle in s.tcbs
    ensures Inv(s) && Preemptive(s)
  {
    hide Core;
    forall t | IsReady(s, t) ensures t in s.tcbs { ReadyKnown(s, t); }
    forall t ensures !Pending(s, t) {}
    assert s.numTasks > 0 by { assert |s.tcbs.Keys| > 0; }
  }

  /** vTaskStartScheduler: whatever tasks have been created, all different, the state it starts in satisfies
      the invariant, and the task it starts is a highest ready one. */
  lemma StartInv(levels: nat, idle: Task, tasks: seq<New>)
    requires 1 <= levels <= 32 && Differ(tasks + [New(idle, 0)]) && forall x <- tasks :: x.p < levels
    ensures var s := CreateAll(Blank(levels, idle), tasks + [New(idle, 0)]);
      && Starting(s) && Inv(s) && Preemptive(s) && Quiet(s) && !s.blocking && s.suspended == 0 && s.idle == idle
      && forall t :: t in s.tcbs <==> t == idle || Named(tasks, t)
  {
    var all, s0 := tasks + [New(idle, 0)], Blank(levels, idle);
    BlankStarting(levels, idle);
    AllKept(s0, all);
    var s := CreateAll(s0, all);
    AllFlags(s0, all);
    assert New(idle, 0) in all;
    forall t ensures Named(all, t) <==> t == idle || Named(tasks, t) {
      if x :| x in tasks && x.t == t { assert x in all; }
    }
    hide CreateAll, Blank, Named, Differ, Starting;
    assert idle in s.tcbs;
    StartingInv(s);
  }

  lemma {:induction false} AllFlags(s: Sched, tasks: seq<New>)
    ensures var s' := CreateAll(s, tasks);
      s'.owed == s.owed && s'.yieldPending == s.yieldPending && s'.blocking == s.blocking && s'.idle == s.idle
      && s'.suspended == s.suspended
    decreases |tasks|
  {
    if tasks != [] { AllFlags(CreateEarly(s, tasks[0].t, tasks[0].p), tasks[1..]); }
  }

  // ---- what the scheduler starts with ----

  /** The tasks of priority p, in the order of their creation. */
  function AtPrio(tasks: seq<New>, p: nat): seq<Task> {
    if tasks == [] then [] else (if tasks[0].p == p then [tasks[0].t] else []) + AtPrio(tasks[1..], p)
  }

  /** The last created of the highest tasks, if it is not c, of priority p. */
  function LastHighest(tasks: seq<New>, c: New): New {
    if tasks == [] then c else LastHighest(tasks[1..], if c.p <= tasks[0].p then tasks[0] else c)
  }

  /** r is in the sequence, and no task behind it is as high. */
  ghost predicate LastAt(tasks: seq<New>, r: New) {
    exists i :: 0 <= i < |tasks| && tasks[i] == r && forall j :: i < j < |tasks| ==> tasks[j].p < r.p
  }

  lemma {:induction false} LastOfHighest(tasks: seq<New>, c: New)
    ensures var r := LastHighest(tasks, c);
      && c.p <= r.p && (forall x <- tasks :: x.p <= r.p)
      && ((r == c && forall x <- tasks :: x.p < c.p) || LastAt(tasks, r))
    decreases |tasks|
  {
    if tasks != [] {
      var d, rest := if c.p <= tasks[0].p then tasks[0] else c, tasks[1..];
      LastOfHighest(rest, d);
      var r := LastHighest(rest, d);
      assert tasks == [tasks[0]] + rest;
      if LastAt(rest, r) {
        var i :| 0 <= i < |rest| && rest[i] == r && forall j :: i < j < |rest| ==> rest[j].p < r.p;
        assert tasks[i + 1] == r;
        forall j | i + 1 < j < |tasks| ensures tasks[j].p < r.p { assert tasks[j] == rest[j - 1]; }
      } else if d == tasks[0] {
        assert tasks[0] == r;
        forall j | 0 < j < |tasks| ensures tasks[j].p < r.p { assert tasks[j] == rest[j - 1] && rest[j - 1] in rest; }
      }
    }
  }

  /** Creating one task puts it at the end of the list of its priority. */
  lemma CreatedLists(s: Sched, t: Task, p: nat, q: nat)
    requires ListOf(s.state, Ready(q)).index == 0
    ensures var s' := CreateEarly(s, t, p);
      ListOf(s'.state, Ready(q)).index == 0 && InState(s', Ready(q)) == InState(s, Ready(q)) + (if p == q then [t] else [])
  {
    if p != q { assert InState(s, Ready(q)) + [] == InState(s, Ready(q)); }
  }

  lemma {:induction false} CreatedListed(s: Sched, tasks: seq<New>, q: nat)
    requires ListOf(s.state, Ready(q)).index == 0
    ensures var s' := CreateAll(s, tasks);
      ListOf(s'.state, Ready(q)).index == 0 && InState(s', Ready(q)) == InState(s, Ready(q)) + AtPrio(tasks, q)
    decreases |tasks|
  {
    hide CreateEarly, InState, ListOf, Plain;
    var l := InState(s, Ready(q));
    if tasks == [] {
      assert l + [] == l;
    } else {
      var x, rest := tasks[0], tasks[1..];
      CreatedLists(s, x.t, x.p, q);
      CreatedListed(CreateEarly(s, x.t, x.p), rest, q);
      Joined(l, if x.p == q then [x.t] else [], AtPrio(rest, q));
    }
  }

  lemma Joined(a: seq<Task>, b: seq<Task>, c: seq<Task>)
    ensures (a + b) + c == a + (b + c)
  {
  }

  lemma {:induction false} CreatedTcbs(s: Sched, tasks: seq<New>)
    requires Differ(tasks)
    ensures var s' := CreateAll(s, tasks);
      && (forall x <- tasks :: T(s', x.t) == Plain(s.levels, x.p)) && (forall t :: !Named(tasks, t) ==> T(s', t) == T(s, t))
    decreases |tasks|
  {
    hide CreateEarly, Plain, Named, Differ;
    if tasks != [] {
      var x, rest := tasks[0], tasks[1..];
      var s1 := CreateEarly(s, x.t, x.p);
      EarlyTcb(s, x.t, x.p);
      FirstNamed(tasks);
      CreatedTcbs(s1, rest);
      assert tasks == [x] + rest;
      NamedFirst(tasks);
    }
  }

  lemma EarlyTcb(s: Sched, t: Task, p: nat)
    ensures var s' := CreateEarly(s, t, p);
      s'.levels == s.levels && T(s', t) == Plain(s.levels, p) && forall x :: x != t ==> T(s', x) == T(s, x)
  {
  }

  lemma {:induction false} CreatedCurrent(s: Sched, tasks: seq<New>, c: New)
    requires Differ(tasks) && (s.numTasks == 0 ==> tasks != [] && c == tasks[0])
    requires s.numTasks > 0 ==> s.current == c.t && Prio(s, c.t) == c.p && !Named(tasks, c.t)
    ensures CreateAll(s, tasks).current == LastHighest(tasks, c).t
    decreases |tasks|
  {
    hide CreateEarly, Plain, Named, Differ;
    if tasks != [] {
      var x, rest := tasks[0], tasks[1..];
      EarlyTcb(s, x.t, x.p);
      EarlyCurrent(s, x.t, x.p);
      PlainPrio(s.levels, x.p);
      FirstNamed(tasks);
      CreatedCurrent(CreateEarly(s, x.t, x.p), rest, if c.p <= x.p then x else c);
    }
  }

  lemma PlainPrio(levels: nat, p: nat)
    ensures Plain(levels, p).prio == p
  {
  }

  lemma EarlyCurrent(s: Sched, t: Task, p: nat)
    ensures var s' := CreateEarly(s, t, p);
      s'.current == (if s.numTasks == 0 || Prio(s, s.current) <= p then t else s.current)
      && s'.numTasks == s.numTasks + 1 && s'.levels == s.levels
  {
  }

  /** The tasks behind the first are not it. */
  lemma FirstNamed(tasks: seq<New>)
    requires tasks != [] && Differ(tasks)
    ensures !Named(tasks[1..], tasks[0].t) && forall t :: Named(tasks, t) <==> Named(tasks[1..], t) || t == tasks[0].t
    ensures Differ(tasks[1..])
  {
    NamedFirst(tasks);
    forall i, j | 0 <= i < j < |tasks[1..]| ensures tasks[1..][i].t != tasks[1..][j].t { assert tasks[i + 1].t != tasks[j + 1].t; }
  }

  /** What the scheduler starts with: every task at the priority it was created with, each ready list in the order of
      creation with pxIndex at its end, and the last created of the highest tasks running. */
  lemma StartExact(levels: nat, idle: Task, tasks: seq<New>, q: nat)
    requires Differ(tasks + [New(idle, 0)])
    ensures var all, s := tasks + [New(idle, 0)], CreateAll(Blank(levels, idle), tasks + [New(idle, 0)]);
      && ListOf(s.state, Ready(q)) == ListModel.Rota(AtPrio(all, q), 0)
      && (forall x <- all :: T(s, x.t) == Plain(levels, x.p))
      && s.current == LastHighest(all, all[0]).t
  {
    var all := tasks + [New(idle, 0)];
    var s0 := Blank(levels, idle);
    hide CreateAll, LastHighest, AtPrio;
    CreatedListed(s0, all, q);
    CreatedTcbs(s0, all);
    CreatedCurrent(s0, all, all[0]);
    assert [] + AtPrio(all, q) == AtPrio(all, q);
  }
}
