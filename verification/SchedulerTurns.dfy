/** Turns on the ready lists over runs of the scheduler: every operation acts on a ready list only by insertions at
    the end, removals, and one move of pxIndex for a switch, so what is known of turns on such a list holds of tasks. */
module SchedulerTurns {
  import opened Machine
  import opened ListModel
  import opened ItemStore
  import opened Scheduler
  import opened SchedulerLists
  import opened SchedulerTick
  import opened SchedulerResume
  import opened SchedulerSteps
  import opened SchedulerSwitch
  import opened SchedulerPriority
  import opened SchedulerRuns
  import opened SchedulerEffects
  import SystemState
  import R = RoundRobin

  type Ops = seq<R.Op<Task>>

  function Played(r: Rota<Task>, ops: Ops): Rota<Task>
    requires R.Legal(r, ops)
    decreases |ops|
  {
    if ops == [] then r else Played(R.Apply(r, ops[0]), ops[1..])
  }

  /** Played on the list a, the operations give b; they remove tasks of `outs` and insert tasks of `ins` only. */
  ghost predicate Script(a: Rota<Task>, ops: Ops, b: Rota<Task>, outs: set<Task>, ins: set<Task>) {
    && R.Legal(a, ops) && Played(a, ops) == b
    && (forall op <- ops :: op.Remove? ==> op.x in outs) && (forall op <- ops :: op.InsertEnd? ==> op.x in ins)
  }

  lemma {:induction false} PlayedTwice(a: Rota<Task>, o: Ops, p: Ops)
    requires R.Legal(a, o) && R.Legal(Played(a, o), p)
    ensures R.Legal(a, o + p) && Played(a, o + p) == Played(Played(a, o), p) && R.Nexts(o + p) == R.Nexts(o) + R.Nexts(p)
    decreases |o|
  {
    if o == [] {
      assert o + p == p;
    } else {
      assert (o + p)[0] == o[0] && (o + p)[1..] == o[1..] + p;
      PlayedTwice(R.Apply(a, o[0]), o[1..], p);
    }
  }

  lemma Then(a: Rota<Task>, o: Ops, b: Rota<Task>, p: Ops, c: Rota<Task>, outs: set<Task>, ins: set<Task>)
    requires Script(a, o, b, outs, ins) && Script(b, p, c, outs, ins)
    ensures Script(a, o + p, c, outs, ins) && R.Nexts(o + p) == R.Nexts(o) + R.Nexts(p)
  {
    PlayedTwice(a, o, p);
  }

  lemma Wider(a: Rota<Task>, o: Ops, b: Rota<Task>, outs: set<Task>, ins: set<Task>, outs': set<Task>, ins': set<Task>)
    requires Script(a, o, b, outs, ins) && outs <= outs' && ins <= ins'
    ensures Script(a, o, b, outs', ins')
  {
  }

  lemma NoOps(a: Rota<Task>)
    ensures Script(a, [], a, {}, {}) && R.Nexts<Task>([]) == 0
  {
  }

  lemma OneOp(a: Rota<Task>, op: R.Op<Task>)
    requires a.Valid() && R.Allowed(a, op)
    ensures R.Legal(a, [op]) && Played(a, [op]) == R.Apply(a, op) && R.Nexts([op]) == if op.Next? then 1 else 0
  {
    assert [op][1..] == [];
    assert R.Legal(R.Apply(a, op), []);
  }

  function Only(t: Task, yes: bool): set<Task> { if yes then {t} else {} }

  /** Taking an item out of the list it is in. */
  lemma TakeOps(st: Store<Task, ListId>, t: Task, l: ListId) returns (ops: Ops)
    requires Valid(st) && t in st.at
    ensures Script(ListOf(st, l), ops, ListOf(Take(st, t), l), Only(t, st.at[t] == l), {}) && R.Nexts(ops) == 0
  {
    TakeValid(st, t);
    if st.at[t] == l {
      ops := [R.Op.Remove(t)];
      assert ListOf(st, l).Valid();
      OneOp(ListOf(st, l), R.Op.Remove(t));
    } else {
      ops := [];
      NoOps(ListOf(st, l));
    }
  }

  /** Putting one in at the end. */
  lemma EndOps(st: Store<Task, ListId>, t: Task, m: ListId, l: ListId) returns (ops: Ops)
    requires Valid(st) && t !in st.at
    ensures Script(ListOf(st, l), ops, ListOf(PutEnd(st, m, t), l), {}, Only(t, m == l)) && R.Nexts(ops) == 0
  {
    PutEndValid(st, m, t);
    if m == l {
      ops := [R.Op.InsertEnd(t)];
      assert ListOf(st, l).Valid();
      assert t !in Items(st, l);
      OneOp(ListOf(st, l), R.Op.InsertEnd(t));
    } else {
      ops := [];
      NoOps(ListOf(st, l));
    }
  }

  /** From one list to the end of another, or of the same. */
  lemma MoveOps(st: Store<Task, ListId>, t: Task, m: ListId, l: ListId) returns (ops: Ops)
    requires Valid(st) && t in st.at
    ensures Script(ListOf(st, l), ops, ListOf(PutEnd(Take(st, t), m, t), l), Only(t, st.at[t] == l), Only(t, m == l))
      && R.Nexts(ops) == 0
  {
    var a, b, c := ListOf(st, l), ListOf(Take(st, t), l), ListOf(PutEnd(Take(st, t), m, t), l);
    var outs, ins := Only(t, st.at[t] == l), Only(t, m == l);
    TakeValid(st, t);
    var o := TakeOps(st, t, l);
    var p := EndOps(Take(st, t), t, m, l);
    hide Take, PutEnd, Valid, Script;
    Wider(a, o, b, outs, {}, outs, ins);
    Wider(b, p, c, {}, ins, outs, ins);
    Then(a, o, b, p, c, outs, ins);
    ops := o + p;
  }

  /** The list of priority p before and after, with what may leave and come. */
  ghost predicate Turned(s: Sched, s': Sched, p: nat, ops: Ops, outs: set<Task>, ins: set<Task>) {
    Script(ListOf(s.state, Ready(p)), ops, ListOf(s'.state, Ready(p)), outs, ins)
  }

  // ---- ticks ----

  ghost function Expiring(s: Sched, p: nat): set<Task> { set t | t in s.state.at && Expired(s, t) && Prio(s, t) == p }

  lemma {:induction false} UnblockOps(s: Sched, switch: bool, fuel: nat, p: nat) returns (ops: Ops)
    requires Core(s, {}, Now(s)) && |InState(s, CurrentList(s))| <= fuel
    ensures Turned(s, Unblock(s, switch, fuel).s, p, ops, {}, Expiring(s, p)) && R.Nexts(ops) == 0
    decreases fuel
  {
    hide Core, Turned, TimeOut, Script;
    var l := InState(s, CurrentList(s));
    if l == [] || s.tick < Wake(s.tcbs, l[0]) {
      ops := [];
      assert Unblock(s, switch, fuel).s.state == s.state;
      NothingTurned(s, Unblock(s, switch, fuel).s, p, {}, Expiring(s, p));
    } else {
      var h := l[0];
      HeadOfDelayed(s, Now(s));
      TimeOutCore(s, h, Now(s));
      TimeOutClock(s, h);
      ShorterList(s, h);
      ExpiredAfter(s, h);
      var m := TimeOut(s, h);
      var o := TimeOutOps(s, h, p);
      var switch' := switch || Prio(s, h) >= Prio(s, s.current);
      var rest := UnblockOps(m, switch', fuel - 1, p);
      assert Expiring(m, p) <= Expiring(s, p);
      ops := TurnedTwice(s, m, Unblock(m, switch', fuel - 1).s, p, o, rest, {}, Expiring(m, p), Expiring(s, p));
    }
  }

  lemma NothingTurned(s: Sched, s': Sched, p: nat, outs: set<Task>, ins: set<Task>)
    requires ListOf(s'.state, Ready(p)) == ListOf(s.state, Ready(p))
    ensures Turned(s, s', p, [], outs, ins) && R.Nexts<Task>([]) == 0
  {
    NoOps(ListOf(s.state, Ready(p)));
  }

  lemma TurnedTwice(s: Sched, m: Sched, s': Sched, p: nat, o: Ops, rest: Ops, outs: set<Task>, ins: set<Task>, all: set<Task>)
    returns (ops: Ops)
    requires Turned(s, m, p, o, outs, all) && Turned(m, s', p, rest, outs, ins) && ins <= all
    ensures Turned(s, s', p, ops, outs, all) && R.Nexts(ops) == R.Nexts(o) + R.Nexts(rest)
  {
    var a, b, c := ListOf(s.state, Ready(p)), ListOf(m.state, Ready(p)), ListOf(s'.state, Ready(p));
    hide Script;
    Wider(b, rest, c, outs, ins, outs, all);
    Then(a, o, b, rest, c, outs, all);
    ops := o + rest;
  }

  lemma TimeOutOps(s: Sched, h: Task, p: nat) returns (ops: Ops)
    requires Core(s, {}, Now(s)) && Expired(s, h)
    ensures Turned(s, TimeOut(s, h), p, ops, {}, Expiring(s, p)) && R.Nexts(ops) == 0
  {
    ops := MoveOps(s.state, h, Ready(Prio(s, h)), Ready(p));
    assert TimeOut(s, h).state == PutEnd(Take(s.state, h), Ready(Prio(s, h)), h) by { hide Take, PutEnd; }
    hide Core, TimeOut, Script;
    Wider(ListOf(s.state, Ready(p)), ops, ListOf(TimeOut(s, h).state, Ready(p)), {}, Only(h, Prio(s, h) == p), {}, Expiring(s, p));
  }

  ghost function DueAtNext(s: Sched, p: nat): set<Task> { set t | t in s.state.at && DueNext(s, t) && Prio(s, t) == p }

  /** A tick inserts at the end of a ready list the tasks due at it, and does nothing else to it. */
  lemma TickOps(s: Sched, p: nat) returns (ops: Ops)
    requires Core(s, {}, Now(s) + 1)
    ensures Turned(s, IncrementTick(s).s, p, ops, {}, DueAtNext(s, p)) && R.Nexts(ops) == 0
  {
    hide Script;
    if s.suspended > 0 {
      ops := [];
      NothingTurned(s, IncrementTick(s).s, p, {}, DueAtNext(s, p));
    } else {
      var s1 := Advanced(s);
      AdvancedCore(s);
      forall t ensures Expired(s1, t) <==> DueNext(s, t) { ExpiredIffDue(s, t); }
      AdvancedFrame(s);
      hide Core;
      if s1.tick >= s1.next {
        var n := |InState(s1, CurrentList(s1))|;
        ops := UnblockOps(s1, false, n, p);
        assert Expiring(s1, p) == DueAtNext(s, p);
      } else {
        ops := [];
        NothingTurned(s, IncrementTick(s).s, p, {}, DueAtNext(s, p));
      }
    }
  }

  ghost function DueBy(s: Sched, n: nat, p: nat): set<Task> { set t | t in s.state.at && DueWithin(s, n, t) && Prio(s, t) == p }

  lemma {:induction false} ReplayOps(s: Sched, n: nat, p: nat) returns (ops: Ops)
    requires Core(s, {}, Now(s) + 1) && s.suspended == 0
    ensures Turned(s, Replay(s, n), p, ops, {}, DueBy(s, n, p)) && R.Nexts(ops) == 0
    decreases n
  {
    hide Core, Turned, IncrementTick, Woken;
    if n == 0 {
      ops := [];
      NothingTurned(s, s, p, {}, DueBy(s, n, p));
    } else {
      TickExact(s);
      var r, m := IncrementTick(s), ReplayOne(s);
      SameListsCore(r.s, m, {}, Now(r.s) + 1);
      OneTick(s, r, m);
      var o := TickOps(s, p);
      var rest := ReplayOps(m, n - 1, p);
      DueSooner(s, r.s, m, n, p);
      assert Turned(s, m, p, o, {}, DueBy(s, n, p)) by { TickTurned(s, r.s, m, p, o, n); }
      ops := TurnedTwice(s, m, Replay(m, n - 1), p, o, rest, {}, DueBy(m, n - 1, p), DueBy(s, n, p));
    }
  }

  lemma TickTurned(s: Sched, r: Sched, m: Sched, p: nat, o: Ops, n: nat)
    requires Turned(s, r, p, o, {}, DueAtNext(s, p)) && m.state == r.state && n > 0
    ensures Turned(s, m, p, o, {}, DueBy(s, n, p))
  {
    Wider(ListOf(s.state, Ready(p)), o, ListOf(m.state, Ready(p)), {}, DueAtNext(s, p), {}, DueBy(s, n, p));
  }

  lemma DueSooner(s: Sched, r: Sched, m: Sched, n: nat, p: nat)
    requires n > 0 && Woken(s, r) && m == r.(yieldPending := m.yieldPending)
    ensures DueBy(m, n - 1, p) <= DueBy(s, n, p)
  {
    forall t | t in DueBy(m, n - 1, p) ensures t in DueBy(s, n, p) {
      assert t in s.state.at by { assert t in m.state.at.Keys; }
      assert m.state.at[t] == r.state.at[t];
    }
  }

  // ---- resuming the scheduler ----

  ghost function PendingAt(s: Sched, p: nat): set<Task> { set t | t in s.event.at && Pending(s, t) && Prio(s, t) == p }

  ghost function Waiting(s: Sched): set<Task> { set t | t in s.event.at }

  lemma {:induction false} DrainOps(s: Sched, fuel: nat, p: nat) returns (ops: Ops)
    requires Core(s, {}, Now(s) + 1) && EventsLive(s) && |InEvent(s, PendingReady)| <= fuel
    ensures Turned(s, Drain(s, fuel), p, ops, Waiting(s), PendingAt(s, p)) && R.Nexts(ops) == 0
    decreases fuel
  {
    hide Core, Turned, DrainOne, EventsLive, AddReady, RemoveState, RemoveEvent;
    var l := InEvent(s, PendingReady);
    if l == [] {
      ops := [];
      NothingTurned(s, s, p, Waiting(s), PendingAt(s, p));
    } else {
      var h := l[0];
      FirstPending(s);
      PendingKnown(s, h);
      DrainOneCore(s, h);
      DrainUnfold(s, fuel);
      var m := DrainOne(s, h);
      var o := DrainOneOps(s, h, p);
      var rest := DrainOps(m, fuel - 1, p);
      PendingFewer(s, m, h, p);
      assert Turned(m, Drain(m, fuel - 1), p, rest, Waiting(s), PendingAt(m, p)) by {
        MoreOut(m, Drain(m, fuel - 1), p, rest, Waiting(m), Waiting(s), PendingAt(m, p));
      }
      ops := TurnedTwice(s, m, Drain(m, fuel - 1), p, o, rest, Waiting(s), PendingAt(m, p), PendingAt(s, p));
    }
  }

  lemma MoreOut(s: Sched, s': Sched, p: nat, ops: Ops, outs: set<Task>, more: set<Task>, ins: set<Task>)
    requires Turned(s, s', p, ops, outs, ins) && outs <= more
    ensures Turned(s, s', p, ops, more, ins)
  {
    Wider(ListOf(s.state, Ready(p)), ops, ListOf(s'.state, Ready(p)), outs, ins, more, ins);
  }

  lemma PendingFewer(s: Sched, m: Sched, h: Task, p: nat)
    requires m == s.(state := m.state, event := m.event, top := m.top, yieldPending := m.yieldPending)
    requires m.event.at == s.event.at - {h}
    ensures Waiting(m) <= Waiting(s) && PendingAt(m, p) <= PendingAt(s, p)
  {
    assert forall t :: Prio(m, t) == Prio(s, t);
  }

  lemma DrainOneOps(s: Sched, h: Task, p: nat) returns (ops: Ops)
    requires Core(s, {}, Now(s) + 1) && Pending(s, h) && h in s.state.at
    ensures Turned(s, DrainOne(s, h), p, ops, Waiting(s), PendingAt(s, p)) && R.Nexts(ops) == 0
  {
    ops := MoveOps(s.state, h, Ready(Prio(s, h)), Ready(p));
    assert DrainOne(s, h).state == PutEnd(Take(s.state, h), Ready(Prio(s, h)), h) by { hide Take, PutEnd; }
    hide Core, DrainOne, Script;
    Wider(ListOf(s.state, Ready(p)), ops, ListOf(DrainOne(s, h).state, Ready(p)),
          Only(h, s.state.at[h] == Ready(p)), Only(h, Prio(s, h) == p), Waiting(s), PendingAt(s, p));
  }

  ghost function BackAt(s: Sched, p: nat): set<Task> {
    set t | t in s.tcbs && (Pending(s, t) || DueWithin(s, s.pended, t)) && Prio(s, t) == p
  }

  lemma ResumeOps(s: Sched, p: nat) returns (ops: Ops)
    requires Inv(s) && s.suspended == 1
    ensures Turned(s, ResumeAll(s), p, ops, Waiting(s), BackAt(s, p)) && R.Nexts(ops) == 0
  {
    hide Core, ReadyPended, Replay, EventsLive, Drained, Turned;
    var s0 := s.(suspended := 0);
    SameListsCore(s, s0, {}, Now(s) + 1);
    LiveToo(s, s0);
    ReadyPendedExact(s0);
    var s1 := ReadyPended(s0);
    DrainedScalars(s0, s1);
    var o := PendedOps(s0, p);
    var rest := ReplayOps(s1, s.pended, p);
    var s2 := Replay(s1, s.pended);
    Keys(s);
    BackFewer(s, s0, s1, p);
    assert Turned(s, s1, p, o, Waiting(s), BackAt(s, p)) by { SameStart(s, s0, s1, p, o); }
    MoreOut(s1, s2, p, rest, {}, Waiting(s), DueBy(s1, s.pended, p));
    ops := TurnedTwice(s, s1, s2, p, o, rest, Waiting(s), DueBy(s1, s.pended, p), BackAt(s, p));
    assert ResumeAll(s).state == s2.state;
    SameEnd(s, s2, ResumeAll(s), p, ops, Waiting(s), BackAt(s, p));
  }

  lemma PendedOps(s: Sched, p: nat) returns (ops: Ops)
    requires Core(s, {}, Now(s) + 1) && EventsLive(s)
    ensures Turned(s, ReadyPended(s), p, ops, Waiting(s), PendingAt(s, p)) && R.Nexts(ops) == 0
  {
    hide Core, Drain, EventsLive, Turned;
    if InEvent(s, PendingReady) == [] {
      ops := [];
      NothingTurned(s, s, p, Waiting(s), PendingAt(s, p));
    } else {
      var d := Drain(s, |InEvent(s, PendingReady)|);
      ops := DrainOps(s, |InEvent(s, PendingReady)|, p);
      SameEnd(s, d, ResetNext(d), p, ops, Waiting(s), PendingAt(s, p));
    }
  }

  lemma SameEnd(s: Sched, d: Sched, s': Sched, p: nat, ops: Ops, outs: set<Task>, ins: set<Task>)
    requires Turned(s, d, p, ops, outs, ins) && s'.state == d.state
    ensures Turned(s, s', p, ops, outs, ins)
  {
  }

  lemma SameStart(s: Sched, s0: Sched, s1: Sched, p: nat, o: Ops)
    requires s0 == s.(suspended := 0) && Turned(s0, s1, p, o, Waiting(s0), PendingAt(s0, p)) && s.event.at.Keys <= s.tcbs.Keys
    ensures Turned(s, s1, p, o, Waiting(s), BackAt(s, p))
  {
    forall t | t in PendingAt(s0, p) ensures t in BackAt(s, p) {
      assert t in s.event.at.Keys && Pending(s, t) && Prio(s, t) == Prio(s0, t);
    }
    Wider(ListOf(s.state, Ready(p)), o, ListOf(s1.state, Ready(p)), Waiting(s0), PendingAt(s0, p), Waiting(s), BackAt(s, p));
  }

  lemma BackFewer(s: Sched, s0: Sched, s1: Sched, p: nat)
    requires s0 == s.(suspended := 0) && Drained(s0, s1.(next := s0.next)) && s.state.at.Keys == s.tcbs.Keys
    ensures DueBy(s1, s.pended, p) <= BackAt(s, p)
  {
    var m := s1.(next := s0.next);
    forall t | t in DueBy(s1, s.pended, p) ensures t in BackAt(s, p) {
      assert t in m.state.at && t in s.state.at by { assert t in m.state.at.Keys; }
      assert m.state.at[t] == if Pending(s0, t) then Ready(Prio(s0, t)) else s0.state.at[t];
      assert T(s1, t) == T(s, t) && Prio(s1, t) == Prio(s, t);
    }
  }

  // ---- every operation ----

  /** The step may take x off its ready list, or put it there again. */
  predicate Relists(s: Sched, step: Step, x: Task) {
    match step
    case Delay(_) => x == s.current
    case WaitOrdered(_, _) => x == s.current
    case WaitUnordered(_, _, _) => x == s.current
    case WakeFirst(q) => First(InEvent(s, WaitList(q)), x)
    case GiveMutex(q) => x == s.current || First(InEvent(s, WaitList(q)), x)
    case WakeOne(t, _) => x == t
    case SuspendTask(t) => x == t
    case DeleteTask(t) => x == t
    case SetPriority(t, _) => x == t
    case InheritPriority(t) => x == t
    case MutexTimeout(t, _) => x == t
    case ResumeScheduler => x in s.event.at
    case _ => false
  }

  ghost function Leaving(s: Sched, step: Step): set<Task> { set t | t in s.tcbs && Relists(s, step, t) }

  /** The tasks that are put into the ready list of priority p. */
  ghost function Coming(s: Sched, step: Step, p: nat): set<Task> {
    set t | t in Apply(s, step).tcbs && RunsAt(After(s, step, t), p) && (!RunsAt(Seen(s, t), p) || Relists(s, step, t))
  }

  /** vTaskSwitchContext makes its choice in the list of priority p. */
  predicate Selects(s: Sched, step: Step, p: nat) {
    step.PendSv? && s.suspended == 0 && p == HighestBelow(s.top, s.levels)
  }

  /** One step, on the ready list of priority p: insertions at the end of the tasks that come, removals, and one
      move of pxIndex exactly if a switch selects from the list. */
  ghost predicate Listed(s: Sched, step: Step, p: nat, ops: Ops) {
    Turned(s, Apply(s, step), p, ops, Leaving(s, step), Coming(s, step, p))
    && R.Nexts(ops) == (if Selects(s, step, p) then 1 else 0)
    && (step.PendSv? ==> ops == if Selects(s, step, p) then [R.Op<Task>.Next] else [])
  }

  lemma UnmovedOps(s: Sched, step: Step, p: nat)
    requires ListOf(Apply(s, step).state, Ready(p)) == ListOf(s.state, Ready(p)) && !Selects(s, step, p)
    ensures Listed(s, step, p, [])
  {
    hide Apply;
    NothingTurned(s, Apply(s, step), p, Leaving(s, step), Coming(s, step, p));
  }

  /** t goes to the end of list m. */
  lemma MovedOps(s: Sched, step: Step, t: Task, m: ListId, p: nat) returns (ops: Ops)
    requires Inv(s) && Enabled(s, step) && !step.PendSv? && t in s.tcbs && t in Apply(s, step).tcbs
    requires Apply(s, step).state == PutEnd(Take(s.state, t), m, t) && (m.Ready? ==> m.p == Prio(Apply(s, step), t))
    requires Relists(s, step, t) || InList(s, t, Suspended)
    ensures Listed(s, step, p, ops)
  {
    hide Core, Apply, Enabled, Relists, Script, After;
    Keys(s);
    StepExact(s, step);
    var s' := Apply(s, step);
    assert Seen(s', t) == After(s, step, t);
    assert Valid(s.state) by { StateValid(s); }
    ops := MoveOps(s.state, t, m, Ready(p));
    assert s'.state.at == (s.state.at - {t})[t := m] by { hide Remove, InsertEnd; }
    Wider(ListOf(s.state, Ready(p)), ops, ListOf(s'.state, Ready(p)), Only(t, s.state.at[t] == Ready(p)), Only(t, m == Ready(p)),
          Leaving(s, step), Coming(s, step, p));
  }

  lemma StateValid(s: Sched)
    requires Inv(s)
    ensures Valid(s.state)
  {
  }

  /** t leaves its list, for one that is no ready list or for none. */
  lemma LeftOps(s: Sched, step: Step, t: Task, p: nat) returns (ops: Ops)
    requires Inv(s) && !step.PendSv? && t in s.tcbs
    requires ListOf(Apply(s, step).state, Ready(p)) == ListOf(Take(s.state, t), Ready(p))
    requires Relists(s, step, t) || !InList(s, t, Ready(p))
    ensures Listed(s, step, p, ops)
  {
    hide Core, Apply, Relists, Script, After;
    Keys(s);
    var s' := Apply(s, step);
    assert Valid(s.state) by { StateValid(s); }
    ops := TakeOps(s.state, t, Ready(p));
    Wider(ListOf(s.state, Ready(p)), ops, ListOf(s'.state, Ready(p)), Only(t, s.state.at[t] == Ready(p)), {},
          Leaving(s, step), Coming(s, step, p));
  }

  lemma SwitchOps(s: Sched, p: nat) returns (ops: Ops)
    requires Inv(s) && Enabled(s, PendSv)
    ensures Listed(s, PendSv, p, ops)
  {
    hide HighestBelow;
    if Selects(s, PendSv, p) {
      SwitchPicks(s);
      ops := [R.Op.Next];
      var a := ListOf(s.state, Ready(p));
      assert a.Valid();
      OneOp(a, R.Op.Next);
    } else {
      ops := [];
      if s.suspended == 0 { SwitchPicks(s); }
      UnmovedOps(s, PendSv, p);
    }
  }

  lemma BlockOps(s: Sched, step: Step, p: nat) returns (ops: Ops)
    requires Inv(s) && (step.Delay? || step.WaitOrdered? || step.WaitUnordered?)
    requires ListOf(Apply(s, step).state, Ready(p)) == ListOf(Take(s.state, s.current), Ready(p))
    ensures Listed(s, step, p, ops)
  {
    hide Core, Apply;
    Keys(s);
    ops := LeftOps(s, step, s.current, p);
  }

  lemma OrderedList(s: Sched, q: nat, n: Machine.Tick, p: nat)
    ensures ListOf(BlockOn(s, q, n).state, Ready(p)) == ListOf(Take(s.state, s.current), Ready(p))
  {
    hide Take, InsertAt, SearchPos, BlockCurrent;
    var k := SearchPos(EventKeys(s.tcbs, InEvent(s, WaitList(q))), T(s, s.current).eventValue);
    BlockList(s.(event := PutAt(s.event, WaitList(q), k, s.current)), n, true, p);
  }

  lemma UnorderedList(s: Sched, q: nat, v: Machine.Tick, n: Machine.Tick, p: nat)
    ensures ListOf(BlockUnordered(s, q, v, n).state, Ready(p)) == ListOf(Take(s.state, s.current), Ready(p))
  {
    hide Take, InsertEnd, BlockCurrent;
    var m := SetTcb(s, s.current, T(s, s.current).(eventValue := MarkInUse(v)));
    BlockList(m.(event := PutEnd(m.event, WaitList(q), s.current)), n, true, p);
  }

  lemma BlockList(s: Sched, n: Machine.Tick, waiting: bool, p: nat)
    ensures ListOf(BlockCurrent(s, n, waiting).state, Ready(p)) == ListOf(Take(s.state, s.current), Ready(p))
  {
    hide Take, FileDelayed;
    var u := UnreadyDirect(s, s.current, Prio(s, s.current));
    assert u.state == Take(s.state, s.current);
    if !(n == MAX_DELAY && waiting) { FiledList(u, s.current, n, p); }
  }

  lemma FiledList(s: Sched, t: Task, n: Machine.Tick, p: nat)
    ensures ListOf(FileDelayed(s, t, n).state, Ready(p)) == ListOf(s.state, Ready(p))
  {
    hide InsertAt, SearchPos;
  }

  /** Steps that take one task from its list to the end of another, or leave every list as it is. */
  lemma ShiftOps(s: Sched, step: Step, t: Task, p: nat) returns (ops: Ops)
    requires Inv(s) && Enabled(s, step) && !step.PendSv? && t in s.tcbs && t in Apply(s, step).tcbs
    requires Shifts(s, Apply(s, step), t)
    requires Relists(s, step, t) || InList(s, t, Suspended)
    ensures Listed(s, step, p, ops)
  {
    hide Inv, Apply, Enabled, Relists, Shifted;
    if Apply(s, step).state == s.state {
      ops := [];
      UnmovedOps(s, step, p);
    } else {
      var m := ShiftedTo(s, step, t);
      ops := MovedOps(s, step, t, m, p);
    }
  }

  /** t goes to its own ready list, to the suspended list or to the termination list. */
  ghost predicate Shifted(s: Sched, s': Sched, t: Task) {
    || s'.state == PutEnd(Take(s.state, t), Ready(Prio(s', t)), t)
    || s'.state == PutEnd(Take(s.state, t), Suspended, t) || s'.state == PutEnd(Take(s.state, t), Terminated, t)
  }

  ghost predicate Shifts(s: Sched, s': Sched, t: Task) {
    (Shifted(s, s', t) || s'.state == s.state) && (t in s.tcbs ==> t in s'.tcbs)
  }

  lemma ShiftedTo(s: Sched, step: Step, t: Task) returns (m: ListId)
    requires Shifted(s, Apply(s, step), t)
    ensures Apply(s, step).state == PutEnd(Take(s.state, t), m, t) && (m.Ready? ==> m.p == Prio(Apply(s, step), t))
  {
    hide PutEnd, Take, Apply;
    var s' := Apply(s, step);
    if s'.state == PutEnd(Take(s.state, t), Suspended, t) {
      m := Suspended;
    } else if s'.state == PutEnd(Take(s.state, t), Terminated, t) {
      m := Terminated;
    } else {
      m := Ready(Prio(s', t));
    }
  }

  lemma CalledShifts(s: Sched, q: nat)
    requires InEvent(s, WaitList(q)) != []
    ensures Shifts(s, WakeHead(s, q), InEvent(s, WaitList(q))[0])
  {
    hide PutEnd, Take;
  }

  lemma WokenShifts(s: Sched, t: Task, v: Machine.Tick)
    ensures Shifts(s, WakeUnordered(s, t, v), t)
  {
    hide PutEnd, Take;
  }

  lemma ResumedShifts(s: Sched, t: Task)
    ensures Shifts(s, Resume(s, t), t)
  {
    hide PutEnd, Take;
  }

  lemma CalledBackShifts(s: Sched, t: Task)
    ensures Shifts(s, ResumeFromISR(s, t), t)
  {
    hide PutEnd, Take;
  }

  lemma SuspendedShifts(s: Sched, t: Task)
    ensures Shifts(s, Scheduler.SuspendTask(s, t), t)
  {
    hide PutEnd, Take;
  }

  lemma DeletedShifts(s: Sched)
    ensures Shifts(s, Delete(s, s.current), s.current)
  {
    hide PutEnd, Take;
  }

  lemma PricedShifts(s: Sched, t: Task, p: nat)
    ensures Shifts(s, PrioritySet(s, t, p), t)
  {
    hide PutEnd, Take;
  }

  lemma InheritShifts(s: Sched, t: Task)
    ensures Shifts(s, Inherit(s, t), t)
  {
    hide PutEnd, Take;
  }

  lemma TimeoutShifts(s: Sched, t: Task, p: nat)
    ensures Shifts(s, DisinheritAfterTimeout(s, t, p), t)
  {
    hide PutEnd, Take;
  }

  lemma GivenShifts(s: Sched)
    ensures Shifts(s, Disinherit(s).s, s.current)
  {
    hide PutEnd, Take;
  }

  // a mutex given back may move its giver, and a task that waits for it

  lemma GiveOps(s: Sched, q: nat, p: nat) returns (ops: Ops)
    requires Inv(s) && Enabled(s, Step.GiveMutex(q))
    ensures Listed(s, Step.GiveMutex(q), p, ops)
  {
    hide Inv, Enabled, Disinherit, WakeHead, Turned, Leaving, Coming;
    var step, r := Step.GiveMutex(q), Disinherit(s);
    var s' := Apply(s, step);
    var outs, ins := Leaving(s, step), Coming(s, step, p);
    var o := GiverHalf(s, q, p);
    if InEvent(s, WaitList(q)) == [] {
      ops := o;
      SameEnd(s, r.s, s', p, ops, outs, ins);
    } else {
      var rest := HeadHalf(s, q, p);
      ops := TurnedTwice(s, r.s, s', p, o, rest, outs, ins, ins);
    }
  }

  lemma GiverHalf(s: Sched, q: nat, p: nat) returns (o: Ops)
    requires Inv(s) && Enabled(s, Step.GiveMutex(q))
    ensures Turned(s, Disinherit(s).s, p, o, Leaving(s, Step.GiveMutex(q)), Coming(s, Step.GiveMutex(q), p)) && R.Nexts(o) == 0
  {
    var step, m := Step.GiveMutex(q), Disinherit(s).s;
    assert Valid(s.state) by { StateValid(s); }
    Keys(s);
    hide Inv, Disinherit, Turned, Relisted, OnlyOne, Valid, Shifts, Leaving, Coming, Apply;
    GivenMoves(s);
    GivenShifts(s);
    o := ShiftsOps(s, m, s.current, p);
    assert Prio(m, s.current) == Given(s, Seen(s, s.current)).prio by { GivenPrio(s, m); }
    assert s.current in Apply(s, step).tcbs by { StepExact(s, step); SeenKnown(s, step, s.current); }
    GiverComes(s, m, q, p);
    Widen(s, m, p, o, s.current, Leaving(s, step), Coming(s, step, p));
  }

  lemma SeenKnown(s: Sched, step: Step, t: Task)
    requires Exact(s, step, Apply(s, step)) && After(s, step, t).Card?
    ensures t in Apply(s, step).tcbs
  {
    assert Seen(Apply(s, step), t) == After(s, step, t);
    hide Apply, After;
  }

  lemma GivenPrio(s: Sched, m: Sched)
    requires s.current in s.tcbs && s.current in s.state.at && s.tcbs[s.current].held > 0
    requires var b := s.tcbs[s.current];
      Relisted(s, m, s.current, if b.held == 1 && b.prio != b.base then b.(held := 0, prio := b.base, eventValue := s.levels - b.base)
        else b.(held := b.held - 1))
    ensures Prio(m, s.current) == Given(s, Seen(s, s.current)).prio
  {
  }

  lemma HeadHalf(s: Sched, q: nat, p: nat) returns (rest: Ops)
    requires Inv(s) && Enabled(s, Step.GiveMutex(q)) && InEvent(s, WaitList(q)) != []
    ensures Turned(Disinherit(s).s, Apply(s, Step.GiveMutex(q)), p, rest, Leaving(s, Step.GiveMutex(q)),
                   Coming(s, Step.GiveMutex(q), p)) && R.Nexts(rest) == 0
  {
    hide Inv, Core, Enabled, Disinherit, Turned, Valid, Shifts, Leaving, Coming, Apply, WakeHead, Exact, After, InEvent;
    var step, m, h := Step.GiveMutex(q), Disinherit(s).s, InEvent(s, WaitList(q))[0];
    var s' := Apply(s, step);
    HeadReady(s, q);
    StepExact(s, step);
    ExactCard(s, step, s', h);
    HeadLives(s, step, q, h);
    CalledShifts(m, q);
    rest := ShiftsOps(m, s', h, p);
    HeadComes(s, m, s', q, h, p);
    Widen(m, s', p, rest, h, Leaving(s, step), Coming(s, step, p));
  }

  /** The giver done with, the head of the list is where a wake-up expects it. */
  lemma HeadReady(s: Sched, q: nat)
    requires Inv(s) && Enabled(s, Step.GiveMutex(q)) && InEvent(s, WaitList(q)) != []
    ensures var m, h := Disinherit(s).s, InEvent(s, WaitList(q))[0];
      && Valid(m.state) && h in m.state.at && h in s.tcbs && h in s.state.at && Apply(s, Step.GiveMutex(q)) == WakeHead(m, q)
      && InEvent(m, WaitList(q)) == InEvent(s, WaitList(q))
  {
    hide Inv, Core, Valid, Disinherit, WakeHead, Apply;
    var m, h := Disinherit(s).s, InEvent(s, WaitList(q))[0];
    HeadWaits(s, q);
    DisinheritCore(s);
    CoreValid(m);
    GiveWakes(s, q);
    Keys(s);
    assert h in m.state.at.Keys;
  }

  lemma GiveWakes(s: Sched, q: nat)
    requires InEvent(s, WaitList(q)) != []
    ensures Apply(s, Step.GiveMutex(q)) == WakeHead(Disinherit(s).s, q)
  {
    hide Disinherit, WakeHead;
  }

  lemma CoreValid(s: Sched)
    requires Core(s, {}, Now(s) + 1)
    ensures Valid(s.state)
  {
  }

  lemma ExactCard(s: Sched, step: Step, s': Sched, t: Task)
    requires Exact(s, step, s')
    ensures Seen(s', t) == After(s, step, t)
  {
    hide After;
  }

  lemma HeadLives(s: Sched, step: Step, q: nat, h: Task)
    requires step == Step.GiveMutex(q) && h in s.tcbs && h in s.state.at && Exact(s, step, Apply(s, step))
    ensures h in Apply(s, step).tcbs
  {
    hide Apply;
    assert Seen(Apply(s, step), h) == After(s, step, h);
  }

  lemma Widen(s: Sched, s': Sched, p: nat, ops: Ops, t: Task, outs: set<Task>, ins: set<Task>)
    requires Turned(s, s', p, ops, {t}, Only(t, Prio(s', t) == p && IsReady(s', t) && s'.state != s.state))
    requires t in outs && (Prio(s', t) == p && IsReady(s', t) && s'.state != s.state ==> t in ins)
    ensures Turned(s, s', p, ops, outs, ins)
  {
    Wider(ListOf(s.state, Ready(p)), ops, ListOf(s'.state, Ready(p)), {t},
          Only(t, Prio(s', t) == p && IsReady(s', t) && s'.state != s.state), outs, ins);
  }

  lemma ShiftsOps(s: Sched, s': Sched, t: Task, p: nat) returns (ops: Ops)
    requires Valid(s.state) && t in s.state.at && Shifts(s, s', t)
    ensures Turned(s, s', p, ops, {t}, Only(t, Prio(s', t) == p && IsReady(s', t) && s'.state != s.state))
      && R.Nexts(ops) == 0
  {
    var a, b := ListOf(s.state, Ready(p)), ListOf(s'.state, Ready(p));
    var ins := Only(t, Prio(s', t) == p && IsReady(s', t) && s'.state != s.state);
    hide Valid, Script;
    if s'.state == s.state {
      ops := [];
      NothingTurned(s, s', p, {t}, ins);
    } else {
      var m := if s'.state == PutEnd(Take(s.state, t), Suspended, t) then Suspended
        else if s'.state == PutEnd(Take(s.state, t), Terminated, t) then Terminated else Ready(Prio(s', t));
      ops := MoveOps(s.state, t, m, Ready(p));
      assert s'.state.at[t] == m by { hide Remove, InsertEnd; }
      Wider(a, ops, b, Only(t, s.state.at[t] == Ready(p)), Only(t, m == Ready(p)), {t}, ins);
    }
  }

  lemma GiverComes(s: Sched, m: Sched, q: nat, p: nat)
    requires s.current in s.tcbs && s.current in s.state.at && IsReady(s, s.current)
    requires s.current in Apply(s, Step.GiveMutex(q)).tcbs && Prio(m, s.current) == Given(s, Seen(s, s.current)).prio
    ensures s.current in Leaving(s, Step.GiveMutex(q))
    ensures Prio(m, s.current) == p ==> s.current in Coming(s, Step.GiveMutex(q), p)
  {
    hide Apply;
  }

  lemma HeadComes(s: Sched, m: Sched, s': Sched, q: nat, h: Task, p: nat)
    requires First(InEvent(s, WaitList(q)), h) && h in s.tcbs && s' == Apply(s, Step.GiveMutex(q))
    requires Seen(s', h) == After(s, Step.GiveMutex(q), h) && h in s'.tcbs
    ensures h in Leaving(s, Step.GiveMutex(q))
    ensures Prio(s', h) == p && IsReady(s', h) ==> h in Coming(s, Step.GiveMutex(q), p)
  {
    hide Apply, After;
  }

  lemma TickListed(s: Sched, p: nat) returns (ops: Ops)
    requires Inv(s)
    ensures Listed(s, Tick, p, ops)
  {
    if s.suspended > 0 {
      ops := [];
      assert Apply(s, Tick).state == s.state;
      UnmovedOps(s, Tick, p);
    } else {
      ops := TickOps(s, p);
      Keys(s);
      TickComers(s, p);
      hide Core, IncrementTick, Script;
      Wider(ListOf(s.state, Ready(p)), ops, ListOf(Apply(s, Tick).state, Ready(p)), {}, DueAtNext(s, p),
            Leaving(s, Tick), Coming(s, Tick, p));
    }
  }

  lemma TickComers(s: Sched, p: nat)
    requires Inv(s) && s.suspended == 0
    ensures DueAtNext(s, p) <= Coming(s, Tick, p)
  {
    hide Inv, Coming, Seen;
    Keys(s);
    TickKeepsTcbs(s);
    forall t | t in DueAtNext(s, p) ensures t in Coming(s, Tick, p) { OneComes(s, t, p); }
  }

  lemma TickKeepsTcbs(s: Sched)
    requires Inv(s) && s.suspended == 0
    ensures Apply(s, Tick).tcbs == s.tcbs
  {
    TickExact(s);
    hide Core, IncrementTick;
  }

  lemma OneComes(s: Sched, t: Task, p: nat)
    requires DueNext(s, t) && Prio(s, t) == p && t in s.tcbs && s.suspended == 0 && Apply(s, Tick).tcbs == s.tcbs
    ensures t in Coming(s, Tick, p)
  {
    hide Apply;
  }

  lemma ResumeListed(s: Sched, p: nat) returns (ops: Ops)
    requires Inv(s) && s.suspended > 0
    ensures Listed(s, ResumeScheduler, p, ops)
  {
    hide Core, ResumeAll, Script;
    if s.suspended > 1 {
      ops := [];
      Nested(s);
      UnmovedOps(s, ResumeScheduler, p);
    } else {
      ops := ResumeOps(s, p);
      Keys(s);
      ResumedExact(s);
      ResumeComers(s, p);
      Wider(ListOf(s.state, Ready(p)), ops, ListOf(ResumeAll(s).state, Ready(p)), Waiting(s), BackAt(s, p),
            Leaving(s, ResumeScheduler), Coming(s, ResumeScheduler, p));
    }
  }

  lemma ResumeComers(s: Sched, p: nat)
    requires Inv(s) && s.suspended == 1 && ResumeAll(s).tcbs == s.tcbs
    ensures BackAt(s, p) <= Coming(s, ResumeScheduler, p) && Waiting(s) <= Leaving(s, ResumeScheduler)
  {
    hide Inv, ResumeAll, Coming, Seen;
    Keys(s);
    assert forall t :: t in s.event.at <==> t in s.event.at.Keys;
    forall t | t in BackAt(s, p) ensures t in Coming(s, ResumeScheduler, p) { OneBack(s, t, p); }
  }

  lemma OneBack(s: Sched, t: Task, p: nat)
    requires t in BackAt(s, p) && t in s.tcbs && t in s.state.at && s.suspended == 1 && ResumeAll(s).tcbs == s.tcbs
    ensures t in Coming(s, ResumeScheduler, p)
  {
    hide ResumeAll;
  }

  lemma CreateOps(s: Sched, t: Task, q: nat, p: nat) returns (ops: Ops)
    requires Inv(s) && Enabled(s, CreateTask(t, q))
    ensures Listed(s, CreateTask(t, q), p, ops)
  {
    assert Valid(s.state) by { StateValid(s); }
    Keys(s);
    hide Core, Script, PutEnd;
    assert t !in s.state.at;
    ops := EndOps(s.state, t, Ready(q), Ready(p));
    var s' := Apply(s, CreateTask(t, q));
    assert s'.state == PutEnd(s.state, Ready(q), t) && t in s'.tcbs;
    hide Apply;
    Wider(ListOf(s.state, Ready(p)), ops, ListOf(s'.state, Ready(p)), {}, Only(t, Ready(q) == Ready(p)),
          Leaving(s, CreateTask(t, q)), Coming(s, CreateTask(t, q), p));
  }

  lemma GoneOps(s: Sched, step: Step, p: nat) returns (ops: Ops)
    requires Inv(s) && Enabled(s, step) && (step.CleanUp? || (step.DeleteTask? && step.t != s.current))
    ensures Listed(s, step, p, ops)
  {
    Keys(s);
    if step.CleanUp? {
      DeletedHead(s);
      CleanedList(s, p);
      hide Core, Cleanup;
      ops := LeftOps(s, step, InState(s, Terminated)[0], p);
    } else {
      DeletedList(s, step.t, p);
      hide Core, Delete;
      ops := LeftOps(s, step, step.t, p);
    }
  }

  lemma CleanedList(s: Sched, p: nat)
    requires InState(s, Terminated) != [] && s.deleted > 0 && s.numTasks > 0
    ensures ListOf(Cleanup(s).state, Ready(p)) == ListOf(Take(s.state, InState(s, Terminated)[0]), Ready(p))
  {
    hide Take;
  }

  lemma DeletedList(s: Sched, t: Task, p: nat)
    requires t != s.current
    ensures ListOf(Delete(s, t).state, Ready(p)) == ListOf(Take(s.state, t), Ready(p))
  {
    hide Take;
  }

  predicate Shifter(s: Sched, step: Step) {
    step.WakeFirst? || step.WakeOne? || step.SuspendTask? || step.ResumeTask? || step.ResumeFromIsr?
    || step.SetPriority? || step.InheritPriority? || step.MutexTimeout? || (step.DeleteTask? && step.t == s.current)
  }

  lemma SingleOps(s: Sched, step: Step, p: nat) returns (ops: Ops)
    requires Inv(s) && Enabled(s, step) && Shifter(s, step)
    ensures Listed(s, step, p, ops)
  {
    var t := Subject(s, step);
    SubjectKnown(s, step);
    hide Inv, Enabled, Apply, Subject, Shifts;
    if (step.ResumeTask? || step.ResumeFromIsr?) && !InList(s, t, Suspended) {
      assert step.t == t by { SubjectOf(s, step); }
      NotParked(s, step);
      ops := [];
      UnmovedOps(s, step, p);
    } else {
      SingleShifts(s, step);
      ShiftsKnown(s, Apply(s, step), t);
      SubjectMoves(s, step);
      ops := ShiftOps(s, step, t, p);
    }
  }

  lemma SubjectOf(s: Sched, step: Step)
    requires step.ResumeTask? || step.ResumeFromIsr?
    ensures Subject(s, step) == step.t
  {
  }

  lemma SubjectKnown(s: Sched, step: Step)
    requires Inv(s) && Enabled(s, step) && Shifter(s, step)
    ensures Subject(s, step) in s.tcbs && (step.WakeFirst? ==> InEvent(s, WaitList(step.q)) != [])
  {
    Keys(s);
    if step.WakeFirst? { HeadWaits(s, step.q); }
    if step.WakeOne? { assert step.t in s.event.at.Keys; }
    hide Inv;
  }

  lemma SubjectMoves(s: Sched, step: Step)
    requires Shifter(s, step) && (step.WakeFirst? ==> InEvent(s, WaitList(step.q)) != [])
    ensures Relists(s, step, Subject(s, step)) || step.ResumeTask? || step.ResumeFromIsr?
  {
  }

  lemma SingleShifts(s: Sched, step: Step)
    requires Shifter(s, step) && (step.WakeFirst? ==> InEvent(s, WaitList(step.q)) != [])
    ensures Shifts(s, Apply(s, step), Subject(s, step))
  {
    hide WakeHead, WakeUnordered, Scheduler.SuspendTask, Resume, ResumeFromISR, PrioritySet, Inherit, DisinheritAfterTimeout, Delete,
      Shifts;
    match step {
      case WakeFirst(q) => CalledShifts(s, q);
      case WakeOne(t, v) => WokenShifts(s, t, v);
      case SuspendTask(t) => SuspendedShifts(s, t);
      case ResumeTask(t) => ResumedShifts(s, t);
      case ResumeFromIsr(t) => CalledBackShifts(s, t);
      case SetPriority(t, n) => PricedShifts(s, t, n);
      case InheritPriority(t) => InheritShifts(s, t);
      case MutexTimeout(t, n) => TimeoutShifts(s, t, n);
      case DeleteTask(_) => DeletedShifts(s);
    }
  }

  lemma ShiftsKnown(s: Sched, s': Sched, t: Task)
    requires Shifts(s, s', t) && t in s.tcbs
    ensures t in s'.tcbs
  {
    hide Shifted;
  }

  lemma NotParked(s: Sched, step: Step)
    requires (step.ResumeTask? || step.ResumeFromIsr?) && !InList(s, step.t, Suspended)
    ensures Apply(s, step) == s && step.t == Subject(s, step)
  {
  }

  /** Every operation acts on every ready list by insertions at the end of the tasks that come to it, removals, and
      one move of pxIndex exactly if a switch selects from it. */
  lemma StepOps(s: Sched, step: Step, p: nat) returns (ops: Ops)
    requires Inv(s) && Enabled(s, step)
    ensures Listed(s, step, p, ops)
  {
    hide Inv, Listed;
    if step.Tick? {
      ops := TickListed(s, p);
    } else if step.PendSv? {
      ops := SwitchOps(s, p);
    } else if step.ResumeScheduler? {
      ops := ResumeListed(s, p);
    } else if step.Delay? || step.WaitOrdered? || step.WaitUnordered? {
      SleepLists(s, step, p);
      ops := BlockOps(s, step, p);
    } else if step.CreateTask? {
      ops := CreateOps(s, step.t, step.p, p);
    } else if step.CleanUp? || (step.DeleteTask? && step.t != s.current) {
      ops := GoneOps(s, step, p);
    } else if step.GiveMutex? {
      ops := GiveOps(s, step.q, p);
    } else if step.SuspendScheduler? || step.Yield? || step.ResetItemValue? || step.TakeMutex? {
      ops := [];
      FlagState(s, step);
      UnmovedOps(s, step, p);
    } else {
      ops := SingleOps(s, step, p);
    }
  }

  lemma FlagState(s: Sched, step: Step)
    requires step.SuspendScheduler? || step.Yield? || step.ResetItemValue? || step.TakeMutex?
    ensures Apply(s, step).state == s.state
  {
  }

  lemma SleepLists(s: Sched, step: Step, p: nat)
    requires step.Delay? || step.WaitOrdered? || step.WaitUnordered?
    ensures ListOf(Apply(s, step).state, Ready(p)) == ListOf(Take(s.state, s.current), Ready(p))
  {
    hide BlockCurrent, BlockOn, BlockUnordered, Take;
    match step {
      case Delay(n) => BlockList(s, n, false, p);
      case WaitOrdered(q, n) => OrderedList(s, q, n, p);
      case WaitUnordered(q, v, n) => UnorderedList(s, q, v, n, p);
    }
  }

  // ---- waiting for one's turn ----

  /** Before every step of the run t is ready at priority p, no ready task outranks it, and the step does not take
      it off its list. */
  ghost predicate Steady(s: Sched, steps: seq<Step>, t: Task, p: nat)
    decreases |steps|
  {
    steps == [] || (RunsAt(Seen(s, t), p) && Topmost(s, t) && !Relists(s, steps[0], t) && Steady(Apply(s, steps[0]), steps[1..], t, p))
  }

  /** The context switches of the run that are not put off. */
  function Switches(s: Sched, steps: seq<Step>): nat
    decreases |steps|
  {
    if steps == [] then 0
    else (if steps[0].PendSv? && s.suspended == 0 then 1 else 0) + Switches(Apply(s, steps[0]), steps[1..])
  }

  /** One of them picks t. */
  predicate Picked(s: Sched, steps: seq<Step>, t: Task)
    decreases |steps|
  {
    steps != [] && ((steps[0].PendSv? && s.suspended == 0 && Apply(s, steps[0]).current == t) || Picked(Apply(s, steps[0]), steps[1..], t))
  }

  lemma {:induction false} ServedTwice(a: Rota<Task>, o: Ops, p: Ops)
    requires R.Legal(a, o) && R.Legal(Played(a, o), p) && R.Legal(a, o + p)
    ensures R.Served(a, o + p) == R.Served(a, o) + R.Served(Played(a, o), p)
    decreases |o|
  {
    if o == [] {
      assert o + p == p;
    } else {
      assert (o + p)[0] == o[0] && (o + p)[1..] == o[1..] + p;
      ServedTwice(R.Apply(a, o[0]), o[1..], p);
    }
  }

  lemma {:induction false} ServedNothing(a: Rota<Task>, o: Ops)
    requires R.Legal(a, o) && R.Nexts(o) == 0
    ensures R.Served(a, o) == []
    decreases |o|
  {
    if o != [] { ServedNothing(R.Apply(a, o[0]), o[1..]); }
  }

  /** A switch picks from the list of the highest priority, and picks the entry it moves pxIndex to. */
  lemma SwitchServes(s: Sched, t: Task, p: nat, ops: Ops)
    requires Inv(s) && Enabled(s, PendSv) && s.suspended == 0 && RunsAt(Seen(s, t), p) && Topmost(s, t)
    requires Listed(s, PendSv, p, ops)
    ensures Selects(s, PendSv, p) && R.Served(ListOf(s.state, Ready(p)), ops) == [Apply(s, PendSv).current]
  {
    SwitchPicks(s);
    var h := HighestBelow(s.top, s.levels);
    assert IsReady(s, t) && Prio(s, t) == p;
    assert IsReady(s, Switch(s).current) && Prio(s, Switch(s).current) == h;
    assert h == p;
    var a := ListOf(s.state, Ready(p));
    hide HighestBelow, Inv;
    assert ops == [R.Op<Task>.Next];
    assert [R.Op<Task>.Next][1..] == [];
  }

  /** No step of the run puts a task into the ready list of priority p. */
  ghost predicate NobodyJoins(s: Sched, steps: seq<Step>, p: nat)
    decreases |steps|
  {
    steps == [] || (Coming(s, steps[0], p) == {} && NobodyJoins(Apply(s, steps[0]), steps[1..], p))
  }

  /** What a run does to the list of t, and whom its switches pick. */
  lemma {:induction false} RunOps(s: Sched, steps: seq<Step>, t: Task, p: nat) returns (ops: Ops)
    requires Inv(s) && Legal(s, steps) && Steady(s, steps, t, p)
    ensures var a := ListOf(s.state, Ready(p));
      R.Legal(a, ops) && R.Op.Remove(t) !in ops && R.Nexts(ops) == Switches(s, steps)
      && (t in R.Served(a, ops) ==> Picked(s, steps, t))
      && (NobodyJoins(s, steps, p) ==> forall op <- ops :: !op.InsertEnd?)
    decreases |steps|
  {
    hide Inv, Apply, Enabled, Topmost, Relists, Script, RunsAt, Selects, Leaving, Coming, Seen;
    var a := ListOf(s.state, Ready(p));
    if steps == [] {
      ops := [];
      NoOps(a);
      assert Script(a, [], a, {}, {});
      NothingLegal(a);
    } else {
      var step, s' := steps[0], Apply(s, steps[0]);
      StepKept(s, step);
      var o := StepOps(s, step, p);
      var rest := RunOps(s', steps[1..], t, p);
      OneStep(s, step, t, p, o);
      ScriptPlayed(a, o, ListOf(s'.state, Ready(p)), Leaving(s, step), Coming(s, step, p));
      PlayedTwice(a, o, rest);
      ServedTwice(a, o, rest);
      ops := o + rest;
      assert R.Op.Remove(t) !in ops;
    }
  }

  lemma NothingLegal(a: Rota<Task>)
    ensures R.Legal(a, []) && R.Served(a, []) == []
  {
  }

  lemma ScriptPlayed(a: Rota<Task>, o: Ops, b: Rota<Task>, outs: set<Task>, ins: set<Task>)
    requires Script(a, o, b, outs, ins)
    ensures R.Legal(a, o) && Played(a, o) == b && (ins == {} ==> forall op <- o :: !op.InsertEnd?)
  {
  }

  lemma OneStep(s: Sched, step: Step, t: Task, p: nat, o: Ops)
    requires Inv(s) && Enabled(s, step) && RunsAt(Seen(s, t), p) && Topmost(s, t) && !Relists(s, step, t) && Listed(s, step, p, o)
    ensures R.Op.Remove(t) !in o && R.Nexts(o) == (if step.PendSv? && s.suspended == 0 then 1 else 0)
    ensures R.Legal(ListOf(s.state, Ready(p)), o)
    ensures t in R.Served(ListOf(s.state, Ready(p)), o) ==> step.PendSv? && s.suspended == 0 && Apply(s, step).current == t
  {
    hide Inv, Enabled, Apply, Relists, Topmost, RunsAt, HighestBelow, Coming;
    if step.PendSv? && s.suspended == 0 {
      SwitchServes(s, t, p, o);
    } else {
      ServedNothing(ListOf(s.state, Ready(p)), o);
    }
  }
}
