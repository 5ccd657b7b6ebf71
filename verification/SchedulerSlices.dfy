/** Whose turn it is among equal tasks, and time slices of one tick. */
module SchedulerSlices {
  import opened Machine
  import opened ListModel
  import opened ItemStore
  import opened Scheduler
  import opened SchedulerLists
  import opened SchedulerTick
  import opened SchedulerSteps
  import opened SchedulerSwitch
  import opened SchedulerRuns
  import opened SchedulerEffects
  import opened SchedulerTurns
  import SystemState
  import R = RoundRobin

  /** Everybody's turn comes. In any run in which t stays ready and unsurpassed, and is not put into its list anew,
      t is picked within as many switches as its turn is away, and one more for each insertion that finds pxIndex at t. */
  lemma TurnComes(s: Sched, steps: seq<Step>, t: Task) returns (ops: Ops)
    requires Inv(s) && Legal(s, steps) && IsReady(s, t) && Steady(s, steps, t, Prio(s, t))
    ensures var a := ListOf(s.state, Ready(Prio(s, t)));
      a.Valid() && t in a.items && R.Legal(a, ops) && R.Nexts(ops) == Switches(s, steps)
      && (Switches(s, steps) >= R.Turn(a, t) + R.Overtakings(a, ops, t) ==> Picked(s, steps, t))
      && (NobodyJoins(s, steps, Prio(s, t)) ==> forall op <- ops :: !op.InsertEnd?)
  {
    var p := Prio(s, t);
    var a := ListOf(s.state, Ready(p));
    OwnList(s, t);
    assert a.Valid() && t in a.items by { InOwnList(s, t); }
    hide Inv, Steady, Legal, Picked, Switches, NobodyJoins, R.Turn, R.Served, R.Overtakings;
    ops := RunOps(s, steps, t, p);
    if Switches(s, steps) >= R.Turn(a, t) + R.Overtakings(a, ops, t) {
      R.BoundedWaiting(a, ops, t);
    }
  }

  lemma InOwnList(s: Sched, t: Task)
    requires Inv(s) && IsReady(s, t)
    ensures var a := ListOf(s.state, Ready(Prio(s, t))); a.Valid() && t in a.items
  {
    OwnList(s, t);
    assert t in Items(s.state, s.state.at[t]);
  }

  lemma {:induction false} NeverOvertaken(a: Rota<Task>, ops: Ops, t: Task)
    requires R.Legal(a, ops) && forall op <- ops :: !op.InsertEnd?
    ensures R.Overtakings(a, ops, t) == 0
    decreases |ops|
  {
    if ops != [] {
      assert ops[0] in ops;
      NeverOvertaken(R.Apply(a, ops[0]), ops[1..], t);
    }
  }

  /** If nobody joins its list meanwhile, that is within as many switches as there are tasks on the list. */
  lemma WithinOneRound(s: Sched, steps: seq<Step>, t: Task)
    requires Inv(s) && Legal(s, steps) && IsReady(s, t) && Steady(s, steps, t, Prio(s, t))
    requires NobodyJoins(s, steps, Prio(s, t)) && Switches(s, steps) >= |InState(s, Ready(Prio(s, t)))|
    ensures Picked(s, steps, t)
  {
    hide Inv, Steady, Legal, Picked, Switches, NobodyJoins;
    var ops := TurnComes(s, steps, t);
    NeverOvertaken(ListOf(s.state, Ready(Prio(s, t))), ops, t);
  }

  // ---- time slices ----

  /** A tick, and the context switch it asks for, if it does. */
  function Slice(s: Sched): Sched {
    var u := Apply(s, Tick);
    if u.owed then Apply(u, PendSv) else u
  }

  function Slices(s: Sched, j: nat): Sched { if j == 0 then s else Slice(Slices(s, j - 1)) }

  /** No task of priority p or above is due at any of the next n ticks. */
  ghost predicate Undisturbed(s: Sched, n: nat, p: nat) {
    forall t :: IsDelayed(s, t) && T(s, t).due <= Now(s) + n ==> Prio(s, t) < p
  }

  /** Position j places on, round the list. */
  function OnBy(n: nat, index: nat, j: nat): nat
    requires 1 <= index <= n && j <= n
  {
    if index + j <= n then index + j else index + j - n
  }

  lemma TickKeepsList(s: Sched)
    requires Inv(s) && SystemState.OnTop(s) && Undisturbed(s, 1, Prio(s, s.current))
    ensures var u := Apply(s, Tick);
      && Inv(u) && SystemState.OnTop(u) && u.current == s.current && SystemState.TopList(u) == SystemState.TopList(s)
      && (|SystemState.TopList(s).items| > 1 ==> u.owed)
  {
    hide Core, IncrementTick, Kept, HighestBelow, Script;
    var p, r, u := Prio(s, s.current), IncrementTick(s), Apply(s, Tick);
    var ops := TickOps(s, p);
    assert DueAtNext(s, p) == {} by { NoneDue(s, p); }
    EmptyScript(ListOf(s.state, Ready(p)), ops, ListOf(u.state, Ready(p)));
    StepKept(s, Tick);
    TickExact(s);
    if |SystemState.TopList(s).items| > 1 { SharedExact(r.s); }
    hide Inv, Shared, Challenger;
    assert u.tcbs == s.tcbs && u.current == s.current && u.suspended == 0;
    StillHighest(s, u, p);
  }

  lemma NoneDue(s: Sched, p: nat)
    requires Undisturbed(s, 1, p)
    ensures DueAtNext(s, p) == {}
  {
  }

  lemma EmptyScript(a: Rota<Task>, ops: Ops, b: Rota<Task>)
    requires Script(a, ops, b, {}, {}) && R.Nexts(ops) == 0
    ensures b == a
  {
    AllNexts(ops);
  }

  lemma {:induction false} AllNexts(ops: Ops)
    requires forall op <- ops :: op.Next?
    ensures R.Nexts(ops) == |ops|
  {
    if ops != [] {
      assert ops[0] in ops;
      AllNexts(ops[1..]);
    }
  }

  lemma StillHighest(s: Sched, u: Sched, p: nat)
    requires Inv(s) && Inv(u) && Woken(s, u.(owed := s.owed, delivered := s.delivered)) && Undisturbed(s, 1, p)
    requires p == HighestBelow(s.top, s.levels) && InState(u, Ready(p)) != [] && u.tcbs == s.tcbs
    ensures HighestBelow(u.top, u.levels) == p
  {
    TopReady(s);
    TopReady(u);
    var q := HighestBelow(u.top, u.levels);
    var x, y := InState(u, Ready(q))[0], InState(u, Ready(p))[0];
    assert x in InState(u, Ready(q)) && y in InState(u, Ready(p));
    ReadyInList(u, q, x);
    ReadyInList(u, p, y);
    hide Core, HighestBelow;
    var m := u.(owed := s.owed, delivered := s.delivered);
    assert x in s.state.at by { assert x in m.state.at.Keys; }
    assert m.state.at[x] == if DueNext(s, x) then Ready(Prio(s, x)) else s.state.at[x];
    assert Prio(s, x) <= p;
  }

  /** One slice passes the processor on to the next entry of the list. */
  lemma SliceMoves(s: Sched)
    requires Inv(s) && SystemState.OnTop(s) && Undisturbed(s, 1, Prio(s, s.current))
    ensures var r, s' := SystemState.TopList(s), Slice(s);
      && Inv(s') && SystemState.OnTop(s') && SystemState.TopList(s') == r.(index := NextIndex(r))
      && Now(s') == Now(s) + 1 && Prio(s', s'.current) == Prio(s, s.current)
      && (forall t :: T(s', t) == T(s, t)) && (forall t :: IsDelayed(s', t) ==> IsDelayed(s, t))
  {
    var r, u := SystemState.TopList(s), Apply(s, Tick);
    TickKeepsList(s);
    SliceClock(s, u);
    if u.owed {
      SystemState.CurrentListed(u);
      SwitchOn(u);
    } else {
      assert |r.items| == 1;
      assert r.(index := NextIndex(r)) == r;
    }
  }

  lemma SliceClock(s: Sched, u: Sched)
    requires Inv(s) && u == Apply(s, Tick) && s.suspended == 0
    ensures Now(u) == Now(s) + 1 && (forall t :: T(u, t) == T(s, t)) && (forall t :: IsDelayed(u, t) ==> IsDelayed(s, t))
  {
    TickExact(s);
    Keys(s);
    hide Core, IncrementTick;
    forall t | IsDelayed(u, t) ensures IsDelayed(s, t) {
      assert t in s.state.at by { assert t in IncrementTick(s).s.state.at.Keys; }
      assert u.state.at[t] == IncrementTick(s).s.state.at[t];
    }
  }

  lemma SwitchOn(u: Sched)
    requires Inv(u) && SystemState.OnTop(u) && u.owed
    ensures var r, s' := SystemState.TopList(u), Apply(u, PendSv);
      && Inv(s') && SystemState.OnTop(s') && SystemState.TopList(s') == r.(index := NextIndex(r))
      && Now(s') == Now(u) && Prio(s', s'.current) == Prio(u, u.current) && s'.tcbs == u.tcbs && s'.state.at == u.state.at
  {
    StepKept(u, PendSv);
    SwitchPicks(u);
    var p := HighestBelow(u.top, u.levels);
    AdvanceCore(u, p);
    hide Inv, Kept, HighestBelow;
  }

  lemma {:induction false} SlicesMove(s: Sched, j: nat)
    requires Inv(s) && SystemState.OnTop(s) && Undisturbed(s, j, Prio(s, s.current)) && j <= |SystemState.TopList(s).items|
    ensures var r, s' := SystemState.TopList(s), Slices(s, j);
      && Inv(s') && SystemState.OnTop(s') && SystemState.TopList(s') == r.(index := OnBy(|r.items|, r.index, j))
      && Now(s') == Now(s) + j && Prio(s', s'.current) == Prio(s, s.current)
      && (forall t :: T(s', t) == T(s, t)) && (forall t :: IsDelayed(s', t) ==> IsDelayed(s, t))
    decreases j
  {
    hide Inv, Slice, IsDelayed;
    if j > 0 {
      SlicesMove(s, j - 1);
      SliceMoves(Slices(s, j - 1));
    }
  }

  /** With n tasks of the top priority ready, and no task of that priority or above due in the next n ticks, each of
      the n is running after exactly one of them. */
  lemma EachRunsOnce(s: Sched, t: Task) returns (j: nat)
    requires Inv(s) && SystemState.OnTop(s) && t in InState(s, Ready(Prio(s, s.current)))
    requires Undisturbed(s, |InState(s, Ready(Prio(s, s.current)))|, Prio(s, s.current))
    ensures var n := |InState(s, Ready(Prio(s, s.current)))|;
      1 <= j <= n && forall i :: 1 <= i <= n ==> (Slices(s, i).current == t <==> i == j)
  {
    var r := SystemState.TopList(s);
    var n, k := |r.items|, IndexOf(r.items, t) + 1;
    ListsValid(s);
    j := if k > r.index then k - r.index else k + n - r.index;
    forall i | 1 <= i <= n ensures Slices(s, i).current == t <==> i == j {
      hide Inv, Slices, SystemState.OnTop, NoDup, Undisturbed;
      OnBySlices(s, i);
      OnlyPlace(r.items, r.index, t, i);
    }
  }

  lemma OnBySlices(s: Sched, i: nat)
    requires Inv(s) && SystemState.OnTop(s) && 1 <= i <= |SystemState.TopList(s).items|
    requires Undisturbed(s, |SystemState.TopList(s).items|, Prio(s, s.current))
    ensures var r := SystemState.TopList(s);
      1 <= r.index <= |r.items| && Slices(s, i).current == r.items[OnBy(|r.items|, r.index, i) - 1]
  {
    hide Inv, Slices, IsDelayed, HighestBelow;
    SlicesMove(s, i);
  }

  lemma OnlyPlace(items: seq<Task>, index: nat, t: Task, i: nat)
    requires NoDup(items) && t in items && 1 <= index <= |items| && 1 <= i <= |items|
    ensures var k := IndexOf(items, t) + 1;
      items[OnBy(|items|, index, i) - 1] == t <==> i == if k > index then k - index else k + |items| - index
  {
    var k := IndexOf(items, t) + 1;
    assert items[k - 1] == t;
  }

  lemma ListsValid(s: Sched)
    requires Inv(s)
    ensures NoDup(InState(s, Ready(Prio(s, s.current))))
  {
  }
}
