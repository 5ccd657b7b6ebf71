/** What each step of the mutex protocol does to every task, every mutex and every waiting list. */
module MutexEffects {
  import opened ListModel
  import opened Mutex
  import opened MutexKept

  // ---- the reference ----

  function Max(a: nat, b: nat): nat { if a < b then b else a }

  /** The highest priority in a list of tasks, in whatever order; 0 for none. */
  function Top(s: Sys, l: seq<Task>): nat { if l == [] then 0 else Max(Prio(s, l[0]), Top(s, l[1..])) }

  /** The mutex the step is about. */
  function About(s: Sys, step: Step): MutexId {
    match step
    case Request(m, _) => m
    case Give(m) => m
    case TimeOut(t) => if R(s, t).phase.Waiting? then R(s, t).phase.m else 0
    case _ => if Me(s).phase.Out? then 0 else Me(s).phase.m
  }

  predicate HeldBy(s: Sys, m: MutexId, t: Task) { Owner(s, m) == Held(t) }

  /** Waiting lends the holder the priority of the task that waits; taking that back leaves it what it has a right to,
      if it holds this mutex alone; and giving back the last mutex leaves a task its own priority. */
  function PrioAfter(s: Sys, step: Step, t: Task): nat {
    var r, m := R(s, t), About(s, step);
    if step.Wait? && HeldBy(s, m, t) then Max(r.prio, Me(s).prio)
    else if step.Undo? && HeldBy(s, m, t) && r.held == 1 then Max(r.base, Top(s, W(s, m)))
    else if step.Give? && t == s.current && r.held == 1 then r.base
    else r.prio
  }

  function HeldAfter(s: Sys, step: Step, t: Task): int {
    R(s, t).held + if t != s.current then 0 else if step.Grab? then 1 else if step.Give? then -1 else 0
  }

  /** The task a give wakes: of those with the highest priority, the one that has waited longest. */
  predicate GivenTo(s: Sys, step: Step, t: Task) { step.Give? && W(s, step.m) != [] && W(s, step.m)[0] == t }

  function ReadyAfter(s: Sys, step: Step, t: Task): bool {
    if (step.Wait? || step.Sleep?) && t == s.current then false
    else if (step.Wake? || step.TimeOut?) && t == step.t then true
    else GivenTo(s, step, t) || R(s, t).ready
  }

  /** The way of a task through the call. */
  function PhaseAfter(s: Sys, step: Step, t: Task): Phase {
    var f := R(s, t).phase;
    if (GivenTo(s, step, t) || (step.TimeOut? && t == step.t)) && f.Waiting? then Trying(f.m, f.inherited, false)
    else if t != s.current then f
    else if step.Request? then Trying(step.m, false, !step.block)
    else if f.Out? then f
    else if step.Grab? || step.Refuse? || step.Undo? then Out
    else if f.Trying? && step.Look? then Looked(f.m, f.inherited)
    else if f.Looked? && step.Retry? then Trying(f.m, f.inherited, false)
    else if f.Looked? && step.Expire? then Expired(f.m, f.inherited, !step.wrapped)
    else if f.Looked? && step.Wait? && Owner(s, f.m).Held? then Waiting(f.m, Lends(s, Owner(s, f.m).task))
    else if f.Expired? && step.Test? then
      if Owner(s, f.m).Free? then Trying(f.m, f.inherited, f.over) else if f.inherited then Undoing(f.m) else Out
    else f
  }

  /** Whether the holder runs, or comes to run, on a priority that is not its own. */
  predicate Lends(s: Sys, h: Task) { R(s, h).base < Me(s).prio || R(s, h).prio < Me(s).prio }

  function OwnerAfter(s: Sys, step: Step, m: MutexId): Holder {
    if m != About(s, step) then Owner(s, m)
    else if step.Grab? then Held(s.current)
    else if step.Give? then Free
    else Owner(s, m)
  }

  /** Who is in a waiting list; the order is that of the priorities, by the invariant. */
  predicate InListAfter(s: Sys, step: Step, m: MutexId, t: Task) {
    if step.Wait? && m == About(s, step) && t == s.current then true
    else t in W(s, m) && !(GivenTo(s, step, t) && m == step.m) && !(step.TimeOut? && t == step.t)
  }

  /** A switch is asked for when the running task gives up the processor, or somebody becomes ready that outranks it,
      or by a tick equals it, or it goes down in priority itself with nobody waiting. */
  predicate OwedAfter(s: Sys, step: Step) {
    match step
    case Switch(_) => false
    case Share => true
    case Sleep => true
    case Wait => true
    case Wake(t) => s.owed || Prio(s, t) > Me(s).prio
    case TimeOut(t) => s.owed || Prio(s, t) >= Me(s).prio
    case Give(m) =>
      s.owed || if W(s, m) == [] then Me(s).held == 1 && Me(s).base < Me(s).prio else Prio(s, W(s, m)[0]) > PrioAfter(s, step, s.current)
    case _ => s.owed
  }

  /** A step that keeps the protocol: waiting holds no mutex. */
  ghost predicate TaskRight(s: Sys, step: Step, s': Sys, t: Task) {
    var r, r' := R(s, t), R(s', t);
    && r'.prio == PrioAfter(s, step, t) && r'.held == HeldAfter(s, step, t) && r'.base == r.base
    && r'.ready == ReadyAfter(s, step, t) && r'.phase == PhaseAfter(s, step, t)
  }

  // ---- proofs ----

  lemma {:induction false} TopFirst(s: Sys, l: seq<Task>)
    requires l != [] && forall i, j :: 0 <= i < j < |l| ==> Prio(s, l[i]) >= Prio(s, l[j])
    ensures Top(s, l) == Prio(s, l[0])
    decreases |l|
  {
    hide Prio;
    if |l| > 1 {
      assert l[1..][0] == l[1];
      forall i, j | 0 <= i < j < |l[1..]| ensures Prio(s, l[1..][i]) >= Prio(s, l[1..][j]) {
        assert l[i + 1] == l[1..][i] && l[j + 1] == l[1..][j];
      }
      TopFirst(s, l[1..]);
    } else {
      assert l[1..] == [];
    }
  }

  lemma TopIsHighest(s: Sys, m: MutexId)
    requires Ordered(s, m)
    ensures Top(s, W(s, m)) == HighestWaiting(s, m)
  {
    if W(s, m) != [] { TopFirst(s, W(s, m)); }
  }

  /** Steps that change no more than the phase of the running task, and perhaps its count of mutexes. */
  predicate OwnPhase(step: Step) {
    step.Request? || step.Grab? || step.Refuse? || step.Look? || step.Retry? || step.Expire? || step.Test?
  }

  lemma OwnPhaseRight(s: Sys, step: Step, t: Task)
    requires Enabled(s, step) && OwnPhase(step)
    ensures TaskRight(s, step, Apply(s, step), t)
  {
    hide W;
  }

  lemma FlagRight(s: Sys, step: Step, t: Task)
    requires Enabled(s, step) && (step.Sleep? || step.Wake? || step.Share? || step.Switch?)
    ensures TaskRight(s, step, Apply(s, step), t)
  {
    hide W, Highest;
  }

  lemma TimeOutRight(s: Sys, step: Step, t: Task)
    requires Enabled(s, step) && step.TimeOut?
    ensures TaskRight(s, step, Apply(s, step), t)
  {
    hide ListModel.Without, W;
  }

  lemma WaitRight(s: Sys, step: Step, t: Task)
    requires Enabled(s, step) && step.Wait? && Owner(s, Me(s).phase.m).task in s.tasks
    ensures TaskRight(s, step, Apply(s, step), t)
  {
    hide Joined, W;
  }

  lemma UndoRight(s: Sys, step: Step, t: Task)
    requires Inv(s) && Enabled(s, step) && step.Undo?
    ensures TaskRight(s, step, Apply(s, step), t)
  {
    var m := Me(s).phase.m;
    assert Ordered(s, m);
    TopIsHighest(s, m);
    hide Inv, HighestWaiting, Top, Ordered;
    UndoFrame(s, Apply(s, step));
  }

  lemma GiveRight(s: Sys, step: Step, t: Task)
    requires Inv(s) && Enabled(s, step) && step.Give?
    ensures TaskRight(s, step, Apply(s, step), t)
  {
    var m, s1 := step.m, Handed(s, step.m);
    HandedFrame(s, m);
    OwnerHolds(s, m);
    WokenWaits(s, m);
    hide Inv, Handed, ListModel.Without;
    assert Given(s, m).tasks == (if W(s, m) == [] then s1 else Released(s1, W(s, m)[0])).tasks by { GivenTasks(s, m); }
  }

  lemma GivenTasks(s: Sys, m: MutexId)
    ensures Given(s, m).tasks == (if W(s, m) == [] then Handed(s, m) else Released(Handed(s, m), W(s, m)[0])).tasks
  {
    hide Released, Returned;
  }

  lemma WokenWaits(s: Sys, m: MutexId)
    requires Inv(s)
    ensures W(s, m) != [] ==> R(s, W(s, m)[0]).phase.Waiting? && R(s, W(s, m)[0]).phase.m == m
  {
    assert Ordered(s, m);
    if W(s, m) != [] { assert W(s, m)[0] in W(s, m); }
  }

  lemma TasksRight(s: Sys, step: Step, t: Task)
    requires Inv(s) && Enabled(s, step)
    ensures TaskRight(s, step, Apply(s, step), t)
  {
    hide TaskRight, Apply, Inv, Enabled;
    if OwnPhase(step) {
      OwnPhaseRight(s, step, t);
    } else if step.Wait? {
      HolderKnown(s, step);
      WaitRight(s, step, t);
    } else if step.Undo? {
      UndoRight(s, step, t);
    } else if step.Give? {
      GiveRight(s, step, t);
    } else if step.TimeOut? {
      TimeOutRight(s, step, t);
    } else {
      FlagRight(s, step, t);
    }
  }

  lemma HolderKnown(s: Sys, step: Step)
    requires Inv(s) && Enabled(s, step) && step.Wait?
    ensures Me(s).phase.Looked? && Owner(s, Me(s).phase.m).Held? && Owner(s, Me(s).phase.m).task in s.tasks
  {
    assert Inherited(s, Me(s).phase.m);
  }

  lemma OwnersRight(s: Sys, step: Step, m: MutexId)
    requires Inv(s) && Enabled(s, step)
    ensures Owner(Apply(s, step), m) == OwnerAfter(s, step, m)
  {
    hide Inv, Returned, Recomputed, Raised, Joined, HighestWaiting, ListModel.Without, Highest;
  }

  lemma OwedRight(s: Sys, step: Step)
    requires Inv(s) && Enabled(s, step)
    ensures Apply(s, step).owed == OwedAfter(s, step)
    ensures Apply(s, step).current == if step.Switch? then step.t else s.current
  {
    if step.Give? {
      GiveOwed(s, step);
    } else {
      hide Inv, Returned, Recomputed, Raised, Joined, HighestWaiting, ListModel.Without, Highest, PrioAfter;
    }
  }

  lemma GiveOwed(s: Sys, step: Step)
    requires Inv(s) && Enabled(s, step) && step.Give?
    ensures Apply(s, step).owed == OwedAfter(s, step) && Apply(s, step).current == s.current
  {
    var m, s1 := step.m, Handed(s, step.m);
    HandedFrame(s, m);
    WokenWaits(s, m);
    assert CountsHeld(s, s.current);
    hide Inv, ListModel.Without, CountsHeld;
    if W(s, m) != [] { assert W(s, m)[0] != s.current; }
    hide Returned;
  }

  lemma ListsRight(s: Sys, step: Step, m: MutexId, t: Task)
    requires Inv(s) && Enabled(s, step)
    ensures t in W(Apply(s, step), m) <==> InListAfter(s, step, m, t)
  {
    assert NoDup(W(s, m)) by { assert Ordered(s, m); }
    if step.Wait? {
      JoinedItems(s, About(s, step));
      hide Inv, Joined, Raised;
    } else if step.TimeOut? {
      TimeOutList(s, step, m, t);
    } else if step.Give? {
      GiveList(s, step, m, t);
    } else {
      hide Inv, Recomputed, HighestWaiting, Highest, NoDup;
    }
  }

  lemma TimeOutList(s: Sys, step: Step, m: MutexId, t: Task)
    requires Inv(s) && Enabled(s, step) && step.TimeOut?
    ensures t in W(Apply(s, step), m) <==> InListAfter(s, step, m, t)
  {
    var x := step.t;
    assert Ordered(s, m) && Ordered(s, R(s, x).phase.m);
    WithoutItems(W(s, R(s, x).phase.m), x);
    hide Inv, NoDup, ListModel.Without;
  }

  lemma GiveList(s: Sys, step: Step, m: MutexId, t: Task)
    requires Inv(s) && Enabled(s, step) && step.Give?
    ensures t in W(Apply(s, step), m) <==> InListAfter(s, step, m, t)
  {
    assert NoDup(W(s, step.m)) by { assert Ordered(s, step.m); }
    WokenWaits(s, step.m);
    if W(s, step.m) != [] { WithoutItems(W(s, step.m), W(s, step.m)[0]); }
    assert CountsHeld(s, s.current);
    hide Inv, NoDup, ListModel.Without, CountsHeld, Returned;
  }

  /** Every step leaves every task, every mutex and every list, and the request for a switch, exactly as the
      reference says; and the task that a give wakes has the highest priority of those that wait. */
  lemma StepExact(s: Sys, step: Step)
    requires Inv(s) && Enabled(s, step)
    ensures var s' := Apply(s, step);
      && (forall t :: TaskRight(s, step, s', t)) && (forall m :: Owner(s', m) == OwnerAfter(s, step, m))
      && (forall m, t :: t in W(s', m) <==> InListAfter(s, step, m, t)) && s'.owed == OwedAfter(s, step)
      && s'.current == (if step.Switch? then step.t else s.current)
      && (forall t :: GivenTo(s, step, t) ==> Prio(s, t) == Top(s, W(s, step.m)))
  {
    hide Inv, Enabled, Apply, TaskRight, OwnerAfter, InListAfter, OwedAfter, Top, HighestWaiting, Owner, W;
    forall t ensures TaskRight(s, step, Apply(s, step), t) { TasksRight(s, step, t); }
    forall m ensures Owner(Apply(s, step), m) == OwnerAfter(s, step, m) { OwnersRight(s, step, m); }
    forall m, t ensures t in W(Apply(s, step), m) <==> InListAfter(s, step, m, t) { ListsRight(s, step, m, t); }
    OwedRight(s, step);
    forall t | GivenTo(s, step, t) ensures Prio(s, t) == Top(s, W(s, step.m)) { GivenHighest(s, step.m); }
  }

  lemma GivenHighest(s: Sys, m: MutexId)
    requires Inv(s) && W(s, m) != []
    ensures Prio(s, W(s, m)[0]) == Top(s, W(s, m))
  {
    assert Ordered(s, m);
    TopIsHighest(s, m);
    hide Inv, Top;
  }
}
