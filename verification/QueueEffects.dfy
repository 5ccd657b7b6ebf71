/** What each step does to a queue: one wake-up for one item, given at once or counted and given on unlocking. */
module QueueEffects {
  import opened ListModel
  import opened QueueLock

  // ---- the reference ----

  predicate Accepts(q: Queue, step: Step) {
    (step.Send? || step.IsrSend?) && (q.messages < q.length || step.overwrite)
  }

  predicate Takes(q: Queue, step: Step) { (step.IsrReceive? || (step.Receive? && !step.peek)) && q.messages > 0 }

  /** An accepted item is one more, unless it replaces the one item of a full queue. */
  function Stored(q: Queue, step: Step): nat { if Accepts(q, step) && q.messages < q.length then 1 else 0 }

  function Fetched(q: Queue, step: Step): nat { if Takes(q, step) then 1 else 0 }

  /** The wake-ups that a step has for a list: for receivers one for each item accepted, or seen and left, and on
      unlocking one for each that was accepted meanwhile; for senders one for each place that becomes free. */
  function Calls(q: Queue, step: Step, receivers: bool): int {
    if receivers then
      if step.Unlock? && q.phase.UnlockTx? then q.receivers.lock
      else if (step.IsrSend? && q.receivers.lock == UNLOCKED) || step.Send? then if Accepts(q, step) then 1 else 0
      else if step.Receive? && step.peek && q.messages > 0 then 1
      else 0
    else
      if step.Unlock? && q.phase.UnlockRx? then q.senders.lock
      else if (step.IsrReceive? && q.senders.lock == UNLOCKED) || step.Receive? then if Takes(q, step) then 1 else 0
      else if step.Reset? then 1
      else 0
  }

  /** As many of the first tasks of the list as there are wake-ups. */
  function Served(s: Side, calls: int): nat {
    if calls < 0 then 0 else if calls > |s.waiting| then |s.waiting| else calls
  }

  /** A task of the list that comes to run, or is gone. */
  predicate Runs(step: Step, receivers: bool, t: Task) {
    (step.Stop? || (step.Send? && !receivers) || (step.Receive? && receivers)) && t == step.t
  }

  /** What a step makes of a lock count. */
  function LockAfter(q: Queue, step: Step, receivers: bool): int {
    var lock := if receivers then q.receivers.lock else q.senders.lock;
    var moved := if receivers then step.IsrSend? && Accepts(q, step) else step.IsrReceive? && Takes(q, step);
    if step.Block? && lock == UNLOCKED then LOCKED
    else if step.Reset? || (step.Unlock? && (if receivers then q.phase.UnlockTx? else !q.phase.UnlockTx?)) then UNLOCKED
    else if moved && lock != UNLOCKED then (if lock == 127 then -128 else lock + 1)
    else lock
  }

  predicate Joins(q: Queue, step: Step, receivers: bool) { step.Place? && q.phase.Checked? && q.phase.receiving == receivers }

  /** s' is s with the step's wake-ups given to the head of the list, and with nobody else woken or taken off it. */
  ghost predicate SideRight(q: Queue, step: Step, receivers: bool, s: Side, s': Side) {
    var k := Served(s, Calls(q, step, receivers));
    && (forall t :: t in s'.woken <==> t in s.waiting[..k] || (t in s.woken && !Runs(step, receivers, t)))
    && s'.lock == LockAfter(q, step, receivers)
    && (!step.TimeOut? && !Joins(q, step, receivers) ==> s'.waiting == s.waiting[k..])
    && (step.TimeOut? ==> s'.waiting == ListModel.Without(s.waiting, step.t))
    && (Joins(q, step, receivers) ==> step.k <= |s.waiting| && Grown(s.waiting, s'.waiting, step.k, q.phase.t))
  }

  /** Where the running task stands after the step. */
  function PhaseAfter(q: Queue, step: Step): Phase {
    match step
    case Block(t, receiving) => Locked(t, receiving)
    case Look =>
      if q.phase.Locked? && q.messages == (if q.phase.receiving then 0 else q.length) then Checked(q.phase.t, q.phase.receiving)
      else UnlockTx
    case Expired => UnlockTx
    case Place(_) => UnlockTx
    case Unlock => if q.phase.UnlockTx? then UnlockRx else Idle
    case _ => q.phase
  }

  // ---- each step ----

  lemma FrontTaken(w: seq<Task>, k: nat)
    requires 0 < k <= |w|
    ensures w[1..][k - 1..] == w[k..] && forall t :: t in w[..k] <==> t == w[0] || t in w[1..][..k - 1]
  {
    assert w[..k] == [w[0]] + w[1..][..k - 1];
  }

  /** r is s with the first k tasks of the list woken. */
  ghost predicate Roused(s: Side, k: nat, r: Side) {
    && k <= |s.waiting| && r.waiting == s.waiting[k..] && r.lock == s.lock
    && forall t :: t in r.woken <==> t in s.waiting[..k] || t in s.woken
  }

  lemma OneMore(s: Side, k: nat, r: Side)
    requires s.waiting != [] && Roused(Rouse(s), k, r)
    ensures Roused(s, k + 1, r)
  {
    FrontTaken(s.waiting, k + 1);
  }

  lemma {:induction false} RouseManyExact(s: Side, n: int)
    ensures Roused(s, Served(s, n), RouseMany(s, n))
    decreases n
  {
    if n > 0 && s.waiting != [] {
      RouseManyExact(Rouse(s), n - 1);
      OneMore(s, Served(s, n) - 1, RouseMany(s, n));
    } else {
      NoneServed(s, n);
    }
  }

  /** At most one wake-up, given at once. */
  lemma RouseExact(s: Side)
    ensures Roused(s, Served(s, 1), Rouse(s))
  {
    if s.waiting != [] { FrontTaken(s.waiting, 1); }
  }

  lemma NoneServed(s: Side, n: int)
    requires n <= 0 || s.waiting == []
    ensures Served(s, n) == 0 && s.waiting[..0] == [] && s.waiting[0..] == s.waiting
  {
  }

  lemma JoinExact(s: Side, k: nat, t: Task)
    requires k <= |s.waiting|
    ensures Grown(s.waiting, Join(s, k, t).waiting, k, t)
  {
  }

  lemma ReceiversRight(q: Queue, step: Step)
    requires Inv(q) && Enabled(q, step)
    ensures SideRight(q, step, true, q.receivers, Apply(q, step).receivers)
  {
    hide Rouse, RouseMany, NoDup, Covered;
    var s := q.receivers;
    NoneServed(s, 0);
    if Calls(q, step, true) <= 0 { NoneServed(s, Calls(q, step, true)); }
    RouseExact(s);
    RouseManyExact(s, s.lock);
    match step {
      case Receive(t, _) => RouseExact(Ran(s, t));
      case Place(k) => if q.phase.receiving { JoinExact(s, k, q.phase.t); }
      case _ =>
    }
  }

  lemma SendersRight(q: Queue, step: Step)
    requires Inv(q) && Enabled(q, step)
    ensures SideRight(q, step, false, q.senders, Apply(q, step).senders)
  {
    hide Rouse, RouseMany, NoDup, Covered;
    var s := q.senders;
    NoneServed(s, 0);
    if Calls(q, step, false) <= 0 { NoneServed(s, Calls(q, step, false)); }
    RouseExact(s);
    RouseManyExact(s, s.lock);
    match step {
      case Place(k) => if !q.phase.receiving { JoinExact(s, k, q.phase.t); }
      case _ =>
    }
  }

  predicate Counts(q: Queue) { q.messages <= q.length && q.length > 0 }

  lemma CountExact(q: Queue, step: Step)
    requires Counts(q) && Enabled(q, step)
    ensures var q' := Apply(q, step);
      Counts(q') && q'.length == q.length && q'.messages == if step.Reset? then 0 else q.messages + Stored(q, step) - Fetched(q, step)
  {
    hide Rouse, Release, Ran, Left, Join, Signal;
  }

  lemma PhaseExact(q: Queue, step: Step)
    requires Inv(q) && Enabled(q, step)
    ensures Apply(q, step).phase == PhaseAfter(q, step)
  {
    hide Rouse, Release, Ran, Left, Join, Signal, Sound, Covered;
  }

  /** Every step moves the items, the waiting tasks, the wake-ups owed and the running task as the reference says. */
  lemma StepExact(q: Queue, step: Step)
    requires Inv(q) && Enabled(q, step)
    ensures var q' := Apply(q, step);
      && q'.messages == (if step.Reset? then 0 else q.messages + Stored(q, step) - Fetched(q, step))
      && SideRight(q, step, true, q.receivers, q'.receivers) && SideRight(q, step, false, q.senders, q'.senders)
      && q'.phase == PhaseAfter(q, step)
  {
    assert Counts(q);
    hide Inv, Apply, Enabled, SideRight;
    CountExact(q, step);
    ReceiversRight(q, step);
    SendersRight(q, step);
    PhaseExact(q, step);
  }

  // ---- runs ----

  function AllStored(q: Queue, steps: seq<Step>): nat
    requires Legal(q, steps)
    decreases |steps|
  {
    if steps == [] then 0 else Stored(q, steps[0]) + AllStored(Apply(q, steps[0]), steps[1..])
  }

  function AllFetched(q: Queue, steps: seq<Step>): nat
    requires Legal(q, steps)
    decreases |steps|
  {
    if steps == [] then 0 else Fetched(q, steps[0]) + AllFetched(Apply(q, steps[0]), steps[1..])
  }

  /** Without a reset, the items in the queue are those there were and those stored, less those fetched, and they are
      never more than there is room for; that holds of every run, also of one that loses wake-ups. */
  lemma {:induction false} ItemsConserved(q: Queue, steps: seq<Step>)
    requires Counts(q) && Legal(q, steps) && forall step <- steps :: !step.Reset?
    ensures var q' := Exec(q, steps);
      q'.messages == q.messages + AllStored(q, steps) - AllFetched(q, steps) && q'.messages <= q'.length == q.length
    decreases |steps|
  {
    hide Apply, Enabled, Stored, Fetched;
    if steps != [] {
      assert steps[0] in steps;
      CountExact(q, steps[0]);
      ItemsConserved(Apply(q, steps[0]), steps[1..]);
    }
  }

  /** What a wake-up is for: an item that came or was left, a place that became free. */
  function Causes(q: Queue, step: Step, receivers: bool): nat {
    if if receivers then Accepts(q, step) || (step.Receive? && step.peek && q.messages > 0) else Takes(q, step) || step.Reset?
    then 1 else 0
  }

  function SideOf(q: Queue, receivers: bool): Side { if receivers then q.receivers else q.senders }

  function Given(q: Queue, step: Step, receivers: bool): nat { Served(SideOf(q, receivers), Calls(q, step, receivers)) }

  function AllCauses(q: Queue, steps: seq<Step>, receivers: bool): nat
    requires Legal(q, steps)
    decreases |steps|
  {
    if steps == [] then 0 else Causes(q, steps[0], receivers) + AllCauses(Apply(q, steps[0]), steps[1..], receivers)
  }

  function AllGiven(q: Queue, steps: seq<Step>, receivers: bool): nat
    requires Legal(q, steps)
    decreases |steps|
  {
    if steps == [] then 0 else Given(q, steps[0], receivers) + AllGiven(Apply(q, steps[0]), steps[1..], receivers)
  }

  /** No step wakes more tasks than it has a cause for, or the lock owed. */
  lemma NoSpareWakeUp(q: Queue, step: Step, receivers: bool)
    requires Inv(q) && Enabled(q, step)
    ensures Given(q, step, receivers) + Owed(SideOf(Apply(q, step), receivers))
         <= Causes(q, step, receivers) + Owed(SideOf(q, receivers))
  {
    ReceiversRight(q, step);
    SendersRight(q, step);
    hide Apply, Sound, Covered, Looked;
  }

  /** Over a run, tasks are woken for items and places that there were: no more of them than came, counting the
      wake-ups the lock still owes. */
  lemma {:induction false} WakeUpsCaused(q: Queue, steps: seq<Step>, receivers: bool)
    requires Legal(q, steps) && Throughout(q, steps)
    ensures AllGiven(q, steps, receivers) + Owed(SideOf(Exec(q, steps), receivers))
         <= AllCauses(q, steps, receivers) + Owed(SideOf(q, receivers))
    decreases |steps|
  {
    hide Inv, Apply, Enabled, Given, Causes, Owed;
    if steps != [] {
      NoSpareWakeUp(q, steps[0], receivers);
      WakeUpsCaused(Apply(q, steps[0]), steps[1..], receivers);
    }
  }
}
