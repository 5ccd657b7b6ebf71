/** Mutexes and priority inheritance: the critical sections of xQueueSemaphoreTake and
    xQueueGenericSend on a mutex, with the inherit and disinherit functions of tasks.c, as
    interleaved steps of any number of tasks and mutexes under a preemptive scheduler. */
module Mutex {
  import opened ListModel

  type Task = nat
  type MutexId = nat

  /** Where a task is in xQueueSemaphoreTake; `inherited` is its local xInheritanceOccurred, `over` says that
      its xTicksToWait is 0. */
  datatype Phase =
    | Out                                                 // in no call on a mutex
    | Trying(m: MutexId, inherited: bool, over: bool)     // at the top of the loop
    | Looked(m: MutexId, inherited: bool)                 // the mutex was taken and there was time to wait
    | Waiting(m: MutexId, inherited: bool)                // blocked on the mutex's waiting list
    | Expired(m: MutexId, inherited: bool, over: bool)    // timed out, about to look once more
    | Undoing(m: MutexId)                                 // about to take the inheritance back

  datatype Rec = Rec(base: nat, prio: nat, held: nat, ready: bool, phase: Phase)

  datatype Holder = Free | Held(task: Task)

  datatype Sys = Sys(
    tasks: map<Task, Rec>,
    owner: map<MutexId, Holder>,               // pxMutexHolder, Free when uxMessagesWaiting is 1
    waiting: map<MutexId, seq<Task>>,          // xTasksWaitingToReceive
    current: Task,                             // pxCurrentTCB
    owed: bool                                 // a switch is pending
  )

  function R(s: Sys, t: Task): Rec { if t in s.tasks then s.tasks[t] else Rec(0, 0, 0, false, Out) }

  function Prio(s: Sys, t: Task): nat { R(s, t).prio }

  predicate IsReady(s: Sys, t: Task) { R(s, t).ready }

  function Owner(s: Sys, m: MutexId): Holder { if m in s.owner then s.owner[m] else Free }

  function W(s: Sys, m: MutexId): seq<Task> { if m in s.waiting then s.waiting[m] else [] }

  function Me(s: Sys): Rec { R(s, s.current) }

  function Put(s: Sys, t: Task, r: Rec): Sys { s.(tasks := s.tasks[t := r]) }

  // ---- What tasks.c does to one control block ----

  /** xTaskPriorityInherit on behalf of a task of priority p. */
  function Raised(r: Rec, p: nat): Rec { if r.prio < p then r.(prio := p) else r }

  /** Its result. */
  predicate Inherits(r: Rec, p: nat) { r.prio < p || r.base < p }

  /** xTaskPriorityDisinherit. */
  function Returned(r: Rec): Rec {
    var held := if r.held == 0 then 0 else r.held - 1;
    if r.prio != r.base && held == 0 then r.(held := held, prio := r.base) else r.(held := held)
  }

  /** Its result: the priority went down, so a switch may be due. */
  predicate Drops(r: Rec) { r.prio != r.base && r.held <= 1 }

  /** vTaskPriorityDisinheritAfterTimeout. */
  function Recomputed(r: Rec, highest: nat): Rec {
    var p := if r.base < highest then highest else r.base;
    if r.prio != p && r.held == 1 then r.(prio := p) else r
  }

  /** prvGetDisinheritPriorityAfterTimeout. */
  function HighestWaiting(s: Sys, m: MutexId): nat { if W(s, m) == [] then 0 else Prio(s, W(s, m)[0]) }

  // ---- The steps ----

  datatype Step =
    | Request(m: MutexId, block: bool)   // the running task enters xQueueSemaphoreTake, with a block time or 0
    | Grab                    // it finds the mutex available
    | Refuse                  // it finds it taken and its block time 0
    | Look                    // it finds it taken and is to wait
    | Wait                    // in time and still taken: inherit, and join the waiting list
    | Retry                   // in time and available: round the loop
    | Expire(wrapped: bool)   // xTaskCheckForTimeOut: too late; it sees a wrap, or sets the block time to 0
    | Test                    // then: taken, so leave, or available, so round the loop
    | Undo                    // the critical section that takes the inheritance back
    | Give(m: MutexId)        // xQueueGenericSend on a mutex it holds
    | Sleep                   // it blocks on something else
    | Wake(t: Task)           // a task blocked on something else becomes ready
    | TimeOut(t: Task)        // the tick readies a task waiting for a mutex
    | Share                   // a switch is requested: time slice, or a yield
    | Switch(t: Task)         // vTaskSwitchContext picks t

  /** The running task's own code runs: the pending switch is taken first. */
  predicate Runs(s: Sys) { !s.owed && s.current in s.tasks && Me(s).ready }

  predicate Highest(s: Sys, t: Task)
  {
    t in s.tasks && s.tasks[t].ready && forall x <- s.tasks :: s.tasks[x].ready ==> s.tasks[x].prio <= s.tasks[t].prio
  }

  predicate Enabled(s: Sys, step: Step) {
    match step
    case Request(m, _) => Runs(s) && Me(s).phase.Out? && m in s.owner
    case Grab => Runs(s) && Me(s).phase.Trying? && Owner(s, Me(s).phase.m).Free?
    case Refuse => Runs(s) && Me(s).phase.Trying? && Owner(s, Me(s).phase.m).Held? && Me(s).phase.over
    case Look => Runs(s) && Me(s).phase.Trying? && Owner(s, Me(s).phase.m).Held? && !Me(s).phase.over
    case Wait => Runs(s) && Me(s).phase.Looked? && Owner(s, Me(s).phase.m).Held?
    case Retry => Runs(s) && Me(s).phase.Looked? && Owner(s, Me(s).phase.m).Free?
    case Expire(_) => Runs(s) && Me(s).phase.Looked?
    case Test => Runs(s) && Me(s).phase.Expired?
    case Undo => Runs(s) && Me(s).phase.Undoing?
    case Give(m) => Runs(s) && Me(s).phase.Out? && Owner(s, m) == Held(s.current)
    case Sleep => Runs(s) && Me(s).phase.Out?
    case Wake(t) => t in s.tasks && !R(s, t).ready && R(s, t).phase.Out?
    case TimeOut(t) => R(s, t).phase.Waiting?
    case Share => true
    case Switch(t) => s.owed && Highest(s, t)
  }

  function Keys(s: Sys, l: seq<Task>): (k: seq<int>)
    ensures |k| == |l|
  {
    seq(|l|, i requires 0 <= i < |l| => 0 - Prio(s, l[i]))
  }

  /** vTaskPlaceOnEventList: the list is ordered by falling priority, equals by age. */
  function Joined(s: Sys, m: MutexId): seq<Task> {
    var k := SearchPos(Keys(s, W(s, m)), 0 - Me(s).prio);
    W(s, m)[..k] + [s.current] + W(s, m)[k..]
  }

  /** A waiting task leaves the list and becomes ready. */
  function Released(s: Sys, t: Task): Sys {
    if !R(s, t).phase.Waiting? then s else
    var m := R(s, t).phase.m;
    Put(s, t, R(s, t).(ready := true, phase := Trying(m, R(s, t).phase.inherited, false)))
      .(waiting := s.waiting[m := Without(W(s, m), t)])
  }

  /** The running task waits for m, which h holds. */
  function Waits(s: Sys, m: MutexId, h: Task): Sys {
    var r := Me(s);
    var s1 := Put(s, h, Raised(R(s, h), r.prio));
    Put(s1, s.current, r.(ready := false, phase := Waiting(m, Inherits(R(s, h), r.prio))))
      .(waiting := s.waiting[m := Joined(s, m)], owed := true)
  }

  function Undone(s: Sys, m: MutexId, h: Task): Sys {
    Put(s, h, Recomputed(R(s, h), HighestWaiting(s, m)))
  }

  function Given(s: Sys, m: MutexId): Sys {
    var s1 := Put(s, s.current, Returned(Me(s))).(owner := s.owner[m := Free]);
    if W(s, m) == [] then s1.(owed := s.owed || Drops(Me(s))) else
    var head := W(s, m)[0];
    var s2 := Released(s1, head);
    s2.(owed := s.owed || Prio(s1, head) > Prio(s1, s.current))
  }

  function Apply(s: Sys, step: Step): Sys
    requires Enabled(s, step)
  {
    var c, r := s.current, Me(s);
    match step
    case Request(m, block) => Put(s, c, r.(phase := Trying(m, false, !block)))
    case Grab => Put(s, c, r.(held := r.held + 1, phase := Out)).(owner := s.owner[r.phase.m := Held(c)])
    case Refuse => Put(s, c, r.(phase := Out))
    case Look => Put(s, c, r.(phase := Looked(r.phase.m, r.phase.inherited)))
    case Wait => Waits(s, r.phase.m, Owner(s, r.phase.m).task)
    case Retry => Put(s, c, r.(phase := Trying(r.phase.m, r.phase.inherited, false)))
    case Expire(wrapped) => Put(s, c, r.(phase := Expired(r.phase.m, r.phase.inherited, !wrapped)))
    case Test =>
      Put(s, c, r.(phase := if Owner(s, r.phase.m).Free? then Trying(r.phase.m, r.phase.inherited, r.phase.over)
                            else if r.phase.inherited then Undoing(r.phase.m) else Out))
    case Undo =>
      var s1 := Put(s, c, r.(phase := Out));
      if Owner(s, r.phase.m).Free? then s1 else Undone(s1, r.phase.m, Owner(s, r.phase.m).task)
    case Give(m) => Given(s, m)
    case Sleep => Put(s, c, r.(ready := false)).(owed := true)
    case Wake(t) => Put(s, t, R(s, t).(ready := true)).(owed := s.owed || Prio(s, t) > Prio(s, c))
    case TimeOut(t) => Released(s, t).(owed := s.owed || Prio(s, t) >= Prio(s, c))
    case Share => s.(owed := true)
    case Switch(t) => s.(current := t, owed := false)
  }

  // ---- The invariant ----

  ghost function Owned(s: Sys, t: Task): set<MutexId> { set m | m in s.owner && s.owner[m] == Held(t) }

  /** uxMutexesHeld is the number of mutexes held; an inherited priority is above the base priority
      and only a holder has one. */
  ghost predicate CountsHeld(s: Sys, t: Task) {
    var r := R(s, t);
    r.held == |Owned(s, t)| && r.base <= r.prio && (r.held == 0 ==> r.prio == r.base)
  }

  /** The phase agrees with the lists, and a waiting task holds nothing. */
  ghost predicate InPhase(s: Sys, t: Task) {
    match R(s, t).phase
    case Out => true
    case Trying(m, inherited, _) => R(s, t).ready && m in s.owner && (inherited ==> R(s, t).held == 0)
    case Looked(m, inherited) => R(s, t).ready && m in s.owner && (inherited ==> R(s, t).held == 0)
    case Expired(m, inherited, _) => R(s, t).ready && m in s.owner && (inherited ==> R(s, t).held == 0)
    case Waiting(m, _) => !R(s, t).ready && m in s.owner && R(s, t).held == 0 && t in W(s, m)
    case Undoing(m) => R(s, t).ready && m in s.owner && R(s, t).held == 0
  }

  ghost predicate Ordered(s: Sys, m: MutexId) {
    var l := W(s, m);
    && NoDup(l)
    && (forall t <- l :: R(s, t).phase.Waiting? && R(s, t).phase.m == m)
    && (forall i, j :: 0 <= i < j < |l| ==> Prio(s, l[i]) >= Prio(s, l[j]))
  }

  ghost predicate Outranks(s: Sys, m: MutexId, p: nat) { forall t <- W(s, m) :: Prio(s, t) <= p }

  /** A woken task that will try for the mutex, and outranks everyone still waiting for it. */
  ghost predicate Heir(s: Sys, m: MutexId, t: Task) {
    R(s, t).phase.Trying? && R(s, t).phase.m == m && R(s, t).held == 0 && Outranks(s, m, Prio(s, t))
  }

  /** The holder runs at least at the priority of every task it keeps waiting. */
  ghost predicate Inherited(s: Sys, m: MutexId) {
    match Owner(s, m)
    case Held(h) => h in s.tasks && Outranks(s, m, Prio(s, h))
    case Free => W(s, m) == [] || exists t :: Heir(s, m, t)
  }

  ghost predicate Preemptive(s: Sys) {
    s.owed || (Me(s).ready && forall t :: IsReady(s, t) ==> Prio(s, t) <= Prio(s, s.current))
  }

  ghost predicate Inv(s: Sys) {
    && s.current in s.tasks && s.owner.Keys == s.waiting.Keys
    && (forall t :: CountsHeld(s, t)) && (forall t :: InPhase(s, t))
    && (forall m :: Ordered(s, m)) && (forall m :: Inherited(s, m))
    && Preemptive(s)
  }

  /** A task blocks on a mutex while it holds one: another, or the same again. */
  predicate Nests(s: Sys, step: Step) { step.Wait? && Me(s).held > 0 }

  /** The last mutex goes back, the priority drops, and the waiting task that is woken does not
      outrank the new priority: the switch that disinheriting asked for is not made
      (queue.c:811-837) although another ready task is due. */
  ghost predicate Strands(s: Sys, step: Step) {
    match step
    case Give(m) => Drops(Me(s)) && W(s, m) != [] && Prio(s, W(s, m)[0]) <= Me(s).base
      && exists t :: t != s.current && IsReady(s, t) && Prio(s, t) > Me(s).base
    case _ => false
  }
}
