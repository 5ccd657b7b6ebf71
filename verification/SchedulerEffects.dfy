/** What every operation of the scheduler does to every task, said without its lists, its bitmap and its 32-bit
    clock. A task is seen from outside as a card: its priorities, how many mutexes it holds, the value of its event
    item, whether it is runnable, asleep until some time, parked or dead, and what it waits for. `After` gives each
    task's card after each step from its card before, the unbounded time and the running task; `Owes` and `Notes`
    say whether a context switch is then on its way. The operations do exactly that, to every task at once. */
module SchedulerEffects {
  import opened Machine
  import opened ListModel
  import opened ItemStore
  import opened Scheduler
  import opened SchedulerLists
  import opened SchedulerTick
  import opened SchedulerResume
  import opened SchedulerSteps
  import opened SchedulerPriority
  import opened SchedulerSwitch

  datatype Place = Runnable | Asleep(until: nat) | Parked | Dead

  datatype Wait = Nowhere | On(e: EventId)

  datatype Card = Unknown | Card(prio: nat, base: nat, held: nat, value: int, place: Place, wait: Wait)

  function PlaceIn(l: ListId, due: nat): Place {
    match l
    case Ready(_) => Runnable
    case Suspended => Parked
    case Terminated => Dead
    case _ => Asleep(due)
  }

  function WaitOf(s: Sched, t: Task): Wait { if t in s.event.at then On(s.event.at[t]) else Nowhere }

  function Seen(s: Sched, t: Task): Card {
    if t in s.tcbs && t in s.state.at then
      var b := s.tcbs[t];
      Card(b.prio, b.base, b.held, b.eventValue, PlaceIn(s.state.at[t], b.due), WaitOf(s, t))
    else Unknown
  }

  // ---- the reference ----

  /** A task that blocks for n ticks; in a wait, the longest block time is for ever. */
  function Slept(s: Sched, n: Machine.Tick, waiting: bool): Place {
    if n == MAX_DELAY && waiting then Parked else Asleep(Now(s) + n)
  }

  function Awake(c: Card): Card
    requires c.Card?
  {
    c.(place := Runnable, wait := Nowhere)
  }

  /** The value of the event item for a new priority: an item lent to an event group is left alone. */
  function Keyed(s: Sched, value: int, p: nat): int { if value >= IN_USE then value else s.levels - p }

  predicate First(l: seq<Task>, t: Task) { l != [] && l[0] == t }

  /** What a mutex given back leaves of its holder's card. */
  function Given(s: Sched, c: Card): Card
    requires c.Card?
  {
    if c.held == 1 && c.prio != c.base then c.(held := 0, prio := c.base, value := s.levels - c.base)
    else c.(held := if c.held == 0 then 0 else c.held - 1)
  }

  predicate IdlyParked(c: Card) { c.Card? && c.place.Parked? && c.wait.Nowhere? }

  /** The card of t after the step. */
  function After(s: Sched, step: Step, t: Task): Card {
    var c, mine := Seen(s, t), t == s.current;
    if c.Unknown? then
      if step.CreateTask? && step.t == t then Card(step.p, step.p, 0, s.levels - step.p, Runnable, Nowhere) else c
    else match step
    case Tick => if s.suspended == 0 && c.place == Asleep(Now(s) + 1) then Awake(c) else c
    case ResumeScheduler =>
      if s.suspended == 1 && (c.wait == On(PendingReady) || (c.place.Asleep? && c.place.until <= Now(s) + s.pended))
      then Awake(c) else c
    case Delay(n) => if mine then c.(place := Slept(s, n, false)) else c
    case WaitOrdered(q, n) => if mine then c.(place := Slept(s, n, true), wait := On(WaitList(q))) else c
    case WaitUnordered(q, v, n) =>
      if mine then c.(place := Slept(s, n, true), wait := On(WaitList(q)), value := IN_USE + v) else c
    case WakeFirst(q) => if First(InEvent(s, WaitList(q)), t) then Called(s, c) else c
    case WakeOne(x, v) => if t == x then Awake(c).(value := IN_USE + v) else c
    case SuspendTask(x) => if t == x then c.(place := Parked, wait := Nowhere) else c
    case ResumeTask(x) => if t == x && IdlyParked(c) then Awake(c) else c
    case ResumeFromIsr(x) => if t == x && IdlyParked(c) then Called(s, c) else c
    case DeleteTask(x) => if t != x then c else if mine then c.(place := Dead, wait := Nowhere) else Unknown
    case CleanUp => if First(InState(s, Terminated), t) then Unknown else c
    case SetPriority(x, p) =>
      if t == x && c.base != p then
        c.(base := p, prio := if c.prio == c.base then p else c.prio, value := Keyed(s, c.value, p))
      else c
    case ResetItemValue => if mine then c.(value := s.levels - c.prio) else c
    case TakeMutex => if mine then c.(held := c.held + 1) else c
    case GiveMutex(q) =>
      var c' := if mine then Given(s, c) else c;
      if First(InEvent(s, WaitList(q)), t) then Called(s, c') else c'
    case InheritPriority(x) =>
      if t == x && c.prio < Prio(s, s.current) then
        c.(prio := Prio(s, s.current), value := Keyed(s, c.value, Prio(s, s.current)))
      else c
    case MutexTimeout(x, p) =>
      var n := if c.base < p then p else c.base;
      if t == x && c.held == 1 then c.(prio := n, value := if c.prio == n then c.value else Keyed(s, c.value, n)) else c
    case _ => c
  }

  /** Woken from a critical section: runnable, or on the pending list while the scheduler is suspended. */
  function Called(s: Sched, c: Card): Card
    requires c.Card?
  {
    if s.suspended == 0 then Awake(c) else c.(wait := On(PendingReady))
  }

  /** Two different tasks are runnable after the step at the running task's priority. */
  ghost predicate TakeTurns(s: Sched, step: Step) { exists t, u :: Turns(s, step, t, u) }

  ghost predicate Turns(s: Sched, step: Step, t: Task, u: Task) {
    t != u && RunsAt(After(s, step, t), Prio(s, s.current)) && RunsAt(After(s, step, u), Prio(s, s.current))
  }

  predicate RunsAt(c: Card, p: nat) { c.Card? && c.place.Runnable? && c.prio == p }

  /** The step itself makes t runnable, and t is of at least the running task's priority. */
  ghost predicate Rises(s: Sched, step: Step, t: Task) {
    Seen(s, t).Card? && After(s, step, t) == Awake(Seen(s, t)) != Seen(s, t) && Prio(s, t) >= Prio(s, s.current)
  }

  function Head(s: Sched, q: nat): Task { if InEvent(s, WaitList(q)) == [] then s.current else InEvent(s, WaitList(q))[0] }

  /** xYieldPending after the step. */
  ghost predicate Notes(s: Sched, step: Step) {
    match step
    case PendSv => s.suspended > 0
    case ResumeScheduler =>
      s.yieldPending || (s.suspended == 1 && ((exists t :: Rises(s, step, t)) || (s.pended > 0 && TakeTurns(s, step))))
    case WakeFirst(q) => s.yieldPending || Prio(s, Head(s, q)) > Prio(s, s.current)
    case WakeOne(t, _) => s.yieldPending || Prio(s, t) > Prio(s, s.current)
    case GiveMutex(q) => s.yieldPending || (InEvent(s, WaitList(q)) != [] && Outdone(s, q))
    case _ => s.yieldPending
  }

  /** The task at the head of the list outranks the giver, at the priority the giver is left with. */
  predicate Outdone(s: Sched, q: nat) {
    var me := Given(s, Card(Prio(s, s.current), T(s, s.current).base, T(s, s.current).held, 0, Runnable, Nowhere)).prio;
    (if Head(s, q) == s.current then me else Prio(s, Head(s, q))) > me
  }

  /** A context switch is pending, or was asked for, after the step. */
  ghost predicate Owes(s: Sched, step: Step) {
    match step
    case Tick =>
      s.owed || s.yieldPending || (s.suspended == 0 && ((exists t :: Rises(s, step, t)) || TakeTurns(s, step)))
    case PendSv => false
    case ResumeScheduler => s.owed || (s.suspended == 1 && Notes(s, step))
    case Yield => true
    case WakeFirst(q) => s.owed || Prio(s, Head(s, q)) > Prio(s, s.current)
    case SuspendTask(t) => s.owed || t == s.current
    case ResumeTask(t) => s.owed || (IdlyParked(Seen(s, t)) && Prio(s, t) >= Prio(s, s.current))
    case ResumeFromIsr(t) => s.owed || (s.suspended == 0 && IdlyParked(Seen(s, t)) && Prio(s, t) >= Prio(s, s.current))
    case CreateTask(_, p) => s.owed || p > Prio(s, s.current)
    case DeleteTask(t) => s.owed || t == s.current
    case SetPriority(t, p) =>
      s.owed || (p > T(s, t).base && t != s.current && p >= Prio(s, s.current)) || (p < T(s, t).base && t == s.current)
    case GiveMutex(q) =>
      s.owed || (if InEvent(s, WaitList(q)) != [] then Outdone(s, q)
                 else T(s, s.current).held == 1 && Prio(s, s.current) != T(s, s.current).base)
    case _ => s.owed
  }

  /** Everything but the tasks: clock, counters, flags, and who runs. */
  ghost predicate Books(s: Sched, step: Step, s': Sched) {
    && s'.levels == s.levels && s'.idle == s.idle
    && s'.delivered == s.delivered + (if step.Tick? then 1 else 0)
    && Now(s') == Now(s) + (if step.Tick? && s.suspended == 0 then 1
                            else if step.ResumeScheduler? && s.suspended == 1 then s.pended else 0)
    && s'.pended == (if step.Tick? && s.suspended > 0 then s.pended + 1
                     else if step.ResumeScheduler? && s.suspended == 1 then 0 else s.pended)
    && s'.suspended == (if step.SuspendScheduler? then s.suspended + 1
                        else if step.ResumeScheduler? then s.suspended - 1 else s.suspended)
    && s'.numTasks == (if step.CreateTask? then s.numTasks + 1
                       else if step.CleanUp? || (step.DeleteTask? && step.t != s.current) then s.numTasks - 1 else s.numTasks)
    && s'.deleted == (if step.CleanUp? then s.deleted - 1
                      else if step.DeleteTask? && step.t == s.current then s.deleted + 1 else s.deleted)
    && s'.blocking == (if step.Delay? || step.WaitOrdered? || step.WaitUnordered? then true
                       else if step.Yield? || (step.PendSv? && s.suspended == 0) then false else s.blocking)
    && (step.PendSv? && s.suspended == 0 ==> Topmost(s, s'.current))
    && (!step.PendSv? || s.suspended > 0 ==> s'.current == s.current)
  }

  /** No runnable task outranks t, which is runnable. */
  ghost predicate Topmost(s: Sched, t: Task) {
    Seen(s, t).Card? && Seen(s, t).place.Runnable? && forall u :: IsReady(s, u) ==> Prio(s, u) <= Prio(s, t)
  }

  // ---- each operation ----

  /** s' is s after the step, as the reference has it. */
  ghost predicate Exact(s: Sched, step: Step, s': Sched) {
    && (forall t :: Seen(s', t) == After(s, step, t))
    && (s'.owed <==> Owes(s, step)) && (s'.yieldPending <==> Notes(s, step)) && Books(s, step, s')
  }

  lemma Keys(s: Sched)
    requires Inv(s)
    ensures s.state.at.Keys == s.tcbs.Keys && s.event.at.Keys <= s.tcbs.Keys && s.current in s.tcbs
    ensures forall t :: t in s.state.at <==> t in s.tcbs
    ensures |InState(s, Terminated)| == s.deleted && |s.tcbs| == s.numTasks
  {
    assert forall t :: t in s.state.at <==> t in s.state.at.Keys;
  }

  lemma YieldExact(s: Sched)
    ensures Exact(s, Yield, s.(owed := true, blocking := false))
  {
  }

  lemma HaltExact(s: Sched)
    ensures Exact(s, SuspendScheduler, s.(suspended := s.suspended + 1))
  {
  }

  lemma TakeExact(s: Sched)
    requires s.current in s.tcbs
    ensures Exact(s, Step.TakeMutex, Scheduler.TakeMutex(s))
  {
  }

  lemma ResetExact(s: Sched)
    requires s.current in s.tcbs
    ensures Exact(s, ResetItemValue, ResetItem(s))
  {
  }

  lemma SwitchExact(s: Sched)
    requires Inv(s)
    ensures Exact(s, PendSv, Switch(s))
  {
    if s.suspended == 0 {
      SwitchPicks(s);
      var p := HighestBelow(s.top, s.levels);
      AdvanceCore(s, p);
      hide Inv, HighestBelow, Advance;
    }
  }

  // a step about one task

  /** The task the step is about. */
  function Subject(s: Sched, step: Step): Task {
    match step
    case WakeFirst(q) => Head(s, q)
    case WakeOne(t, _) => t
    case SuspendTask(t) => t
    case ResumeTask(t) => t
    case ResumeFromIsr(t) => t
    case CreateTask(t, _) => t
    case DeleteTask(t) => t
    case CleanUp => if InState(s, Terminated) == [] then s.current else InState(s, Terminated)[0]
    case SetPriority(t, _) => t
    case InheritPriority(t) => t
    case MutexTimeout(t, _) => t
    case _ => s.current
  }

  predicate Single(step: Step) { !step.Tick? && !step.ResumeScheduler? && !step.GiveMutex? }

  lemma OthersKeep(s: Sched, step: Step, t: Task)
    requires Single(step) && t != Subject(s, step)
    requires step.WakeFirst? ==> InEvent(s, WaitList(step.q)) != []
    ensures After(s, step, t) == Seen(s, t)
  {
  }

  /** Nothing is different of any task but x. */
  ghost predicate OnlyOne(s: Sched, s': Sched, x: Task) {
    forall t {:trigger T(s', t)} {:trigger t in s'.state.at} {:trigger t in s'.event.at} {:trigger t in s'.tcbs} :: t != x ==>
      && (t in s'.tcbs <==> t in s.tcbs) && T(s', t) == T(s, t)
      && (t in s'.state.at <==> t in s.state.at) && (t in s.state.at ==> s'.state.at[t] == s.state.at[t])
      && (t in s'.event.at <==> t in s.event.at) && (t in s.event.at ==> s'.event.at[t] == s.event.at[t])
  }

  lemma OneExact(s: Sched, step: Step, s': Sched, x: Task)
    requires Single(step) && x == Subject(s, step) && OnlyOne(s, s', x) && Seen(s', x) == After(s, step, x)
    requires step.WakeFirst? ==> InEvent(s, WaitList(step.q)) != []
    ensures forall t :: Seen(s', t) == After(s, step, t)
  {
    hide After, Subject;
    forall t ensures Seen(s', t) == After(s, step, t) {
      if t != x {
        OthersKeep(s, step, t);
        assert T(s', t) == T(s, t);
      }
    }
  }

  function SleepList(s: Sched, n: Machine.Tick, waiting: bool): ListId {
    if n == MAX_DELAY && waiting then Suspended else if Add32(s.tick, n) < s.tick then OverflowList(s) else CurrentList(s)
  }

  lemma Readded(m: map<Task, ListId>, t: Task, l: ListId)
    ensures (m - {t})[t := l] == m[t := l]
  {
  }

  /** prvAddCurrentTaskToDelayedList. */
  lemma BlockMoves(s: Sched, n: Machine.Tick, waiting: bool)
    requires s.current in s.tcbs && s.current in s.state.at
    ensures var s' := BlockCurrent(s, n, waiting);
      && s' == s.(state := s'.state, top := s'.top, next := s'.next, tcbs := s'.tcbs)
      && OnlyOne(s, s', s.current) && s.current in s'.tcbs && s.current in s'.state.at
      && s'.state.at[s.current] == SleepList(s, n, waiting)
      && T(s', s.current) == T(s, s.current).(wake := T(s', s.current).wake, due := T(s', s.current).due)
      && (!SleepList(s, n, waiting).Suspended? ==> T(s', s.current).due == Now(s) + n)
  {
    hide BlockCurrent, SleepList, OnlyOne;
    var s' := BlockCurrent(s, n, waiting);
    BlockFiles(s, n, waiting);
    assert s'.state.at - {s.current} == s.state.at - {s.current} && s'.event.at - {s.current} == s.event.at - {s.current};
    assert s'.tcbs - {s.current} == s.tcbs - {s.current};
    GoneOrNot(s, s', s.current);
  }

  lemma BlockFiles(s: Sched, n: Machine.Tick, waiting: bool)
    requires s.current in s.tcbs && s.current in s.state.at
    ensures var s' := BlockCurrent(s, n, waiting);
      && s' == s.(state := s'.state, top := s'.top, next := s'.next, tcbs := s'.tcbs)
      && s'.state.at == s.state.at[s.current := SleepList(s, n, waiting)]
      && s'.tcbs == s.tcbs[s.current := s.tcbs[s.current].(wake := T(s', s.current).wake, due := T(s', s.current).due)]
      && (!SleepList(s, n, waiting).Suspended? ==> T(s', s.current).due == Now(s) + n)
  {
    hide Remove, InsertAt, InsertEnd, SearchPos;
    Readded(s.state.at, s.current, SleepList(s, n, waiting));
  }

  lemma SleptPlace(s: Sched, n: Machine.Tick, waiting: bool, due: nat)
    requires !SleepList(s, n, waiting).Suspended? ==> due == Now(s) + n
    ensures PlaceIn(SleepList(s, n, waiting), due) == Slept(s, n, waiting)
  {
  }

  lemma DelayExact(s: Sched, n: Machine.Tick)
    requires Inv(s) && Enabled(s, Delay(n))
    ensures Exact(s, Delay(n), BlockCurrent(s, n, false).(blocking := true))
  {
    hide Inv, BlockCurrent, OnlyOne, SleepList, PlaceIn, Slept;
    Keys(s);
    BlockMoves(s, n, false);
    var b := BlockCurrent(s, n, false);
    var s' := b.(blocking := true);
    SleptPlace(s, n, false, T(b, s.current).due);
    SameOne(s, b, s', s.current);
    OneExact(s, Delay(n), s', s.current);
  }

  lemma SameOne(s: Sched, m: Sched, s': Sched, x: Task)
    requires OnlyOne(s, m, x) && s'.tcbs == m.tcbs && s'.state == m.state && s'.event == m.event
    ensures OnlyOne(s, s', x)
  {
    assert forall t :: T(s', t) == T(m, t);
  }

  lemma TwiceOne(s: Sched, m: Sched, s': Sched, x: Task)
    requires OnlyOne(s, m, x) && OnlyOne(m, s', x)
    ensures OnlyOne(s, s', x)
  {
    forall t | t != x ensures T(s', t) == T(s, t) { assert T(s', t) == T(m, t); }
    forall t | t != x ensures (t in s'.tcbs <==> t in s.tcbs) && (t in s'.state.at <==> t in s.state.at)
      && (t in s.state.at ==> s'.state.at[t] == s.state.at[t])
      && (t in s'.event.at <==> t in s.event.at) && (t in s.event.at ==> s'.event.at[t] == s.event.at[t])
    {
      assert T(m, t) == T(s, t) && T(s', t) == T(m, t);
    }
  }

  lemma OrderedExact(s: Sched, q: nat, n: Machine.Tick)
    requires Inv(s) && Enabled(s, WaitOrdered(q, n))
    ensures Exact(s, WaitOrdered(q, n), BlockOn(s, q, n).(blocking := true))
  {
    hide Inv, BlockCurrent, SearchPos, InsertAt, OnlyOne, SleepList, PlaceIn, Slept;
    Keys(s);
    var k := SearchPos(EventKeys(s.tcbs, InEvent(s, WaitList(q))), T(s, s.current).eventValue);
    var m := s.(event := PutAt(s.event, WaitList(q), k, s.current));
    assert OnlyOne(s, m, s.current) by { WaitsOne(s, m, s.current, WaitList(q)); }
    WaitBlocks(s, m, WaitOrdered(q, n), q, n, T(s, s.current).eventValue);
  }

  lemma WaitsOne(s: Sched, m: Sched, t: Task, e: EventId)
    requires m.tcbs.Keys == s.tcbs.Keys + {t} && (forall x :: x != t ==> T(m, x) == T(s, x)) && m.state == s.state
    requires m.event.at == s.event.at[t := e]
    ensures OnlyOne(s, m, t)
  {
    assert forall x :: x in m.tcbs <==> x in m.tcbs.Keys;
  }

  /** What the two kinds of wait have in common; m is the state with the event item in place. */
  lemma WaitBlocks(s: Sched, m: Sched, step: Step, q: nat, n: Machine.Tick, v: int)
    requires s.current in s.tcbs && s.current in s.state.at && OnlyOne(s, m, s.current)
    requires (step == WaitOrdered(q, n) && v == T(s, s.current).eventValue)
      || (exists w: Machine.Tick :: step == WaitUnordered(q, w, n) && v == IN_USE + w)
    requires m == s.(tcbs := m.tcbs, event := m.event) && s.current in m.tcbs
    requires m.tcbs[s.current] == s.tcbs[s.current].(eventValue := v) && m.event.at == s.event.at[s.current := WaitList(q)]
    ensures Exact(s, step, BlockCurrent(m, n, true).(blocking := true))
  {
    hide BlockCurrent, OnlyOne, SleepList, PlaceIn, Slept;
    BlockMoves(m, n, true);
    var b := BlockCurrent(m, n, true);
    var s' := b.(blocking := true);
    SleptPlace(m, n, true, T(b, s.current).due);
    assert Slept(m, n, true) == Slept(s, n, true) by { SleptSame(s, m, n); }
    TwiceOne(s, m, b, s.current);
    SameOne(s, b, s', s.current);
    assert Seen(s', s.current) == After(s, step, s.current);
    OneExact(s, step, s', s.current);
  }

  lemma SleptSame(s: Sched, m: Sched, n: Machine.Tick)
    requires m.tick == s.tick && m.epoch == s.epoch
    ensures Slept(m, n, true) == Slept(s, n, true)
  {
  }

  lemma UnorderedExact(s: Sched, q: nat, v: Machine.Tick, n: Machine.Tick)
    requires Inv(s) && Enabled(s, WaitUnordered(q, v, n))
    ensures Exact(s, WaitUnordered(q, v, n), BlockUnordered(s, q, v, n).(blocking := true))
  {
    hide Inv, BlockCurrent, InsertEnd, OnlyOne, SleepList, PlaceIn, Slept;
    Keys(s);
    var s1 := SetTcb(s, s.current, T(s, s.current).(eventValue := MarkInUse(v)));
    var m := s1.(event := PutEnd(s1.event, WaitList(q), s.current));
    assert OnlyOne(s, m, s.current) by { WaitsOne(s, m, s.current, WaitList(q)); }
    WaitBlocks(s, m, WaitUnordered(q, v, n), q, n, IN_USE + v);
  }

  // waking and resuming

  /** Off its event list and into its ready list. */
  lemma ReadiedMoves(s: Sched, t: Task)
    ensures var s' := AddReady(RemoveState(RemoveEvent(s, t), t), t);
      && s' == s.(state := s'.state, event := s'.event, top := s'.top)
      && s'.state.at == s.state.at[t := Ready(Prio(s, t))] && s'.event.at == s.event.at - {t} && OnlyOne(s, s', t)
  {
    hide Remove, InsertEnd;
    Readded(s.state.at, t, Ready(Prio(s, t)));
  }

  lemma PendedMoves(s: Sched, t: Task)
    ensures var s' := PutPending(RemoveEvent(s, t), t);
      && s' == s.(event := s'.event) && s'.event.at == s.event.at[t := PendingReady] && OnlyOne(s, s', t)
  {
    hide Remove, InsertEnd, OnlyOne;
    assert (s.event.at - {t})[t := PendingReady] == s.event.at[t := PendingReady];
    assert s.event.at[t := PendingReady] - {t} == s.event.at - {t};
    GoneOrNot(s, PutPending(RemoveEvent(s, t), t), t);
  }

  lemma WakeFirstExact(s: Sched, q: nat)
    requires Inv(s) && Enabled(s, WakeFirst(q))
    ensures Exact(s, WakeFirst(q), WakeHead(s, q))
  {
    hide Inv, WakeHead, OnlyOne;
    Keys(s);
    HeadWaits(s, q);
    CalledMoves(s, q);
    OneExact(s, WakeFirst(q), WakeHead(s, q), Head(s, q));
  }

  /** xTaskRemoveFromEventList moves the head of the list and nothing else. */
  lemma CalledMoves(s: Sched, q: nat)
    requires InEvent(s, WaitList(q)) != []
    ensures var s', h := WakeHead(s, q), InEvent(s, WaitList(q))[0];
      && s' == s.(state := s'.state, event := s'.event, top := s'.top, yieldPending := s'.yieldPending, owed := s'.owed)
      && s'.state.at == (if s.suspended == 0 then s.state.at[h := Ready(Prio(s, h))] else s.state.at)
      && s'.event.at == (if s.suspended == 0 then s.event.at - {h} else s.event.at[h := PendingReady])
      && s'.owed == (s.owed || Prio(s, h) > Prio(s, s.current))
      && s'.yieldPending == (s.yieldPending || Prio(s, h) > Prio(s, s.current)) && OnlyOne(s, s', h)
  {
    var h := InEvent(s, WaitList(q))[0];
    hide AddReady, RemoveState, RemoveEvent, PutPending, OnlyOne;
    ReadiedMoves(s, h);
    PendedMoves(s, h);
    SameOne(s, if s.suspended == 0 then AddReady(RemoveState(RemoveEvent(s, h), h), h) else PutPending(RemoveEvent(s, h), h),
            WakeHead(s, q), h);
  }

  lemma WakeOneExact(s: Sched, t: Task, v: Machine.Tick)
    requires Inv(s) && Enabled(s, WakeOne(t, v))
    ensures Exact(s, WakeOne(t, v), WakeUnordered(s, t, v))
  {
    hide Inv, AddReady, RemoveState, RemoveEvent, OnlyOne;
    Keys(s);
    var m := SetTcb(s, t, T(s, t).(eventValue := MarkInUse(v)));
    assert OnlyOne(s, m, t) by { PricedOne(s, t, T(s, t).(eventValue := MarkInUse(v))); }
    ReadiedMoves(m, t);
    var r := AddReady(RemoveState(RemoveEvent(m, t), t), t);
    TwiceOne(s, m, r, t);
    SameOne(s, r, WakeUnordered(s, t, v), t);
    OneExact(s, WakeOne(t, v), WakeUnordered(s, t, v), t);
  }

  lemma PricedOne(s: Sched, t: Task, tcb: Tcb)
    ensures OnlyOne(s, SetTcb(s, t, tcb), t)
  {
  }

  lemma ResumeExact(s: Sched, t: Task)
    requires Inv(s) && Enabled(s, ResumeTask(t))
    ensures Exact(s, ResumeTask(t), Resume(s, t))
  {
    hide Inv, AddReady, RemoveState, RemoveEvent, OnlyOne;
    Keys(s);
    assert OnlyOne(s, s, t) by { NobodyElse(s, t); }
    if t != s.current && IsSuspended(s, t) {
      ReadiedMoves(s, t);
      NoEvent(s, t);
      SameOne(s, AddReady(RemoveState(s, t), t), Resume(s, t), t);
    }
    OneExact(s, ResumeTask(t), Resume(s, t), t);
  }

  lemma NobodyElse(s: Sched, t: Task)
    ensures OnlyOne(s, s, t)
  {
  }

  lemma ResumeIsrExact(s: Sched, t: Task)
    requires Inv(s) && Enabled(s, ResumeFromIsr(t))
    ensures Exact(s, ResumeFromIsr(t), ResumeFromISR(s, t))
  {
    hide Inv, ResumeFromISR, OnlyOne;
    Keys(s);
    assert OnlyOne(s, s, t) by { NobodyElse(s, t); }
    ResumeIsrMoves(s, t);
    OneExact(s, ResumeFromIsr(t), ResumeFromISR(s, t), t);
  }

  lemma ResumeIsrMoves(s: Sched, t: Task)
    ensures var s' := ResumeFromISR(s, t);
      if !IsSuspended(s, t) then s' == s else
      && s' == s.(state := s'.state, event := s'.event, top := s'.top, owed := s'.owed) && OnlyOne(s, s', t)
      && s'.state.at == (if s.suspended == 0 then s.state.at[t := Ready(Prio(s, t))] else s.state.at)
      && s'.event.at == (if s.suspended == 0 then s.event.at - {t} else s.event.at[t := PendingReady])
      && s'.owed == (s.owed || (s.suspended == 0 && Prio(s, t) >= Prio(s, s.current)))
  {
    hide AddReady, RemoveState, RemoveEvent, PutPending, OnlyOne;
    if IsSuspended(s, t) {
      ReadiedMoves(s, t);
      PendedMoves(s, t);
      NoEvent(s, t);
      SameOne(s, if s.suspended == 0 then AddReady(RemoveState(s, t), t) else PutPending(s, t), ResumeFromISR(s, t), t);
    }
  }

  // suspending, creating, deleting

  lemma UnreadyMoves(s: Sched, t: Task, p: nat)
    ensures var s' := RemoveEvent(Unready(s, t, p), t);
      && s' == s.(state := s'.state, event := s'.event, top := s'.top)
      && s'.state.at == s.state.at - {t} && s'.event.at == s.event.at - {t}
  {
    hide Remove;
  }

  lemma NextOnly(s: Sched)
    ensures ResetNext(s) == s.(next := ResetNext(s).next)
  {
  }

  lemma GoneOne(s: Sched, s': Sched, t: Task)
    requires s'.state.at - {t} == s.state.at - {t} && s'.event.at == s.event.at - {t} && s'.tcbs - {t} == s.tcbs - {t}
    ensures OnlyOne(s, s', t)
  {
    assert s'.event.at - {t} == s.event.at - {t};
    GoneOrNot(s, s', t);
  }

  lemma GoneOrNot(s: Sched, s': Sched, t: Task)
    requires s'.state.at - {t} == s.state.at - {t} && s'.event.at - {t} == s.event.at - {t} && s'.tcbs - {t} == s.tcbs - {t}
    ensures OnlyOne(s, s', t)
  {
    forall x | x != t ensures (x in s'.event.at <==> x in s.event.at) && (x in s.event.at ==> s'.event.at[x] == s.event.at[x])
    {
      assert x in s'.event.at <==> x in s'.event.at - {t};
      assert x in s.event.at <==> x in s.event.at - {t};
      if x in s.event.at { assert (s.event.at - {t})[x] == s.event.at[x] && (s'.event.at - {t})[x] == s'.event.at[x]; }
    }
    forall x | x != t ensures T(s', x) == T(s, x) && (x in s'.tcbs <==> x in s.tcbs)
      && (x in s'.state.at <==> x in s.state.at) && (x in s.state.at ==> s'.state.at[x] == s.state.at[x])
    {
      assert x in s'.tcbs <==> x in s'.tcbs - {t};
      assert x in s.tcbs <==> x in s.tcbs - {t};
      assert x in s'.state.at <==> x in s'.state.at - {t};
      assert x in s.state.at <==> x in s.state.at - {t};
      if x in s.tcbs { assert (s.tcbs - {t})[x] == s.tcbs[x] && (s'.tcbs - {t})[x] == s'.tcbs[x]; }
      if x in s.state.at { assert (s.state.at - {t})[x] == s.state.at[x] && (s'.state.at - {t})[x] == s'.state.at[x]; }
    }
  }

  lemma SuspendExact(s: Sched, t: Task)
    requires Inv(s) && Enabled(s, SuspendTask(t))
    ensures Exact(s, SuspendTask(t), Scheduler.SuspendTask(s, t))
  {
    hide Inv, Unready, RemoveEvent, InsertEnd, ResetNext, OnlyOne;
    Keys(s);
    UnreadyMoves(s, t, Prio(s, t));
    NextOnly(PutSuspended(RemoveEvent(Unready(s, t, Prio(s, t)), t), t));
    var s' := Scheduler.SuspendTask(s, t);
    Readded(s.state.at, t, Suspended);
    assert s'.state.at == s.state.at[t := Suspended] && s'.event.at == s.event.at - {t} && s'.tcbs == s.tcbs;
    assert s' == s.(state := s'.state, event := s'.event, top := s'.top, next := s'.next, owed := s.owed || t == s.current);
    hide Scheduler.SuspendTask;
    assert s'.state.at - {t} == s.state.at - {t};
    GoneOne(s, s', t);
    OneExact(s, SuspendTask(t), s', t);
  }

  lemma CreateExact(s: Sched, t: Task, p: nat)
    requires Inv(s) && Enabled(s, CreateTask(t, p))
    ensures Exact(s, CreateTask(t, p), Create(s, t, p))
  {
    hide Inv, OnlyOne;
    Keys(s);
    var s' := Create(s, t, p);
    CreateMoves(s, t, p);
    hide Create;
    assert t !in s.event.at by { Unlisted(s, t); }
    assert s'.state.at - {t} == s.state.at - {t} && s'.tcbs - {t} == s.tcbs - {t} && s.event.at - {t} == s.event.at;
    GoneOne(s, s', t);
    OneExact(s, CreateTask(t, p), s', t);
  }

  lemma CreateMoves(s: Sched, t: Task, p: nat)
    ensures var s' := Create(s, t, p);
      && s' == s.(state := s'.state, top := s'.top, tcbs := s'.tcbs, numTasks := s.numTasks + 1, owed := s'.owed)
      && s'.tcbs == s.tcbs[t := Tcb(p, p, 0, 0, s.levels - p, 0)] && s'.state.at == s.state.at[t := Ready(p)]
      && (t !in s.tcbs && s.current in s.tcbs ==> s'.owed == (s.owed || p > Prio(s, s.current)))
  {
    hide InsertEnd;
  }

  lemma Unlisted(s: Sched, t: Task)
    requires s.event.at.Keys <= s.tcbs.Keys && t !in s.tcbs
    ensures t !in s.event.at
  {
    assert t !in s.event.at.Keys;
  }

  lemma DeleteExact(s: Sched, t: Task)
    requires Inv(s) && Enabled(s, DeleteTask(t))
    ensures Exact(s, DeleteTask(t), Delete(s, t))
  {
    hide Inv, Delete, OnlyOne;
    Keys(s);
    Counts(s, t);
    DeleteMoves(s, t);
    GoneOne(s, Delete(s, t), t);
    OneExact(s, DeleteTask(t), Delete(s, t), t);
  }

  lemma DeleteMoves(s: Sched, t: Task)
    requires t in s.tcbs && s.numTasks > 0
    ensures var s', mine := Delete(s, t), t == s.current;
      && s' == s.(state := s'.state, event := s'.event, top := s'.top, next := s'.next, tcbs := s'.tcbs,
                  numTasks := if mine then s.numTasks else s.numTasks - 1, deleted := if mine then s.deleted + 1 else s.deleted,
                  owed := s.owed || mine)
      && s'.event.at == s.event.at - {t} && s'.state.at - {t} == s.state.at - {t} && s'.tcbs - {t} == s.tcbs - {t}
      && (if mine then s'.tcbs == s.tcbs && t in s'.state.at && s'.state.at[t] == Terminated else t !in s'.tcbs)
  {
    hide Unready, RemoveEvent, InsertEnd, ResetNext;
    UnreadyMoves(s, t, Prio(s, t));
    var e := RemoveEvent(Unready(s, t, Prio(s, t)), t);
    if t != s.current { NextOnly(e.(tcbs := e.tcbs - {t}, numTasks := s.numTasks - 1)); }
  }

  lemma Counts(s: Sched, t: Task)
    requires t in s.tcbs && |s.tcbs| == s.numTasks
    ensures s.numTasks > 0
  {
    assert t in s.tcbs.Keys;
    assert s.tcbs.Keys != {};
  }

  lemma CleanUpExact(s: Sched)
    requires Inv(s) && Enabled(s, CleanUp)
    ensures Exact(s, CleanUp, Cleanup(s))
  {
    hide Inv, Remove, OnlyOne;
    Keys(s);
    DeletedHead(s);
    var t, s' := InState(s, Terminated)[0], Cleanup(s);
    assert s'.state.at - {t} == s.state.at - {t} && s'.tcbs - {t} == s.tcbs - {t} && s.event.at - {t} == s.event.at;
    GoneOne(s, s', t);
    OneExact(s, CleanUp, s', t);
  }

  // many tasks at once

  function AfterTick(s: Sched): Sched {
    var r := IncrementTick(s);
    r.s.(owed := s.owed || r.switch, delivered := s.delivered + 1)
  }

  lemma TickIsExact(s: Sched)
    requires Inv(s)
    ensures Exact(s, Tick, AfterTick(s))
  {
      hide Core, IncrementTick;
    Keys(s);
    if s.suspended == 0 {
      TickExact(s);
      forall t | IsDelayed(s, t) ensures T(s, t).due > Now(s) { DelayedLater(s, t); }
      TickFates(s, IncrementTick(s));
    } else {
      SuspendedTick(s);
    }
  }

  lemma TickFates(s: Sched, r: Ticked)
    requires s.suspended == 0 && r == IncrementTick(s) && Woken(s, r.s)
    requires forall t :: t in s.state.at <==> t in s.tcbs
    requires r.switch <==> s.yieldPending || (exists t :: Challenger(s, t)) || Shared(r.s)
    ensures Exact(s, Tick, AfterTick(s))
  {
    hide IncrementTick;
    var s' := AfterTick(s);
    forall t ensures Seen(s', t) == After(s, Tick, t) {
      if t in s.state.at { assert r.s.state.at[t] == s'.state.at[t]; }
    }
    assert forall t :: Rises(s, Tick, t) <==> Challenger(s, t);
    assert forall t, u :: Turns(s, Tick, t, u) <==> Equals(r.s, t, u);
    if TakeTurns(s, Tick) {
      var t, u :| Turns(s, Tick, t, u);
      assert Equals(r.s, t, u);
    }
    if Shared(r.s) {
      var t, u :| Equals(r.s, t, u);
      assert Turns(s, Tick, t, u);
    }
  }

  lemma ResumeAllExact(s: Sched)
    requires Inv(s) && s.suspended > 0
    ensures Exact(s, ResumeScheduler, ResumeAll(s))
  {
    hide Core, ResumeAll;
    Keys(s);
    if s.suspended == 1 {
      ResumedExact(s);
      forall t | IsDelayed(s, t) ensures T(s, t).due > Now(s) { DelayedLater(s, t); }
      hide Inv;
      ResumeFates(s, ResumeAll(s));
    } else {
      Nested(s);
    }
  }

  lemma Nested(s: Sched)
    requires s.suspended > 1
    ensures ResumeAll(s) == s.(suspended := s.suspended - 1) && Exact(s, ResumeScheduler, ResumeAll(s))
  {
    hide ReadyPended, Replay;
  }

  lemma ResumeFates(s: Sched, r: Sched)
    requires s.suspended == 1 && Resumed(s, r) && s.current in s.tcbs && s.event.at.Keys <= s.tcbs.Keys
    requires forall t :: t in s.state.at <==> t in s.tcbs
    ensures Exact(s, ResumeScheduler, r)
  {
    ResumeCards(s, r);
    hide Resumed, After, Recalled, Shared, Turns;
    ResumeYields(s, r);
  }

  lemma ResumeCards(s: Sched, r: Sched)
    requires s.suspended == 1 && Resumed(s, r)
    requires forall t :: t in s.state.at <==> t in s.tcbs
    ensures Books(s, ResumeScheduler, r) && r.tcbs == s.tcbs && r.current == s.current
    ensures forall t :: Seen(r, t) == After(s, ResumeScheduler, t)
    ensures r.yieldPending <==> s.yieldPending || (exists t :: Recalled(s, t)) || (s.pended > 0 && Shared(r))
    ensures r.owed == (s.owed || r.yieldPending) && r.state.at.Keys == s.state.at.Keys
  {
    hide Shared, Recalled;
    forall t ensures Seen(r, t) == After(s, ResumeScheduler, t) {
      if t in s.state.at {
        assert r.state.at[t] == if Pending(s, t) || DueWithin(s, s.pended, t) then Ready(Prio(s, t)) else s.state.at[t];
      }
    }
  }

  /** The tasks that rise are those recalled which were not runnable before. */
  lemma ResumeYields(s: Sched, r: Sched)
    requires s.suspended == 1 && r.tcbs == s.tcbs && r.current == s.current && r.state.at.Keys == s.state.at.Keys
    requires s.event.at.Keys <= s.tcbs.Keys
    requires forall t :: t in s.state.at <==> t in s.tcbs
    requires forall t :: Seen(r, t) == After(s, ResumeScheduler, t)
    requires r.yieldPending <==> s.yieldPending || (exists t :: Recalled(s, t)) || (s.pended > 0 && Shared(r))
    ensures r.yieldPending <==> Notes(s, ResumeScheduler)
  {
    hide After;
    forall t ensures Recalled(s, t) <==> Rises(s, ResumeScheduler, t) { RecalledRises(s, t); }
    assert forall t :: t in r.state.at <==> t in r.state.at.Keys;
    SharedTurns(s, ResumeScheduler, r);
  }

  lemma RecalledRises(s: Sched, t: Task)
    requires s.suspended == 1 && (t in s.state.at <==> t in s.tcbs) && s.event.at.Keys <= s.tcbs.Keys
    ensures Recalled(s, t) <==> Rises(s, ResumeScheduler, t)
  {
    if t in s.event.at { assert t in s.event.at.Keys; }
  }

  lemma SharedTurns(s: Sched, step: Step, r: Sched)
    requires forall t :: Seen(r, t) == After(s, step, t)
    requires Prio(r, r.current) == Prio(s, s.current) && forall t :: t in r.state.at <==> t in r.tcbs
    ensures Shared(r) <==> TakeTurns(s, step)
  {
    hide After;
    forall t, u ensures Equals(r, t, u) <==> Turns(s, step, t, u) {
      assert Seen(r, t) == After(s, step, t) && Seen(r, u) == After(s, step, u);
    }
    if Shared(r) {
      var t, u :| Equals(r, t, u);
      assert Turns(s, step, t, u);
    }
    if TakeTurns(s, step) {
      var t, u :| Turns(s, step, t, u);
      assert Equals(r, t, u);
    }
  }

  // priorities

  lemma PriorityExact(s: Sched, t: Task, p: nat)
    requires Inv(s) && Enabled(s, SetPriority(t, p))
    ensures Exact(s, SetPriority(t, p), PrioritySet(s, t, p))
  {
    hide Inv, PrioritySet, OnlyOne;
    Keys(s);
    PriorityMoves(s, t, p);
    OneExact(s, SetPriority(t, p), PrioritySet(s, t, p), t);
  }

  /** A task that is ready stays so, in whatever list. */
  ghost predicate Relisted(s: Sched, s': Sched, t: Task, tcb: Tcb) {
    && s' == s.(state := s'.state, top := s'.top, tcbs := s'.tcbs, owed := s'.owed) && OnlyOne(s, s', t)
    && t in s'.tcbs && s'.tcbs[t] == tcb && t in s'.state.at
    && (if IsReady(s, t) then IsReady(s', t) else t in s.state.at && s'.state.at[t] == s.state.at[t])
  }

  lemma RelistedSame(s: Sched, t: Task, tcb: Tcb)
    requires t in s.state.at
    ensures Relisted(s, SetTcb(s, t, tcb), t, tcb)
  {
  }

  lemma RelistedReady(s: Sched, m: Sched, t: Task, tcb: Tcb)
    requires t in s.state.at && IsReady(s, t) && m.state.at == s.state.at - {t} && m.tcbs == s.tcbs[t := tcb]
    requires m == s.(state := m.state, top := m.top, tcbs := m.tcbs)
    ensures Relisted(s, AddReady(m, t), t, tcb)
  {
    hide InsertEnd, OnlyOne;
    var r := AddReady(m, t);
    Readded(s.state.at, t, Ready(Prio(m, t)));
    assert r.state.at - {t} == s.state.at - {t} && r.tcbs - {t} == s.tcbs - {t};
    GoneOrNot(s, r, t);
  }

  lemma RelistedOwed(s: Sched, m: Sched, s': Sched, t: Task, tcb: Tcb)
    requires Relisted(s, m, t, tcb) && s' == m.(owed := s'.owed)
    ensures Relisted(s, s', t, tcb)
  {
    SameOne(s, m, s', t);
  }

  lemma PriorityMoves(s: Sched, t: Task, p: nat)
    requires t in s.tcbs && t in s.state.at
    ensures var s', b := PrioritySet(s, t, p), s.tcbs[t];
      Relisted(s, s', t, if b.base == p then b else
        b.(base := p, prio := if b.prio == b.base then p else b.prio, eventValue := Keyed(s, b.eventValue, p)))
      && (s'.owed <==> s.owed || (p > b.base && t != s.current && p >= Prio(s, s.current)) || (p < b.base && t == s.current))
  {
    hide UnreadyDirect, AddReady, Relisted;
    var b, s' := s.tcbs[t], PrioritySet(s, t, p);
    var tcb := b.(base := p, prio := if b.prio == b.base then p else b.prio, eventValue := Keyed(s, b.eventValue, p));
    var s1 := SetTcb(s, t, tcb);
    if b.base == p {
      assert SetTcb(s, t, b) == s by { assert s.tcbs[t := b] == s.tcbs; }
      RelistedSame(s, t, b);
    } else if InList(s, t, Ready(b.prio)) {
      DirectMoves(s1, t, b.prio);
      RelistedReady(s, UnreadyDirect(s1, t, b.prio), t, tcb);
      AddedOwed(UnreadyDirect(s1, t, b.prio), t);
      RelistedOwed(s, AddReady(UnreadyDirect(s1, t, b.prio), t), s', t, tcb);
    } else {
      RelistedSame(s, t, tcb);
      RelistedOwed(s, s1, s', t, tcb);
    }
  }

  lemma DirectMoves(s: Sched, t: Task, p: nat)
    ensures var s' := UnreadyDirect(s, t, p); s' == s.(state := s'.state, top := s'.top) && s'.state.at == s.state.at - {t}
    ensures var s' := Unready(s, t, p); s' == s.(state := s'.state, top := s'.top) && s'.state.at == s.state.at - {t}
  {
    hide Remove;
  }

  lemma InheritExact(s: Sched, t: Task)
    requires Inv(s) && Enabled(s, InheritPriority(t))
    ensures Exact(s, InheritPriority(t), Inherit(s, t))
  {
    hide Inv, Inherit, OnlyOne;
    Keys(s);
    InheritMoves(s, t);
    OneExact(s, InheritPriority(t), Inherit(s, t), t);
  }

  lemma InheritMoves(s: Sched, t: Task)
    requires t in s.tcbs && t in s.state.at
    ensures var s', b, p := Inherit(s, t), s.tcbs[t], Prio(s, s.current);
      Relisted(s, s', t, if b.prio >= p then b else b.(prio := p, eventValue := Keyed(s, b.eventValue, p))) && s'.owed == s.owed
  {
    hide Unready, AddReady, Relisted;
    var b, p := s.tcbs[t], Prio(s, s.current);
    var tcb := b.(prio := p, eventValue := Keyed(s, b.eventValue, p));
    if b.prio >= p {
      assert SetTcb(s, t, b) == s by { assert s.tcbs[t := b] == s.tcbs; }
      RelistedSame(s, t, b);
    } else if InList(s, t, Ready(b.prio)) {
      DirectMoves(s, t, b.prio);
      RelistedReady(s, SetTcb(Unready(s, t, b.prio), t, tcb), t, tcb);
      assert AddReady(SetTcb(Unready(s, t, b.prio), t, tcb), t).owed == s.owed by { AddedOwed(SetTcb(Unready(s, t, b.prio), t, tcb), t); }
    } else {
      RelistedSame(s, t, tcb);
    }
  }

  lemma AddedOwed(s: Sched, t: Task)
    ensures AddReady(s, t).owed == s.owed
  {
  }

  lemma TimeoutExact(s: Sched, t: Task, p: nat)
    requires Inv(s) && Enabled(s, MutexTimeout(t, p))
    ensures Exact(s, MutexTimeout(t, p), DisinheritAfterTimeout(s, t, p))
  {
    hide Inv, DisinheritAfterTimeout, OnlyOne;
    Keys(s);
    TimeoutMoves(s, t, p);
    OneExact(s, MutexTimeout(t, p), DisinheritAfterTimeout(s, t, p), t);
  }

  lemma TimeoutMoves(s: Sched, t: Task, p: nat)
    requires t in s.tcbs && t in s.state.at
    ensures var s', b, n := DisinheritAfterTimeout(s, t, p), s.tcbs[t], if s.tcbs[t].base < p then p else s.tcbs[t].base;
      Relisted(s, s', t, if b.held != 1 || b.prio == n then b else b.(prio := n, eventValue := Keyed(s, b.eventValue, n)))
      && s'.owed == s.owed
  {
    hide Unready, AddReady, Relisted;
    var b, n := s.tcbs[t], if s.tcbs[t].base < p then p else s.tcbs[t].base;
    var tcb := b.(prio := n, eventValue := Keyed(s, b.eventValue, n));
    if b.held != 1 || b.prio == n {
      assert SetTcb(s, t, b) == s by { assert s.tcbs[t := b] == s.tcbs; }
      RelistedSame(s, t, b);
    } else if InList(s, t, Ready(b.prio)) {
      var s1 := SetTcb(s, t, tcb);
      DirectMoves(s1, t, n);
      RelistedReady(s, Unready(s1, t, n), t, tcb);
      AddedOwed(Unready(s1, t, n), t);
    } else {
      RelistedSame(s, t, tcb);
    }
  }

  lemma GiveExact(s: Sched, q: nat)
    requires Inv(s) && Enabled(s, Step.GiveMutex(q))
    ensures Exact(s, Step.GiveMutex(q), Scheduler.GiveMutex(s, q))
  {
    hide Inv, Disinherit, WakeHead, OnlyOne, Relisted;
    Keys(s);
    var step, r := Step.GiveMutex(q), Disinherit(s);
    GivenMoves(s);
    var s' := Scheduler.GiveMutex(s, q);
    if InEvent(s, WaitList(q)) == [] {
      NobodyWaits(s, r, s', q);
    } else {
      HeadWaits(s, q);
      HeadTaken(s, r, q);
    }
  }

  lemma GivenMoves(s: Sched)
    requires s.current in s.tcbs && s.current in s.state.at && s.tcbs[s.current].held > 0
    requires IsReady(s, s.current)
    ensures var r, b := Disinherit(s), s.tcbs[s.current];
      Relisted(s, r.s, s.current, if b.held == 1 && b.prio != b.base then b.(held := 0, prio := b.base, eventValue := s.levels - b.base)
        else b.(held := b.held - 1)) && r.s.owed == s.owed && (r.switch <==> b.held == 1 && b.prio != b.base)
    ensures Disinherit(s).s.event == s.event
  {
    hide Unready, AddReady, Relisted;
    var t, b := s.current, s.tcbs[s.current];
    if b.prio == b.base || b.held > 1 {
      RelistedSame(s, t, b.(held := b.held - 1));
    } else {
      var tcb := b.(held := 0, prio := b.base, eventValue := s.levels - b.base);
      DirectMoves(s, t, b.prio);
      RelistedReady(s, SetTcb(Unready(s, t, b.prio), t, tcb), t, tcb);
      AddedOwed(SetTcb(Unready(s, t, b.prio), t, tcb), t);
      AddedEvent(SetTcb(Unready(s, t, b.prio), t, tcb), t);
    }
  }

  lemma AddedEvent(s: Sched, t: Task)
    ensures AddReady(s, t).event == s.event
  {
  }

  lemma NobodyWaits(s: Sched, r: Ticked, s': Sched, q: nat)
    requires s.current in s.tcbs && s.current in s.state.at && s.tcbs[s.current].held > 0 && IsReady(s, s.current)
    requires InEvent(s, WaitList(q)) == [] && s' == (if r.switch then r.s.(owed := true) else r.s)
    requires var b := s.tcbs[s.current];
      Relisted(s, r.s, s.current, if b.held == 1 && b.prio != b.base then b.(held := 0, prio := b.base, eventValue := s.levels - b.base)
        else b.(held := b.held - 1)) && r.s.owed == s.owed && (r.switch <==> b.held == 1 && b.prio != b.base)
    ensures Exact(s, Step.GiveMutex(q), s')
  {
    hide OnlyOne;
    SameOne(s, r.s, s', s.current);
    forall t ensures Seen(s', t) == After(s, Step.GiveMutex(q), t) {
      if t != s.current { CardKept(s, s', s.current, t); }
    }
  }

  lemma CardKept(s: Sched, s': Sched, x: Task, t: Task)
    requires OnlyOne(s, s', x) && t != x
    ensures Seen(s', t) == Seen(s, t)
  {
    assert T(s', t) == T(s, t);
  }

  lemma HeadTaken(s: Sched, r: Ticked, q: nat)
    requires s.current in s.tcbs && s.current in s.state.at && s.tcbs[s.current].held > 0 && IsReady(s, s.current)
    requires InEvent(s, WaitList(q)) != [] && InEvent(r.s, WaitList(q)) == InEvent(s, WaitList(q))
    requires var h := InEvent(s, WaitList(q))[0]; h in s.tcbs && h in s.state.at && h in s.event.at
    requires var b := s.tcbs[s.current];
      Relisted(s, r.s, s.current, if b.held == 1 && b.prio != b.base then b.(held := 0, prio := b.base, eventValue := s.levels - b.base)
        else b.(held := b.held - 1)) && r.s.owed == s.owed && (r.switch <==> b.held == 1 && b.prio != b.base)
    ensures Exact(s, Step.GiveMutex(q), WakeHead(r.s, q))
  {
    hide OnlyOne, WakeHead;
    var h, s' := InEvent(s, WaitList(q))[0], WakeHead(r.s, q);
    CalledMoves(r.s, q);
    assert Seen(r.s, s.current) == Given(s, Seen(s, s.current));
    if h != s.current { CardKept(s, r.s, s.current, h); }
    assert Seen(s', h) == Called(s, Seen(r.s, h));
    forall t ensures Seen(s', t) == After(s, Step.GiveMutex(q), t) {
      if t != h { CardKept(r.s, s', h, t); }
      if t != s.current { CardKept(s, r.s, s.current, t); }
    }
  }

  /** Every one of the 22 operations does to every task exactly what the reference says, and a switch is on its way
      afterwards exactly if the reference says so. */
  lemma StepExact(s: Sched, step: Step)
    requires Inv(s) && Enabled(s, step)
    ensures Exact(s, step, Apply(s, step))
  {
    assert s.current in s.tcbs && s.current in s.state.at by { Keys(s); }
    hide Inv, Exact;
    match step {
      case Tick => TickIsExact(s);
      case PendSv => SwitchExact(s);
      case SuspendScheduler => HaltExact(s);
      case ResumeScheduler => ResumeAllExact(s);
      case Yield => YieldExact(s);
      case Delay(n) => DelayExact(s, n);
      case WaitOrdered(q, n) => OrderedExact(s, q, n);
      case WaitUnordered(q, v, n) => UnorderedExact(s, q, v, n);
      case WakeFirst(q) => WakeFirstExact(s, q);
      case WakeOne(t, v) => WakeOneExact(s, t, v);
      case SuspendTask(t) => SuspendExact(s, t);
      case ResumeTask(t) => ResumeExact(s, t);
      case ResumeFromIsr(t) => ResumeIsrExact(s, t);
      case CreateTask(t, p) => CreateExact(s, t, p);
      case DeleteTask(t) => DeleteExact(s, t);
      case CleanUp => CleanUpExact(s);
      case SetPriority(t, p) => PriorityExact(s, t, p);
      case ResetItemValue => ResetExact(s);
      case TakeMutex => TakeExact(s);
      case GiveMutex(q) => GiveExact(s, q);
      case InheritPriority(t) => InheritExact(s, t);
      case MutexTimeout(t, p) => TimeoutExact(s, t, p);
    }
  }

  lemma Fate(s: Sched, step: Step, t: Task)
    requires Inv(s) && Enabled(s, step)
    ensures Seen(Apply(s, step), t) == After(s, step, t)
  {
    StepExact(s, step);
  }
}
