/** The queue lock of queue.c: how a task blocks on a queue while interrupts keep using it. They move items but
    leave the waiting lists alone, and count in cTxLock and cRxLock the wake-ups that unlocking is to give. */
module QueueLock {
  import opened ListModel

  type Task = nat

  /** queueUNLOCKED and queueLOCKED_UNMODIFIED. */
  const UNLOCKED: int := -1
  const LOCKED: int := 0

  /** int8_t, the type of the lock counts. */
  type Int8 = x: int | -128 <= x < 128

  function ToInt8(x: int): Int8 {
    var b := x % 256;
    if b < 128 then b else b - 256
  }

  /** One waiting list, the tasks woken from it that have not run since, and the lock count that
      stands for the wake-ups owed to it: cTxLock for receivers, cRxLock for senders. */
  datatype Side = Side(waiting: seq<Task>, woken: set<Task>, lock: Int8)

  /** Where the running task is in the blocking sequence. The scheduler is suspended in all but Idle. */
  datatype Phase =
    | Idle
    | Locked(t: Task, receiving: bool)    // scheduler suspended, queue locked
    | Checked(t: Task, receiving: bool)   // the second look found no item (no room): about to wait
    | UnlockTx                            // first critical section of prvUnlockQueue is next
    | UnlockRx                            // second critical section of prvUnlockQueue is next

  datatype Queue = Queue(length: nat, messages: nat, receivers: Side, senders: Side, phase: Phase)

  // ---- Operations on one side ----

  /** xTaskRemoveFromEventList, if the list is not empty. */
  function Rouse(s: Side): Side {
    if s.waiting == [] then s else s.(waiting := s.waiting[1..], woken := s.woken + {s.waiting[0]})
  }

  /** What an interrupt does after moving an item: wake a task, or count one owed. */
  function Signal(s: Side): Side {
    if s.lock == UNLOCKED then Rouse(s) else s.(lock := ToInt8(s.lock + 1))
  }

  function RouseMany(s: Side, n: int): Side
    decreases n
  {
    if n <= 0 || s.waiting == [] then s else RouseMany(Rouse(s), n - 1)
  }

  /** One half of prvUnlockQueue. */
  function Release(s: Side): Side { RouseMany(s, s.lock).(lock := UNLOCKED) }

  /** One half of prvLockQueue. */
  function Lock(s: Side): Side { if s.lock == UNLOCKED then s.(lock := LOCKED) else s }

  function Ran(s: Side, t: Task): Side { s.(woken := s.woken - {t}) }

  function Left(s: Side, t: Task): Side { s.(waiting := Without(s.waiting, t)) }

  function Join(s: Side, k: nat, t: Task): Side
    requires k <= |s.waiting|
  {
    s.(waiting := s.waiting[..k] + [t] + s.waiting[k..])
  }

  // ---- The steps ----

  datatype Step =
    | Send(t: Task, overwrite: bool)        // the critical section of xQueueGenericSend
    | Receive(t: Task, peek: bool)          // the critical section of xQueueReceive, xQueueSemaphoreTake, xQueuePeek
    | IsrSend(overwrite: bool)              // xQueueGenericSendFromISR, xQueueGiveFromISR
    | IsrReceive                            // xQueueReceiveFromISR
    | Block(t: Task, receiving: bool)       // vTaskSuspendAll and prvLockQueue
    | Look                                  // prvIsQueueEmpty or prvIsQueueFull
    | Expired                               // xTaskCheckForTimeOut says the block time is over
    | Place(k: nat)                         // vTaskPlaceOnEventList
    | Unlock                                // one critical section of prvUnlockQueue
    | TimeOut(t: Task)                      // a waiting task leaves: time-out, suspension or deletion
    | Stop(t: Task)                         // a woken task is suspended or deleted before it runs
    | Reset                                 // xQueueReset

  predicate Room(q: Queue, overwrite: bool) { q.messages < q.length || overwrite }

  /** The count after prvCopyDataToQueue. */
  function Posted(q: Queue, overwrite: bool): nat {
    if overwrite && q.messages > 0 then q.messages else q.messages + 1
  }

  predicate Idles(q: Queue, t: Task) {
    q.phase.Idle? && t !in q.receivers.waiting && t !in q.senders.waiting
  }

  predicate Woken(q: Queue, t: Task) { t in q.receivers.woken || t in q.senders.woken }

  predicate Enabled(q: Queue, step: Step) {
    match step
    case Send(t, overwrite) => Idles(q, t) && t !in q.receivers.woken && (overwrite ==> q.length == 1)
    case Receive(t, _) => Idles(q, t) && t !in q.senders.woken
    case IsrSend(overwrite) => overwrite ==> q.length == 1
    case IsrReceive => true
    case Block(t, _) => Idles(q, t) && !Woken(q, t)
    case Look => q.phase.Locked?
    case Expired => q.phase.Locked?
    case Place(k) =>
      q.phase.Checked? && k <= |if q.phase.receiving then q.receivers.waiting else q.senders.waiting|
    case Unlock => q.phase.UnlockTx? || q.phase.UnlockRx?
    case TimeOut(t) => q.phase.Idle? && (t in q.receivers.waiting || t in q.senders.waiting)
    case Stop(t) => q.phase.Idle? && Woken(q, t)
    case Reset => q.phase.Idle?
  }

  function Apply(q: Queue, step: Step): Queue
    requires Enabled(q, step)
  {
    match step
    case Send(t, overwrite) =>
      var q1 := q.(senders := Ran(q.senders, t));
      if Room(q, overwrite) then q1.(messages := Posted(q, overwrite), receivers := Rouse(q.receivers)) else q1
    case Receive(t, peek) =>
      var q1 := q.(receivers := Ran(q.receivers, t));
      if q.messages == 0 then q1
      else if peek then q1.(receivers := Rouse(q1.receivers))
      else q1.(messages := q.messages - 1, senders := Rouse(q.senders))
    case IsrSend(overwrite) =>
      if Room(q, overwrite) then q.(messages := Posted(q, overwrite), receivers := Signal(q.receivers)) else q
    case IsrReceive =>
      if q.messages > 0 then q.(messages := q.messages - 1, senders := Signal(q.senders)) else q
    case Block(t, receiving) =>
      q.(receivers := Lock(q.receivers), senders := Lock(q.senders), phase := Locked(t, receiving))
    case Look =>
      var nothing := if q.phase.receiving then q.messages == 0 else q.messages == q.length;
      q.(phase := if nothing then Checked(q.phase.t, q.phase.receiving) else UnlockTx)
    case Expired => q.(phase := UnlockTx)
    case Place(k) =>
      if q.phase.receiving then q.(receivers := Join(q.receivers, k, q.phase.t), phase := UnlockTx)
      else q.(senders := Join(q.senders, k, q.phase.t), phase := UnlockTx)
    case Unlock =>
      if q.phase.UnlockTx? then q.(receivers := Release(q.receivers), phase := UnlockRx)
      else q.(senders := Release(q.senders), phase := Idle)
    case TimeOut(t) => q.(receivers := Left(q.receivers, t), senders := Left(q.senders, t))
    case Stop(t) => q.(receivers := Ran(q.receivers, t), senders := Ran(q.senders, t))
    case Reset =>
      q.(messages := 0, receivers := q.receivers.(lock := UNLOCKED),
         senders := Rouse(q.senders).(lock := UNLOCKED))
  }

  // ---- The invariant ----

  function Owed(s: Side): nat { if s.lock > 0 then s.lock else 0 }

  /** Nobody waits for something there is unless as many wake-ups are on their way. */
  predicate Covered(s: Side, available: int) { s.waiting != [] ==> available <= |s.woken| + Owed(s) }

  predicate Sound(s: Side) {
    NoDup(s.waiting) && (forall t <- s.waiting :: t !in s.woken) && s.lock >= UNLOCKED
  }

  predicate Has(s: Side, t: Task) { t in s.waiting || t in s.woken }

  /** In which phases each lock count is held. */
  predicate LocksMatch(q: Queue) {
    && (q.receivers.lock == UNLOCKED <==> q.phase.Idle? || q.phase.UnlockRx?)
    && (q.senders.lock == UNLOCKED <==> q.phase.Idle?)
  }

  /** The second look is still right, or the interrupts since then are counted. */
  predicate Looked(q: Queue) {
    match q.phase
    case Locked(t, _) => !Has(q.receivers, t) && !Has(q.senders, t)
    case Checked(t, receiving) =>
      && !Has(q.receivers, t) && !Has(q.senders, t)
      && (if receiving then q.messages <= Owed(q.receivers) else q.length - q.messages <= Owed(q.senders))
    case _ => true
  }

  ghost predicate Inv(q: Queue) {
    && q.messages <= q.length && q.length > 0
    && Sound(q.receivers) && Sound(q.senders)
    && (forall t :: Has(q.receivers, t) ==> !Has(q.senders, t))
    && LocksMatch(q) && Looked(q)
    && Covered(q.receivers, q.messages)
    && Covered(q.senders, q.length - q.messages)
  }

  /** The lock count is an int8_t: the 128th post of one lock turns it negative (queue.c:1058, 1825). */
  predicate Wraps(q: Queue, step: Step) {
    match step
    case IsrSend(overwrite) => Room(q, overwrite) && q.receivers.lock == 127
    case IsrReceive => q.messages > 0 && q.senders.lock == 127
    case _ => false
  }

  /** A wake-up is lost with the task it was given to, or was never given: xQueueReset frees every
      slot but wakes one sender (queue.c:270-272). */
  predicate Loses(q: Queue, step: Step) {
    match step
    case Stop(t) =>
      || (t in q.receivers.woken && q.receivers.waiting != [] && q.messages == |q.receivers.woken|)
      || (t in q.senders.woken && q.senders.waiting != [] && q.length - q.messages == |q.senders.woken|)
    case Reset => |q.senders.waiting| > 1 && q.length > |q.senders.woken| + 1
    case _ => false
  }

  // ---- Each side ----

  lemma RouseSound(s: Side, a: int)
    requires Sound(s) && Covered(s, a)
    ensures var r := Rouse(s);
      Sound(r) && Covered(r, a + 1) && r.lock == s.lock && (forall t :: Has(r, t) <==> Has(s, t))
    ensures s.waiting != [] ==> |Rouse(s).woken| == |s.woken| + 1
  {
    if s.waiting != [] {
      var w := s.waiting;
      assert w == [w[0]] + w[1..];
      forall i, j | 0 <= i < j < |w[1..]| ensures w[1..][i] != w[1..][j] { assert w[i + 1] != w[j + 1]; }
      forall t | t in w[1..] ensures t != w[0] {}
    }
  }

  lemma SignalSound(s: Side, a: int)
    requires Sound(s) && Covered(s, a) && s.lock < 127
    ensures Sound(Signal(s)) && Covered(Signal(s), a + 1) && (forall t :: Has(Signal(s), t) <==> Has(s, t))
    ensures s.lock != UNLOCKED ==> Signal(s).lock == s.lock + 1
    ensures s.lock == UNLOCKED ==> Signal(s).lock == s.lock
  {
    RouseSound(s, a);
  }

  lemma {:induction false} RouseManySound(s: Side, n: int, a: int)
    requires Sound(s) && (s.waiting != [] ==> a <= |s.woken| + n)
    ensures var r := RouseMany(s, n);
      Sound(r) && (r.waiting != [] ==> a <= |r.woken| + if n < 0 then n else 0)
      && (forall t :: Has(r, t) <==> Has(s, t))
    decreases n
  {
    if n > 0 && s.waiting != [] {
      RouseSound(s, |s.woken|);
      RouseManySound(Rouse(s), n - 1, a);
    }
  }

  lemma ReleaseSound(s: Side, a: int)
    requires Sound(s) && Covered(s, a)
    ensures Sound(Release(s)) && Covered(Release(s), a) && Release(s).lock == UNLOCKED
    ensures forall t :: Has(Release(s), t) <==> Has(s, t)
  {
    RouseManySound(s, if s.lock < 0 then 0 else s.lock, a);
    if s.lock < 0 { assert RouseMany(s, s.lock) == s; }
    var r := RouseMany(s, s.lock);
    assert forall t :: Has(Release(s), t) <==> Has(r, t);
  }

  lemma RanSound(s: Side, t: Task, a: int)
    requires Sound(s) && Covered(s, a)
    ensures Sound(Ran(s, t)) && Covered(Ran(s, t), if t in s.woken then a - 1 else a)
    ensures forall x :: Has(Ran(s, t), x) ==> Has(s, x)
    ensures Ran(s, t).lock == s.lock && Ran(s, t).waiting == s.waiting
    ensures t in s.woken ==> |Ran(s, t).woken| == |s.woken| - 1
  {
    if t !in s.woken { assert s.woken - {t} == s.woken; }
  }

  lemma LockSound(s: Side, a: int)
    requires Sound(s) && Covered(s, a)
    ensures Sound(Lock(s)) && Covered(Lock(s), a) && Lock(s).lock >= LOCKED
    ensures forall t :: Has(Lock(s), t) <==> Has(s, t)
  {
  }

  lemma LeftSound(s: Side, t: Task, a: int)
    requires Sound(s) && Covered(s, a)
    ensures Sound(Left(s, t)) && Covered(Left(s, t), a)
    ensures Left(s, t).lock == s.lock && forall x :: Has(Left(s, t), x) ==> Has(s, x)
  {
    WithoutItems(s.waiting, t);
    if s.waiting == [] { assert Left(s, t).waiting == []; }
  }

  lemma JoinSound(s: Side, k: nat, t: Task)
    requires Sound(s) && !Has(s, t) && k <= |s.waiting|
    ensures Sound(Join(s, k, t)) && Join(s, k, t).lock == s.lock && Join(s, k, t).woken == s.woken
    ensures forall x :: Has(Join(s, k, t), x) <==> Has(s, x) || x == t
  {
    var w, j := s.waiting, Join(s, k, t).waiting;
    forall x ensures x in j <==> x in w || x == t {
      assert w == w[..k] + w[k..];
    }
    forall a, b | 0 <= a < b < |j| ensures j[a] != j[b] {
      assert a != k ==> j[a] == w[if a < k then a else a - 1];
      assert b != k ==> j[b] == w[if b < k then b else b - 1];
    }
  }

  // ---- Every step ----

  /** Each step keeps the invariant, except exactly those that wrap a count or lose a wake-up. */
  lemma StepKept(q: Queue, step: Step)
    requires Inv(q) && Enabled(q, step)
    ensures Inv(Apply(q, step)) <==> !Wraps(q, step) && !Loses(q, step)
  {
    hide Rouse, Release, Ran, Left, Join, Signal, NoDup;
    var r, s, m: int, free: int := q.receivers, q.senders, q.messages, q.length - q.messages;
    match step {
      case Send(t, _) => RanSound(s, t, free); RouseSound(r, m);
      case Receive(t, peek) =>
        RanSound(r, t, m);
        if t in r.woken { RouseSound(Ran(r, t), m - 1); } else { RouseSound(Ran(r, t), m); }
        RouseSound(s, free);
      case IsrSend(_) => SendFromIsrKept(q, step);
      case IsrReceive => ReceiveFromIsrKept(q, step);
      case Block(_, _) => LockSound(r, m); LockSound(s, free);
      case Look => {}
      case Expired => {}
      case Place(k) => JoinSound(if q.phase.receiving then r else s, k, q.phase.t);
      case Unlock => ReleaseSound(r, m); ReleaseSound(s, free);
      case TimeOut(t) => LeftSound(r, t, m); LeftSound(s, t, free);
      case Stop(t) => RanSound(r, t, m); RanSound(s, t, free);
      case Reset => ResetKept(q);
    }
  }

  lemma SendFromIsrKept(q: Queue, step: Step)
    requires Inv(q) && Enabled(q, step) && step.IsrSend?
    ensures Inv(Apply(q, step)) <==> !Wraps(q, step)
  {
    hide Rouse;
    if Room(q, step.overwrite) {
      if q.receivers.lock < 127 {
        hide Signal;
        SignalSound(q.receivers, q.messages);
      }
    }
  }

  lemma ReceiveFromIsrKept(q: Queue, step: Step)
    requires Inv(q) && Enabled(q, step) && step.IsrReceive?
    ensures Inv(Apply(q, step)) <==> !Wraps(q, step)
  {
    hide Rouse;
    if q.messages > 0 {
      if q.senders.lock < 127 {
        hide Signal;
        SignalSound(q.senders, q.length - q.messages);
      }
    }
  }

  lemma ResetKept(q: Queue)
    requires Inv(q) && q.phase.Idle?
    ensures Inv(Apply(q, Reset)) <==> !Loses(q, Reset)
  {
    var s, s' := q.senders, Apply(q, Reset).senders;
    RouseSound(s, q.length - q.messages);
    assert s' == Rouse(s).(lock := UNLOCKED);
    assert forall t :: Has(s', t) <==> Has(s, t) by {
      assert forall t :: Has(s', t) <==> Has(Rouse(s), t);
    }
    assert forall t :: Has(Apply(q, Reset).receivers, t) <==> Has(q.receivers, t);
  }

  // ---- Runs ----

  predicate Legal(q: Queue, steps: seq<Step>)
    decreases |steps|
  {
    steps == [] || (Enabled(q, steps[0]) && Legal(Apply(q, steps[0]), steps[1..]))
  }

  function Exec(q: Queue, steps: seq<Step>): Queue
    requires Legal(q, steps)
    decreases |steps|
  {
    if steps == [] then q else Exec(Apply(q, steps[0]), steps[1..])
  }

  /** In no step is a woken task suspended or deleted, or the queue reset, so that a wake-up is lost. */
  predicate NoneLost(q: Queue, steps: seq<Step>)
    requires Legal(q, steps)
    decreases |steps|
  {
    steps == [] || (!Loses(q, steps[0]) && NoneLost(Apply(q, steps[0]), steps[1..]))
  }

  /** In no step does a lock count wrap. */
  predicate NoneWraps(q: Queue, steps: seq<Step>)
    requires Legal(q, steps)
    decreases |steps|
  {
    steps == [] || (!Wraps(q, steps[0]) && NoneWraps(Apply(q, steps[0]), steps[1..]))
  }

  /** The invariant holds in every state of the run. */
  ghost predicate Throughout(q: Queue, steps: seq<Step>)
    requires Legal(q, steps)
    decreases |steps|
  {
    Inv(q) && (steps == [] || Throughout(Apply(q, steps[0]), steps[1..]))
  }

  /** A run keeps the invariant throughout exactly if no step of it wraps a count or loses a wake-up. */
  lemma {:induction false} RunKept(q: Queue, steps: seq<Step>)
    requires Inv(q) && Legal(q, steps)
    ensures Throughout(q, steps) <==> NoneWraps(q, steps) && NoneLost(q, steps)
    ensures NoneWraps(q, steps) && NoneLost(q, steps) ==> Inv(Exec(q, steps))
    decreases |steps|
  {
    hide Inv, Enabled, Apply, Wraps, Loses;
    if steps != [] {
      var q' := Apply(q, steps[0]);
      StepKept(q, steps[0]);
      if Inv(q') { RunKept(q', steps[1..]); }
    }
  }

  function Created(length: nat): Queue {
    Queue(length, 0, Side([], {}, UNLOCKED), Side([], {}, UNLOCKED), Idle)
  }

  /** If a task waits to receive then the items are no more than the receivers woken and still to run and
      the wake-ups the lock still owes; so a queue at rest with a waiting receiver is empty. The same
      holds of senders and free slots. */
  predicate NobodyForgotten(q: Queue) {
    && (q.receivers.waiting != [] ==> q.messages <= |q.receivers.woken| + Owed(q.receivers))
    && (q.senders.waiting != [] ==> q.length - q.messages <= |q.senders.woken| + Owed(q.senders))
    && (q.phase.Idle? && q.receivers.woken == {} && q.receivers.waiting != [] ==> q.messages == 0)
    && (q.phase.Idle? && q.senders.woken == {} && q.senders.waiting != [] ==> q.messages == q.length)
  }

  /** No lost wake-up, after any run from creation in which no count wraps and no wake-up is lost. */
  lemma NoLostWakeUp(length: nat, steps: seq<Step>)
    requires length > 0 && Legal(Created(length), steps)
    requires NoneWraps(Created(length), steps) && NoneLost(Created(length), steps)
    ensures NobodyForgotten(Exec(Created(length), steps))
  {
    RunKept(Created(length), steps);
  }

  // ---- Few interrupts to a lock ----

  /** The posts and the removals by interrupts since the queue was locked, after one more step: 0 of each
      while it is not locked. */
  function Counted(q: Queue, step: Step, sends: nat, receives: nat): (nat, nat)
    requires Enabled(q, step)
  {
    if Apply(q, step).phase.Idle? then (0, 0)
    else (if step.IsrSend? then sends + 1 else sends, if step.IsrReceive? then receives + 1 else receives)
  }

  /** Interrupts post at most 127 times, and remove at most 127 times, while the queue is locked once; they
      have done so this often since it was locked last. */
  predicate FewInterrupts(q: Queue, steps: seq<Step>, sends: nat, receives: nat)
    requires Legal(q, steps)
    decreases |steps|
  {
    sends <= 127 && receives <= 127 && (steps == [] ||
      var c := Counted(q, steps[0], sends, receives);
      FewInterrupts(Apply(q, steps[0]), steps[1..], c.0, c.1))
  }

  /** Neither lock count runs ahead of the interrupts there have been. */
  lemma OwedGrows(q: Queue, step: Step, sends: nat, receives: nat)
    requires Inv(q) && Enabled(q, step) && Owed(q.receivers) <= sends && Owed(q.senders) <= receives
    requires Inv(Apply(q, step))
    ensures var q', c := Apply(q, step), Counted(q, step, sends, receives);
      Owed(q'.receivers) <= c.0 && Owed(q'.senders) <= c.1
  {
  }

  lemma {:induction false} FewNeverWrap(q: Queue, steps: seq<Step>, sends: nat, receives: nat)
    requires Inv(q) && Owed(q.receivers) <= sends && Owed(q.senders) <= receives
    requires Legal(q, steps) && NoneLost(q, steps) && FewInterrupts(q, steps, sends, receives)
    ensures NoneWraps(q, steps)
    decreases |steps|
  {
    hide Inv, Enabled, Apply, Loses, Counted;
    if steps != [] {
      var step, c := steps[0], Counted(q, steps[0], sends, receives);
      FewNotWrapped(q, step, sends, receives);
      StepKept(q, step);
      OwedGrows(q, step, sends, receives);
      FewNeverWrap(Apply(q, step), steps[1..], c.0, c.1);
    }
  }

  lemma FewNotWrapped(q: Queue, step: Step, sends: nat, receives: nat)
    requires Inv(q) && Enabled(q, step) && Owed(q.receivers) <= sends && Owed(q.senders) <= receives
    requires var c := Counted(q, step, sends, receives); c.0 <= 127 && c.1 <= 127
    ensures !Wraps(q, step)
  {
  }

  /** What a caller can see to: with at most 127 posts and 127 removals by interrupts to each lock, a wake-up
      is lost only with a woken task that is stopped, or at a reset. */
  lemma FewInterruptsSuffice(length: nat, steps: seq<Step>)
    requires length > 0 && Legal(Created(length), steps)
    requires FewInterrupts(Created(length), steps, 0, 0) && NoneLost(Created(length), steps)
    ensures NobodyForgotten(Exec(Created(length), steps))
  {
    FewNeverWrap(Created(length), steps, 0, 0);
    NoLostWakeUp(length, steps);
  }

  // ---- The 128th interrupt ----

  function Overwrites(n: nat): (steps: seq<Step>)
    ensures |steps| == n && forall step <- steps :: step == IsrSend(true)
  {
    seq(n, _ => IsrSend(true))
  }

  lemma {:induction false} Counting(q: Queue, n: nat)
    requires q.length == 1 && 0 <= q.receivers.lock && q.receivers.lock + n <= 128
    ensures Legal(q, Overwrites(n))
    ensures n > 0 ==> Exec(q, Overwrites(n)) == q.(messages := if q.messages > 0 then q.messages else 1,
      receivers := q.receivers.(lock := ToInt8(q.receivers.lock + n)))
    decreases n
  {
    if n > 0 {
      var q' := Apply(q, IsrSend(true));
      assert Overwrites(n)[1..] == Overwrites(n - 1);
      if n > 1 {
        Counting(q', n - 1);
      } else {
        assert Overwrites(0) == [];
      }
    }
  }

  lemma {:induction false} ExecAppend(q: Queue, a: seq<Step>, b: seq<Step>)
    requires Legal(q, a) && Legal(Exec(q, a), b)
    ensures Legal(q, a + b) && Exec(q, a + b) == Exec(Exec(q, a), b)
    decreases |a|
  {
    if a == [] {
      assert a + b == b;
    } else {
      assert (a + b)[1..] == a[1..] + b;
      ExecAppend(Apply(q, a[0]), a[1..], b);
    }
  }

  lemma ExecOne(q: Queue, a: Step)
    requires Enabled(q, a)
    ensures Legal(q, [a]) && Exec(q, [a]) == Apply(q, a)
  {
    assert [a][1..] == [];
  }

  lemma ExecTwo(q: Queue, a: Step, b: Step)
    requires Enabled(q, a) && Enabled(Apply(q, a), b)
    ensures Legal(q, [a, b]) && Exec(q, [a, b]) == Apply(Apply(q, a), b)
  {
    ExecOne(Apply(q, a), b);
    assert [a, b][1..] == [b];
  }

  /** No woken task is suspended or deleted, and the queue is never reset. */
  predicate Undisturbed(steps: seq<Step>) { forall step <- steps :: !step.Stop? && !step.Reset? }

  lemma {:induction false} UndisturbedLosesNone(q: Queue, steps: seq<Step>)
    requires Legal(q, steps) && Undisturbed(steps)
    ensures NoneLost(q, steps)
    decreases |steps|
  {
    if steps != [] {
      assert steps[0] in steps;
      assert !Loses(q, steps[0]);
      hide Enabled, Apply, Loses;
      UndisturbedLosesNone(Apply(q, steps[0]), steps[1..]);
    }
  }

  /** With 128 interrupts in one lock the wake-ups are lost: a queue of one item with a receiver that
      found it empty ends at rest, unlocked, full, nobody woken, and the receiver still waiting. */
  lemma LostWakeUp(t: Task) returns (steps: seq<Step>)
    ensures Legal(Created(1), steps) && Undisturbed(steps) && NoneLost(Created(1), steps) && |steps| == 133
    ensures Exec(Created(1), steps) == Created(1).(messages := 1, receivers := Side([t], {}, UNLOCKED))
  {
    hide Exec, Legal, Overwrites;
    var q1 := Apply(Apply(Created(1), Block(t, true)), Look);
    ExecTwo(Created(1), Block(t, true), Look);
    Counting(q1, 128);
    var q2 := Exec(q1, Overwrites(128));
    assert ToInt8(128) == -128;
    var q4 := Apply(Apply(q2, Place(0)), Unlock);
    ExecTwo(q2, Place(0), Unlock);
    ExecOne(q4, Unlock);
    var before, after := [Block(t, true), Look], [Place(0), Unlock];
    ExecAppend(q2, after, [Unlock]);
    ExecAppend(q1, Overwrites(128), after + [Unlock]);
    ExecAppend(Created(1), before, Overwrites(128) + (after + [Unlock]));
    steps := before + (Overwrites(128) + (after + [Unlock]));
    UndisturbedLosesNone(Created(1), steps);
  }

  // ---- A task woken in vain, and a reset ----

  lemma More(q: Queue, steps: seq<Step>, step: Step) returns (more: seq<Step>)
    requires Legal(q, steps) && Enabled(Exec(q, steps), step)
    ensures Legal(q, more) && Exec(q, more) == Apply(Exec(q, steps), step) && more == steps + [step]
  {
    more := steps + [step];
    ExecOne(Exec(q, steps), step);
    ExecAppend(q, steps, [step]);
  }

  /** A task finds no item, or no room, and waits behind those that wait already. */
  lemma WaitsFor(q: Queue, steps: seq<Step>, t: Task, receiving: bool) returns (more: seq<Step>)
    requires Legal(q, steps)
    requires var e := Exec(q, steps);
      && Idles(e, t) && !Woken(e, t) && e.messages == (if receiving then 0 else e.length)
      && e.receivers.lock == UNLOCKED && e.senders.lock == UNLOCKED
    ensures Legal(q, more)
    ensures var e := Exec(q, steps);
      Exec(q, more) == if receiving then e.(receivers := e.receivers.(waiting := e.receivers.waiting + [t]))
                       else e.(senders := e.senders.(waiting := e.senders.waiting + [t]))
  {
    var e := Exec(q, steps);
    hide Legal, Exec;
    more := More(q, steps, Block(t, receiving));
    more := More(q, more, Look);
    more := More(q, more, Place(|if receiving then e.receivers.waiting else e.senders.waiting|));
    more := More(q, more, Unlock);
    more := More(q, more, Unlock);
  }

  /** Two receivers wait at an empty queue; an item comes, and the receiver it wakes is suspended or deleted
      before it runs. The queue is then at rest, not empty, nobody woken, and the other still waiting. */
  lemma StopLosesWakeUp(a: Task, b: Task) returns (steps: seq<Step>)
    requires a != b
    ensures Legal(Created(2), steps)
    ensures Exec(Created(2), steps) == Created(2).(messages := 1, receivers := Side([b], {}, UNLOCKED))
  {
    var q := Created(2);
    steps := [];
    assert Legal(q, steps) && Exec(q, steps) == q;
    hide Legal, Exec;
    steps := WaitsFor(q, steps, a, true);
    steps := WaitsFor(q, steps, b, true);
    assert [] + [a] == [a] && [a] + [b] == [a, b];
    assert Exec(q, steps).receivers == Side([a, b], {}, UNLOCKED);
    steps := More(q, steps, IsrSend(false));
    assert Exec(q, steps).receivers == Side([b], {a}, UNLOCKED);
    steps := More(q, steps, Stop(a));
    assert {a} - {a} == {};
  }

  /** Two senders wait for room in a full queue of two; a reset empties it and wakes the first, which sends
      its item. The queue is then at rest, with room, nobody woken, and the second sender still waiting. */
  lemma ResetLosesWakeUp(a: Task, b: Task) returns (steps: seq<Step>)
    requires a != b
    ensures Legal(Created(2), steps)
    ensures Exec(Created(2), steps) == Created(2).(messages := 1, senders := Side([b], {}, UNLOCKED))
  {
    var q := Created(2);
    steps := [];
    assert Legal(q, steps) && Exec(q, steps) == q;
    hide Legal, Exec;
    steps := More(q, steps, IsrSend(false));
    steps := More(q, steps, IsrSend(false));
    steps := WaitsFor(q, steps, a, false);
    steps := WaitsFor(q, steps, b, false);
    assert [] + [a] == [a] && [a] + [b] == [a, b];
    assert Exec(q, steps).senders == Side([a, b], {}, UNLOCKED);
    steps := More(q, steps, Reset);
    assert Exec(q, steps).senders == Side([b], {a}, UNLOCKED);
    steps := More(q, steps, Send(a, false));
    assert {a} - {a} == {};
  }
}
