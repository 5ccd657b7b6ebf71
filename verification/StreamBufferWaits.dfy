/** How the two users of a stream or message buffer wait for each other (stream_buffer.c), each by leaving its
    handle in the buffer and waiting for a task notification. */
module StreamBufferWaits {
  import opened StreamBuffer

  /** ucNotifyState of a task. */
  datatype Notice = Nothing | Awaited | Arrived

  /** xStreamBufferSend: how many bytes it is to send, and its xSpace. */
  datatype Sender =
    | Outside
    | Testing(size: nat)                       // about to test for space
    | Preparing(size: nat, space: nat)         // the handle is in place, xTaskNotifyWait is next
    | Blocked(size: nat, space: nat)           // in xTaskNotifyWait
    | Woken(size: nat, space: nat)             // back from it
    | Counting(size: nat, space: nat)          // about to count the space again if it is 0
    | Writing(size: nat, space: nat)           // in prvWriteMessageToBuffer
    | HalfWritten(size: nat)                   // the length of the message is published
    | Written                                  // everything is: the trigger level is next
    | Telling                                  // sbSEND_COMPLETED is next

  /** xStreamBufferReceive: the room of its caller, and its xBytesAvailable. */
  datatype Receiver =
    | Away
    | GettingReady(room: nat)                  // the handle is in place, xTaskNotifyWait is next
    | Asleep(room: nat)                        // in xTaskNotifyWait
    | Returned(room: nat)                      // back from it
    | Looking(room: nat)                       // about to recheck the bytes available
    | Reading(room: nat, available: nat)       // in prvReadMessageFromBuffer
    | HalfRead(room: nat)                      // the length of the message is taken
    | Taken                                    // sbRECEIVE_COMPLETED is next

  datatype State = State(
    framed: bool,                  // sbFLAGS_IS_MESSAGE_BUFFER
    length: nat,                   // xLength
    trigger: nat,                  // xTriggerLevelBytes
    used: nat,                     // bytes xHead has passed and xTail has not
    sizes: seq<nat>,               // of the whole messages in a message buffer
    toSend: bool,                  // xTaskWaitingToSend != NULL
    toReceive: bool,               // xTaskWaitingToReceive != NULL
    sender: Sender, senderNotice: Notice,
    receiver: Receiver, receiverNotice: Notice
  )

  datatype Step =
    | Send(size: nat, wait: bool)
    | TestSpace
    | SenderWaits
    | SenderReturns                // notified, or out of time
    | SenderGoesOn(expired: bool)
    | CountAgain
    | Write
    | WriteRest
    | TestTrigger
    | TellReceiver
    | Receive(room: nat, wait: bool)
    | ReceiverWaits
    | ReceiverReturns
    | ReceiverGoesOn
    | LookAgain
    | Read
    | ReadRest
    | TellSender
    | NotifySender                 // by somebody else, for reasons of their own
    | NotifyReceiver
    | SetTrigger(level: nat)

  function Header(s: State): nat { if s.framed then HEADER else 0 }

  /** xRequiredSpace. */
  function Need(s: State, size: nat): nat { Header(s) + size }

  /** prvBytesInBuffer: after a roll-back that overran the sender the indices have passed each other. */
  function Seen(s: State): nat { Wrap(s.used, s.length) }

  /** xStreamBufferSpacesAvailable. */
  function Free(s: State): int { s.length - 1 - Seen(s) }

  function Least(a: nat, b: nat): nat { if a < b then a else b }

  /** xTaskNotifyStateClear. */
  function Cleared(n: Notice): Notice { if n.Arrived? then Nothing else n }

  predicate Enabled(s: State, step: Step) {
    match step
    case Send(size, _) => s.sender.Outside? && size > 0
    case TestSpace => s.sender.Testing?
    case SenderWaits => s.sender.Preparing?
    case SenderReturns => s.sender.Blocked?
    case SenderGoesOn(_) => s.sender.Woken?
    case CountAgain => s.sender.Counting?
    case Write => s.sender.Writing?
    case WriteRest => s.sender.HalfWritten?
    case TestTrigger => s.sender.Written?
    case TellReceiver => s.sender.Telling?
    case Receive(_, _) => s.receiver.Away?
    case ReceiverWaits => s.receiver.GettingReady?
    case ReceiverReturns => s.receiver.Asleep?
    case ReceiverGoesOn => s.receiver.Returned?
    case LookAgain => s.receiver.Looking?
    case Read => s.receiver.Reading?
    case ReadRest => s.receiver.HalfRead?
    case TellSender => s.receiver.Taken?
    case NotifySender => true
    case NotifyReceiver => true
    case SetTrigger(_) => true
  }

  function Apply(s: State, step: Step): State
    requires Enabled(s, step)
  {
    match step
    case Send(size, wait) => s.(sender := if wait then Testing(size) else Counting(size, 0))
    case TestSpace =>
      var size, space := s.sender.size, if Free(s) > 0 then Free(s) else 0;
      if space < Need(s, size) then
        s.(sender := Preparing(size, space), senderNotice := Cleared(s.senderNotice), toSend := true)
      else s.(sender := Counting(size, space))
    case SenderWaits =>
      s.(sender := Blocked(s.sender.size, s.sender.space),
         senderNotice := if s.senderNotice.Arrived? then Arrived else Awaited)
    case SenderReturns => s.(sender := Woken(s.sender.size, s.sender.space), senderNotice := Nothing)
    case SenderGoesOn(expired) =>
      s.(toSend := false,
         sender := if expired then Counting(s.sender.size, s.sender.space) else Testing(s.sender.size))
    case CountAgain =>
      s.(sender := Writing(s.sender.size, if s.sender.space == 0 && Free(s) > 0 then Free(s) else s.sender.space))
    case Write =>
      var size, space := s.sender.size, s.sender.space;
      if space == 0 then s.(sender := Outside)
      else if !s.framed then s.(sender := Written, used := s.used + Least(size, space))
      else if space >= Need(s, size) then s.(sender := HalfWritten(size), used := s.used + HEADER)
      else s.(sender := Outside)
    case WriteRest => s.(sender := Written, used := s.used + s.sender.size, sizes := s.sizes + [s.sender.size])
    case TestTrigger => s.(sender := if Seen(s) >= s.trigger then Telling else Outside)
    case TellReceiver =>
      if s.toReceive then s.(sender := Outside, receiverNotice := Arrived, toReceive := false)
      else s.(sender := Outside)
    case Receive(room, wait) =>
      if Seen(s) > Header(s) then s.(receiver := Reading(room, Seen(s)))
      else if wait then
        s.(receiver := GettingReady(room), receiverNotice := Cleared(s.receiverNotice), toReceive := true)
      else s
    case ReceiverWaits =>
      s.(receiver := Asleep(s.receiver.room), receiverNotice := if s.receiverNotice.Arrived? then Arrived else Awaited)
    case ReceiverReturns => s.(receiver := Returned(s.receiver.room), receiverNotice := Nothing)
    case ReceiverGoesOn => s.(toReceive := false, receiver := Looking(s.receiver.room))
    case LookAgain =>
      s.(receiver := if Seen(s) > Header(s) then Reading(s.receiver.room, Seen(s)) else Away)
    case Read =>
      if s.framed then s.(receiver := HalfRead(s.receiver.room), used := Less(s.used, HEADER))
      else
        var n := Least(s.receiver.room, s.receiver.available);
        if n == 0 then s.(receiver := Away) else s.(receiver := Taken, used := Less(s.used, n))
    case ReadRest =>
      if s.sizes == [] || s.sizes[0] > s.receiver.room then s.(receiver := Away, used := s.used + HEADER)
      else s.(receiver := Taken, used := Less(s.used, s.sizes[0]), sizes := s.sizes[1..])
    case TellSender =>
      if s.toSend then s.(receiver := Away, senderNotice := Arrived, toSend := false) else s.(receiver := Away)
    case NotifySender => s.(senderNotice := Arrived)
    case NotifyReceiver => s.(receiverNotice := Arrived)
    case SetTrigger(level) =>
      var l := if level == 0 then 1 else level;
      if l <= s.length then s.(trigger := l) else s
  }

  function Less(a: nat, b: nat): nat { if b <= a then a - b else 0 }

  // ---- The invariant ----

  /** The bytes of the whole messages. */
  function Total(sizes: seq<nat>): nat { if sizes == [] then 0 else HEADER + sizes[0] + Total(sizes[1..]) }

  /** The bytes a send in progress may still write. */
  function Reserved(s: State): nat {
    match s.sender
    case HalfWritten(size) => size
    case Outside => 0
    case Testing(_) => 0
    case Written => 0
    case Telling => 0
    case w => if !s.framed then Least(w.size, w.space) else if w.space >= Need(s, w.size) then Need(s, w.size) else 0
  }

  predicate Fits(s: State) {
    && 0 < s.trigger <= s.length && s.used + Reserved(s) < s.length
    && (!s.sender.Outside? && !s.sender.Written? && !s.sender.Telling? ==> s.sender.size > 0)
  }

  ghost predicate Framed(s: State) {
    if s.framed then
      && s.used + (if s.receiver.HalfRead? then HEADER else 0)
         == Total(s.sizes) + (if s.sender.HalfWritten? then HEADER else 0)
      && (forall n <- s.sizes :: n > 0) && (s.receiver.HalfRead? ==> s.sizes != [])
    else s.sizes == [] && !s.receiver.HalfRead? && !s.sender.HalfWritten?
  }

  predicate Handles(s: State) {
    && (s.toReceive ==> s.receiver.GettingReady? || s.receiver.Asleep? || s.receiver.Returned?)
    && (s.toSend ==> s.sender.Preparing? || s.sender.Blocked? || s.sender.Woken?)
    && (s.receiver.Asleep? ==> !s.receiverNotice.Nothing?) && (s.sender.Blocked? ==> !s.senderNotice.Nothing?)
    && (s.receiver.Reading? ==> Header(s) < s.receiver.available <= s.used)
  }

  /** The receiver waits, and no notification has reached it yet. */
  predicate ReceiverHangs(s: State) {
    (s.receiver.GettingReady? || s.receiver.Asleep?) && !s.receiverNotice.Arrived?
  }

  predicate SenderHangs(s: State) { (s.sender.Preparing? || s.sender.Blocked?) && !s.senderNotice.Arrived? }

  /** Then there is nothing for it to read, or less than the trigger level, or the sender is on its way to
      tell it. */
  predicate ReceiverSafe(s: State) {
    ReceiverHangs(s) ==>
      s.toReceive
      && (s.used <= Header(s) || s.used < s.trigger || s.sender.HalfWritten? || s.sender.Written? || s.sender.Telling?)
  }

  predicate SenderSafe(s: State) {
    SenderHangs(s) ==>
      s.toSend
      && (s.length - 1 - (s.used + if s.receiver.HalfRead? then HEADER else 0) < Need(s, s.sender.size)
          || s.receiver.Taken?)
  }

  ghost predicate Inv(s: State) { Fits(s) && Framed(s) && Handles(s) && ReceiverSafe(s) && SenderSafe(s) }

  /** The message is too long for the receiver and xTail goes back over bytes the sender counts on. */
  predicate Overruns(s: State, step: Step) {
    step.ReadRest? && s.receiver.HalfRead? && s.sizes != [] && s.sizes[0] > s.receiver.room
    && s.used + HEADER + Reserved(s) >= s.length
  }

  /** The trigger level is lowered to what the buffer holds while the receiver waits for more, and nobody
      tells it. */
  predicate LeavesAsleep(s: State, step: Step) {
    step.SetTrigger? && ReceiverHangs(s) && s.used > Header(s) && step.level <= s.used
    && !s.sender.HalfWritten? && !s.sender.Written? && !s.sender.Telling?
  }

  lemma {:induction false} TotalAdd(sizes: seq<nat>, n: nat)
    ensures Total(sizes + [n]) == Total(sizes) + HEADER + n
  {
    if sizes != [] {
      TotalAdd(sizes[1..], n);
      assert (sizes + [n])[1..] == sizes[1..] + [n];
    }
  }

  /** A step of the sender's own call. */
  predicate OfSender(step: Step) {
    step.Send? || step.TestSpace? || step.SenderWaits? || step.SenderReturns? || step.SenderGoesOn?
    || step.CountAgain? || step.Write? || step.WriteRest? || step.TestTrigger? || step.TellReceiver?
  }

  /** A step that moves no index. */
  predicate StandsStill(step: Step) { !step.Write? && !step.WriteRest? && !step.Read? && !step.ReadRest? }

  lemma FramedStill(s: State, step: Step)
    requires Framed(s) && Enabled(s, step) && StandsStill(step)
    ensures Framed(Apply(s, step))
  {
    hide Total;
  }

  /** A sender that looks for space counts on no more than there is. */
  lemma SpaceSeen(s: State, step: Step)
    requires Fits(s) && Enabled(s, step) && (step.TestSpace? || step.CountAgain?)
    ensures Fits(Apply(s, step))
  {
  }

  lemma FitsStill(s: State, step: Step)
    requires Fits(s) && Enabled(s, step) && StandsStill(step)
    ensures Fits(Apply(s, step))
  {
    if step.TestSpace? || step.CountAgain? {
      SpaceSeen(s, step);
    } else {
      hide Free, Seen;
    }
  }

  lemma SenderKept(s: State, step: Step)
    requires Inv(s) && Enabled(s, step) && OfSender(step) && StandsStill(step)
    ensures Inv(Apply(s, step))
  {
    FramedStill(s, step);
    FitsStill(s, step);
    hide Framed, Reserved;
  }

  lemma WriteKept(s: State, step: Step)
    requires Inv(s) && Enabled(s, step) && (step.Write? || step.WriteRest?)
    ensures Inv(Apply(s, step))
  {
    hide Total;
    if step.WriteRest? { TotalAdd(s.sizes, s.sender.size); }
  }

  lemma ReceiverKept(s: State, step: Step)
    requires Inv(s) && Enabled(s, step) && !OfSender(step) && StandsStill(step)
    ensures Inv(Apply(s, step)) <==> !LeavesAsleep(s, step)
  {
    FramedStill(s, step);
    FitsStill(s, step);
    hide Framed, Reserved;
  }

  lemma ReadKept(s: State)
    requires Inv(s) && Enabled(s, Read)
    ensures Inv(Apply(s, Read))
  {
  }

  lemma ReadRestKept(s: State)
    requires Inv(s) && Enabled(s, ReadRest)
    ensures Inv(Apply(s, ReadRest)) <==> !Overruns(s, ReadRest)
  {
    assert s.sizes[0] in s.sizes;
    assert forall n <- s.sizes[1..] :: n in s.sizes;
  }

  /** Of all steps of both sides, other tasks and interrupts, exactly these two break the invariant. */
  lemma StepKept(s: State, step: Step)
    requires Inv(s) && Enabled(s, step)
    ensures Inv(Apply(s, step)) <==> !Overruns(s, step) && !LeavesAsleep(s, step)
  {
    hide Inv, Apply;
    if step.Write? || step.WriteRest? {
      WriteKept(s, step);
    } else if OfSender(step) {
      SenderKept(s, step);
    } else if step.Read? {
      ReadKept(s);
    } else if step.ReadRest? {
      ReadRestKept(s);
    } else {
      ReceiverKept(s, step);
    }
  }

  // ---- Runs ----

  predicate Legal(s: State, steps: seq<Step>)
    decreases |steps|
  {
    steps == [] || (Enabled(s, steps[0]) && Legal(Apply(s, steps[0]), steps[1..]))
  }

  function Exec(s: State, steps: seq<Step>): State
    requires Legal(s, steps)
    decreases |steps|
  {
    if steps == [] then s else Exec(Apply(s, steps[0]), steps[1..])
  }

  /** No step of the run is one of the two. */
  predicate Careful(s: State, steps: seq<Step>)
    requires Legal(s, steps)
    decreases |steps|
  {
    steps == [] || (
      && !Overruns(s, steps[0]) && !LeavesAsleep(s, steps[0])
      && Careful(Apply(s, steps[0]), steps[1..]))
  }

  /** xStreamBufferCreateStatic and xMessageBufferCreateStatic. */
  function Created(framed: bool, length: nat, trigger: nat): State {
    State(framed, length, if trigger == 0 then 1 else trigger, 0, [], false, false, Outside, Nothing, Away, Nothing)
  }

  /** The invariant holds in every state of the run. */
  ghost predicate Throughout(s: State, steps: seq<Step>)
    requires Legal(s, steps)
    decreases |steps|
  {
    Inv(s) && (steps == [] || Throughout(Apply(s, steps[0]), steps[1..]))
  }

  /** A run keeps the invariant throughout exactly if no step of it is one of the two. */
  lemma {:induction false} RunKept(s: State, steps: seq<Step>)
    requires Inv(s) && Legal(s, steps)
    ensures Throughout(s, steps) <==> Careful(s, steps)
    ensures Careful(s, steps) ==> Inv(Exec(s, steps))
    decreases |steps|
  {
    hide Inv, Apply, Enabled, Overruns, LeavesAsleep;
    if steps != [] {
      var s' := Apply(s, steps[0]);
      StepKept(s, steps[0]);
      if Inv(s') { RunKept(s', steps[1..]); }
    }
  }

  /** Nobody sleeps on what it waits for. A receiver sleeps, with no sender at work, only on an empty
      buffer or one below its trigger level; a sender sleeps, with no receiver at work, only for want of
      the space it needs. */
  lemma NoLostWakeUp(framed: bool, length: nat, trigger: nat, steps: seq<Step>)
    requires HEADER < length && trigger <= length
    requires var s := Created(framed, length, trigger); Legal(s, steps) && Careful(s, steps)
    ensures var s := Exec(Created(framed, length, trigger), steps);
      && (ReceiverHangs(s) && (s.sender.Outside? || SenderHangs(s)) ==> s.used == 0 || s.used < s.trigger)
      && (SenderHangs(s) && (s.receiver.Away? || ReceiverHangs(s)) ==> Free(s) < Need(s, s.sender.size))
  {
    RunKept(Created(framed, length, trigger), steps);
    var s := Exec(Created(framed, length, trigger), steps);
    hide Legal, Exec, Careful;
    if s.sizes != [] { assert s.sizes[0] in s.sizes; }
  }

  /** No second task is ever found waiting where the source asserts that there is none. */
  lemma OneOfEach(framed: bool, length: nat, trigger: nat, steps: seq<Step>)
    requires HEADER < length && trigger <= length
    requires var s := Created(framed, length, trigger); Legal(s, steps) && Careful(s, steps)
    ensures var s := Exec(Created(framed, length, trigger), steps);
      (s.sender.Testing? ==> !s.toSend) && (s.receiver.Away? ==> !s.toReceive)
  {
    RunKept(Created(framed, length, trigger), steps);
    hide Legal, Exec, Careful, Framed;
  }

  // ---- Waiting for each other ----

  /** Both sides sleep and no notification is on its way to either. */
  predicate Deadlocked(s: State) {
    s.sender.Blocked? && s.senderNotice.Awaited? && s.receiver.Asleep? && s.receiverNotice.Awaited?
  }

  /** The most bytes that can lie in the buffer below its trigger level: a message takes HEADER + 1 at least. */
  function Below(framed: bool, trigger: nat): nat {
    if trigger == 0 || (framed && trigger <= HEADER + 1) then 0 else trigger - 1
  }

  /** Both sleep only if what the sender needs does not fit beside so many bytes; so what it needs and the
      trigger level exceed the buffer together. */
  lemma NeverBothAsleep(framed: bool, length: nat, trigger: nat, steps: seq<Step>)
    requires HEADER < length && trigger <= length
    requires var s := Created(framed, length, trigger); Legal(s, steps) && Careful(s, steps)
    ensures var s := Exec(Created(framed, length, trigger), steps);
      Deadlocked(s) ==> length - 1 - Below(framed, s.trigger) < Need(s, s.sender.size)
                        && Need(s, s.sender.size) + s.trigger > s.length
  {
    RunKept(Created(framed, length, trigger), steps);
    NoLostWakeUp(framed, length, trigger, steps);
    Shape(Created(framed, length, trigger), steps);
    var s := Exec(Created(framed, length, trigger), steps);
    hide Legal, Exec, Careful, Total;
    if s.framed && s.sizes != [] { FirstInTotal(s.sizes); }
    if s.sizes == [] { NoneInTotal(); }
  }

  lemma NoneInTotal()
    ensures Total([]) == 0
  {
  }

  lemma FirstInTotal(sizes: seq<nat>)
    requires sizes != [] && forall n <- sizes :: n > 0
    ensures Total(sizes) >= HEADER + 1
  {
    assert sizes[0] in sizes;
  }

  /** Neither the kind nor the length of a buffer ever changes. */
  lemma {:induction false} Shape(s: State, steps: seq<Step>)
    requires Legal(s, steps)
    ensures Exec(s, steps).framed == s.framed && Exec(s, steps).length == s.length
    decreases |steps|
  {
    if steps != [] {
      assert Apply(s, steps[0]).framed == s.framed && Apply(s, steps[0]).length == s.length;
      hide Apply, Enabled;
      Shape(Apply(s, steps[0]), steps[1..]);
    }
  }

  lemma {:induction false} OneMore(s: State, steps: seq<Step>, step: Step)
    requires Legal(s, steps) && Careful(s, steps) && Enabled(Exec(s, steps), step)
    requires !Overruns(Exec(s, steps), step) && !LeavesAsleep(Exec(s, steps), step)
    ensures Legal(s, steps + [step]) && Careful(s, steps + [step])
    ensures Exec(s, steps + [step]) == Apply(Exec(s, steps), step)
    decreases |steps|
  {
    hide Apply, Overruns, LeavesAsleep, Enabled;
    if steps == [] {
      assert [step][1..] == [];
    } else {
      OneMore(Apply(s, steps[0]), steps[1..], step);
      assert (steps + [step])[1..] == steps[1..] + [step];
    }
  }

  /** And then they can: one send stays below the trigger level of a sleeping receiver, the next one finds
      too little space. Without time-outs nothing in the buffer's code ever wakes either of them. */
  lemma DeadlockReached(framed: bool, length: nat, trigger: nat, size: nat) returns (steps: seq<Step>)
    requires HEADER < length && 0 < trigger <= length && size > 0
    requires length - 1 - Below(framed, trigger) < Need(Created(framed, length, trigger), size)
    ensures Legal(Created(framed, length, trigger), steps) && Careful(Created(framed, length, trigger), steps)
    ensures var s := Exec(Created(framed, length, trigger), steps);
      Deadlocked(s) && s.sender.size == size && s.trigger == trigger
  {
    var s := Created(framed, length, trigger);
    if Below(framed, trigger) == 0 {
      steps := FallsAsleep(framed, length, trigger);
    } else {
      steps := SentBelow(framed, length, trigger, Below(framed, trigger));
    }
    hide Legal, Exec, Careful;
    steps := Sleeps(s, steps, size);
  }

  lemma Sleeps(s: State, steps: seq<Step>, size: nat) returns (more: seq<Step>)
    requires Legal(s, steps) && Careful(s, steps) && size > 0
    requires var s' := Exec(s, steps);
      s'.sender.Outside? && Free(s') < Need(s', size) && s'.receiver.Asleep? && s'.receiverNotice.Awaited?
    ensures Legal(s, more) && Careful(s, more)
    ensures var s' := Exec(s, more); Deadlocked(s') && s'.sender.size == size && s'.trigger == Exec(s, steps).trigger
  {
    hide Legal, Exec, Careful;
    more := More(s, steps, Send(size, true));
    more := More(s, more, TestSpace);
    more := More(s, more, SenderWaits);
  }

  lemma More(s: State, steps: seq<Step>, step: Step) returns (more: seq<Step>)
    requires Legal(s, steps) && Careful(s, steps) && Enabled(Exec(s, steps), step)
    requires !step.ReadRest? && !step.SetTrigger?
    ensures Legal(s, more) && Careful(s, more) && Exec(s, more) == Apply(Exec(s, steps), step)
  {
    more := steps + [step];
    OneMore(s, steps, step);
  }

  /** A receiver goes to sleep at an empty buffer. */
  lemma FallsAsleep(framed: bool, length: nat, trigger: nat) returns (steps: seq<Step>)
    requires HEADER < length && 0 < trigger <= length
    ensures var s := Created(framed, length, trigger);
      Legal(s, steps) && Careful(s, steps)
      && Exec(s, steps) == s.(toReceive := true, receiver := Asleep(1), receiverNotice := Awaited)
  {
    var s := Created(framed, length, trigger);
    steps := [];
    assert Legal(s, steps) && Careful(s, steps) && Exec(s, steps) == s;
    hide Legal, Exec, Careful;
    steps := More(s, steps, Receive(1, true));
    steps := More(s, steps, ReceiverWaits);
  }

  /** A receiver goes to sleep, and what is sent, header included, stays below its trigger level. */
  lemma SentBelow(framed: bool, length: nat, trigger: nat, bytes: nat) returns (steps: seq<Step>)
    requires HEADER < length && 0 < bytes < trigger <= length && (framed ==> HEADER < bytes)
    ensures var s := Created(framed, length, trigger);
      Legal(s, steps) && Careful(s, steps)
      && Exec(s, steps) == s.(used := bytes, sizes := if framed then [bytes - HEADER] else [], toReceive := true,
                              receiver := Asleep(1), receiverNotice := Awaited)
  {
    var s := Created(framed, length, trigger);
    var size := if framed then bytes - HEADER else bytes;
    steps := FallsAsleep(framed, length, trigger);
    hide Legal, Exec, Careful;
    var sleeping := Exec(s, steps);
    steps := More(s, steps, Send(size, false));
    steps := More(s, steps, CountAgain);
    steps := More(s, steps, Write);
    if framed { steps := More(s, steps, WriteRest); }
    assert [] + [size] == [size];
    assert Exec(s, steps) == sleeping.(used := bytes, sizes := if framed then [size] else [], sender := Written);
    steps := More(s, steps, TestTrigger);
  }

  /** Lowering the trigger level wakes nobody: a receiver waits for five bytes, three are sent, the level is
      set to two, and with three bytes there and nobody at work the receiver goes on sleeping. */
  lemma LeftAsleep() returns (steps: seq<Step>)
    ensures Legal(Created(false, 10, 5), steps) && Careful(Created(false, 10, 5), steps)
    ensures var s := Exec(Created(false, 10, 5), steps);
      LeavesAsleep(s, SetTrigger(2)) && Enabled(s, SetTrigger(2))
      && var s' := Apply(s, SetTrigger(2));
         s'.receiver.Asleep? && s'.receiverNotice.Awaited? && s'.sender.Outside? && s'.used == 3 && s'.trigger == 2
  {
    steps := SentBelow(false, 10, 5, 3);
    hide Legal, Exec, Careful;
  }
}
