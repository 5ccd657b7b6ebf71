/** One call on a stream or message buffer, from its start until it has moved its bytes, goes to wait, or returns. */
module StreamBufferCalls {
  import B = StreamBuffer
  import opened StreamBufferWaits

  /** The sender's next step, while it is on its way through the call. */
  function Onward(s: State): State {
    match s.sender
    case Testing(_) => Apply(s, TestSpace)
    case Counting(_, _) => Apply(s, CountAgain)
    case Writing(_, _) => Apply(s, Write)
    case HalfWritten(_) => Apply(s, WriteRest)
    case _ => s
  }

  function SendAlone(s: State, size: nat, wait: bool): State
    requires Enabled(s, Send(size, wait))
  {
    Onward(Onward(Onward(Onward(Apply(s, Send(size, wait))))))
  }

  /** A send with nobody in between: with room for all of it, it writes all; otherwise it goes to wait if it may, and
      if not, a message is dropped whole and a stream takes the bytes there is room for. */
  lemma SendOutcome(s: State, size: nat, wait: bool)
    requires Inv(s) && Enabled(s, Send(size, wait))
    ensures var e, free := SendAlone(s, size, wait), s.length - 1 - s.used;
      if free >= Need(s, size) then
        e == s.(sender := Written, used := s.used + Need(s, size), sizes := if s.framed then s.sizes + [size] else s.sizes)
      else if wait then
        e == s.(sender := Preparing(size, free), senderNotice := e.senderNotice, toSend := true) && !e.senderNotice.Arrived?
      else if s.framed || free == 0 then e == s
      else e == s.(sender := Written, used := s.used + free)
  {
    assert s.used < s.length;
    hide Inv;
    var s1 := Apply(s, Send(size, wait));
    if wait {
      var s2 := Onward(s1);
      if s.length - 1 - s.used >= Need(s, size) { Counted(s2, size); }
    } else {
      Counted(s1, size);
    }
  }

  /** From where the space is known, or counted as none. */
  lemma Counted(s: State, size: nat)
    requires s.used < s.length && size > 0 && s.sender.Counting? && s.sender.size == size
    requires s.sender.space == 0 || s.sender.space == s.length - 1 - s.used
    ensures var e, free := Onward(Onward(Onward(s))), s.length - 1 - s.used;
      e == if free >= Need(s, size) then
             s.(sender := Written, used := s.used + Need(s, size), sizes := if s.framed then s.sizes + [size] else s.sizes)
           else if s.framed || free == 0 then s.(sender := Outside)
           else s.(sender := Written, used := s.used + free)
    ensures Onward(Onward(Onward(Onward(s)))) == Onward(Onward(Onward(s)))
  {
    var s1 := Onward(s);
    assert s1 == s.(sender := Writing(size, s.length - 1 - s.used));
    hide Onward;
    OneWrite(s1, size);
  }

  lemma OneWrite(s: State, size: nat)
    requires s.used < s.length && size > 0 && s.sender == Writing(size, s.length - 1 - s.used)
    ensures var e, free := Onward(Onward(s)), s.length - 1 - s.used;
      e == if free >= Need(s, size) then
             s.(sender := Written, used := s.used + Need(s, size), sizes := if s.framed then s.sizes + [size] else s.sizes)
           else if s.framed || free == 0 then s.(sender := Outside)
           else s.(sender := Written, used := s.used + free)
    ensures Onward(Onward(Onward(s))) == Onward(Onward(s))
  {
  }

  /** The receiver's next step, while it is on its way through the call. */
  function Inward(s: State): State {
    match s.receiver
    case Looking(_) => Apply(s, LookAgain)
    case Reading(_, _) => Apply(s, Read)
    case HalfRead(_) => Apply(s, ReadRest)
    case _ => s
  }

  function ReceiveAlone(s: State, room: nat, wait: bool): State
    requires Enabled(s, Receive(room, wait))
  {
    Inward(Inward(Apply(s, Receive(room, wait))))
  }

  /** A receive with nobody in between: it takes the next message if it has the room and leaves it if not, or takes as
      many bytes of a stream as there are, up to its room; with nothing there it goes to wait if it may. */
  lemma ReceiveOutcome(s: State, room: nat, wait: bool)
    requires Inv(s) && Enabled(s, Receive(room, wait))
    ensures var e := ReceiveAlone(s, room, wait);
      if s.used > 0 && !s.framed then
        e == if room == 0 then s else s.(receiver := Taken, used := s.used - Least(room, s.used))
      else if s.framed && s.sizes != [] then
        e == if s.sizes[0] > room then s
             else s.(receiver := Taken, used := s.used - B.HEADER - s.sizes[0], sizes := s.sizes[1..])
      else if wait then
        e == s.(receiver := GettingReady(room), receiverNotice := e.receiverNotice, toReceive := true) && !e.receiverNotice.Arrived?
      else e == s
  {
    ThereToRead(s);
    hide Inv, Total;
    if s.used > Header(s) {
      hide Inward;
      if s.framed { ReadMessage(s, room); } else { ReadStream(s, room); }
    }
  }

  lemma ReadStream(s: State, room: nat)
    requires !s.framed && s.receiver.Away? && s.used > 0
    ensures Inward(Inward(s.(receiver := Reading(room, s.used))))
         == if room == 0 then s else s.(receiver := Taken, used := s.used - Least(room, s.used))
  {
  }

  lemma ReadMessage(s: State, room: nat)
    requires s.framed && s.receiver.Away? && s.sizes != [] && s.used >= B.HEADER + s.sizes[0]
    ensures Inward(Inward(s.(receiver := Reading(room, s.used))))
         == if s.sizes[0] > room then s
            else s.(receiver := Taken, used := s.used - B.HEADER - s.sizes[0], sizes := s.sizes[1..])
  {
  }

  lemma ThereToRead(s: State)
    requires Inv(s) && s.receiver.Away?
    ensures s.used < s.length && (!s.framed ==> s.sizes == [])
    ensures s.framed ==> if s.sizes == [] then s.used <= B.HEADER else s.used >= B.HEADER + s.sizes[0] && s.sizes[0] > 0
  {
    if s.sizes != [] { assert s.sizes[0] in s.sizes; }
  }

  /** A trigger level is taken if the buffer can hold as many bytes, and 0 counts as 1. */
  lemma TriggerTaken(s: State, level: nat)
    requires Inv(s)
    ensures var e := Apply(s, SetTrigger(level));
      e == s.(trigger := e.trigger) && 0 < e.trigger <= s.length
      && (e.trigger == level <==> level == s.trigger || 0 < level <= s.length)
      && (level == 0 ==> e.trigger == 1) && (level > s.length ==> e == s)
  {
    hide Framed, ReceiverSafe, SenderSafe;
  }

  /** A side that has left its handle is notified once, and its handle is gone; one that has not is left alone. */
  lemma ToldOnce(s: State)
    ensures s.sender.Telling? ==>
      var e := Apply(s, TellReceiver);
      e == s.(sender := Outside, toReceive := false, receiverNotice := e.receiverNotice)
      && (e.receiverNotice == s.receiverNotice || e.receiverNotice.Arrived?) && (s.toReceive ==> e.receiverNotice.Arrived?)
      && (!s.toReceive ==> e.receiverNotice == s.receiverNotice)
    ensures s.receiver.Taken? ==>
      var e := Apply(s, TellSender);
      e == s.(receiver := Away, toSend := false, senderNotice := e.senderNotice)
      && (s.toSend ==> e.senderNotice.Arrived?) && (!s.toSend ==> e.senderNotice == s.senderNotice)
  {
  }
}
