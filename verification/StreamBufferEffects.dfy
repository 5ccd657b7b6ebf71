/** What each step of a message buffer does, told in whole messages: which sends are accepted, what is delivered. */
module StreamBufferEffects {
  import opened StreamBuffer
  import opened StreamBufferRuns

  // ---- the reference ----

  /** The bytes of the messages sent and not received, with their lengths; the reader may have taken one length. */
  function Unread(b: Buffer): int {
    |Frames(b.sent)| - |Frames(b.received)| - if b.reader.Content? || b.reader.Back? then HEADER else 0
  }

  /** A message is accepted if it fits with its length, and one place of the ring stays empty. */
  predicate Admits(b: Buffer, msg: Message) { Unread(b) + HEADER + |msg| <= b.length - 1 }

  function WriterAfter(b: Buffer, step: Step): Writer {
    if step.BeginSend? && Admits(b, step.msg) then Header(step.msg, 0)
    else if b.writer.Idle? then Idle
    else if step.CopyIn? then b.writer.(i := b.writer.i + 1)
    else if step.PublishHead? then if b.writer.Header? then Data(b.writer.msg, 0) else Idle
    else b.writer
  }

  function SentAfter(b: Buffer, step: Step): seq<Message> {
    if step.PublishHead? && b.writer.Data? then b.sent + [b.writer.msg] else b.sent
  }

  /** What the reader is doing: outside, at the length of a message, at its bytes, or about to give it up. */
  datatype Reading = Outside | AtLength(room: nat, copied: nat) | AtBytes(copied: nat) | TooLong

  function ReadingOf(r: Reader): Reading {
    match r
    case Waiting => Outside
    case Length(_, room, got) => AtLength(room, |got|)
    case Content(_, _, got) => AtBytes(|got|)
    case Back(_) => TooLong
  }

  /** A receive starts if a whole message is there, and gives up exactly those longer than its room. */
  function ReadingAfter(b: Buffer, step: Step): Reading {
    var c := ReadingOf(b.reader);
    match step
    case BeginReceive(room) => if b.received != b.sent then AtLength(room, 0) else Outside
    case CopyOut => if c.AtLength? then AtLength(c.room, c.copied + 1) else if c.AtBytes? then AtBytes(c.copied + 1) else c
    case PublishTail =>
      if !c.AtLength? || |b.received| >= |b.sent| then Outside
      else if |b.sent[|b.received|]| > c.room then TooLong
      else AtBytes(0)
    case RollBack => Outside
    case _ => c
  }

  function ReceivedAfter(b: Buffer, step: Step): seq<Message> {
    if step.PublishTail? && b.reader.Content? && |b.received| < |b.sent| then b.sent[..|b.received| + 1] else b.received
  }

  // ---- each step ----

  lemma UnreadBytes(b: Buffer)
    requires Inv(b) && b.writer.Idle?
    ensures Unread(b) == |b.stream| - b.taken
  {
    hide Frames, Holds, At, Copies, LengthBytes;
  }

  lemma AdmitsExact(b: Buffer, msg: Message)
    requires Inv(b) && b.writer.Idle?
    ensures SpacesAvailable(b.head, b.tail, b.length) >= HEADER + |msg| <==> Admits(b, msg)
  {
    UnreadBytes(b);
    Counts(|b.stream|, b.taken, b.length);
    hide Frames, Holds, At, Copies, LengthBytes;
  }

  lemma WriterRight(b: Buffer, step: Step)
    requires Inv(b) && Enabled(b, step)
    ensures Apply(b, step).writer == WriterAfter(b, step) && Apply(b, step).sent == SentAfter(b, step)
  {
    hide Admits, SpacesAvailable, BytesInBuffer, Frames, At, LengthBytes, LengthOf;
    if step.BeginSend? {
      AdmitsExact(b, step.msg);
      hide Inv;
    } else if step.CopyIn? {
      PlaceIn(b);
      hide Inv, Wrap;
    }
  }

  lemma PlaceIn(b: Buffer)
    requires Inv(b) && Enabled(b, CopyIn)
    ensures Wrap(b.head + b.writer.i, b.length) < |b.bytes|
  {
    WrapMod(|b.stream|, b.writer.i, b.length);
    hide Copies, Frames, LengthBytes;
  }

  lemma StartExact(b: Buffer)
    requires Inv(b) && b.reader.Waiting?
    ensures BytesInBuffer(b.head, b.tail, b.length) > HEADER <==> b.received != b.sent
  {
    Counts(|b.stream|, b.taken, b.length);
    WholePrefix(b.received, b.sent);
    StreamStarts(b);
    hide At, Holds, LengthBytes, Copies;
    if |b.received| < |b.sent| {
      assert b.sent[..|b.received|] == b.received;
      FramesPrefix(b.sent, |b.received|);
      assert b.sent[|b.received|] in b.sent;
    }
    hide Frames;
  }

  lemma LengthRight(b: Buffer)
    requires Inv(b) && Enabled(b, PublishTail) && b.reader.Length?
    ensures var b', n := Apply(b, PublishTail), |b.sent[|b.received|]|;
      && (b'.reader.Back? <==> n > b.reader.room) && (b'.reader.Content? <==> n <= b.reader.room)
      && (b'.reader.Content? ==> b'.reader.got == []) && b'.received == b.received
  {
    var m := b.sent[|b.received|];
    assert m in b.sent;
    InStream(b);
    assert b.reader.got == LengthBytes(|m|);
    LengthRoundTrip(|m|);
    hide Inv, Holds, WriterOk, ReaderOk, At, Wrap, LengthBytes, LengthOf, Frames, Copies;
  }

  lemma ContentRight(b: Buffer)
    requires Inv(b) && Enabled(b, PublishTail) && b.reader.Content?
    ensures var b' := Apply(b, PublishTail); b'.reader.Waiting? && b'.received == b.sent[..|b.received| + 1]
  {
    InStream(b);
    hide Holds, WriterOk, At, Wrap, LengthBytes, Frames, Copies;
    assert b.reader.got == b.sent[|b.received|];
    assert b.received == b.sent[..|b.received|];
  }

  lemma ReaderRight(b: Buffer, step: Step)
    requires Inv(b) && Enabled(b, step)
    ensures ReadingOf(Apply(b, step).reader) == ReadingAfter(b, step) && Apply(b, step).received == ReceivedAfter(b, step)
  {
    hide Admits, SpacesAvailable, BytesInBuffer, Frames, At, LengthBytes, LengthOf, Holds, Copies, WriterOk;
    match step {
      case BeginReceive(_) => StartExact(b);
      case CopyOut => NextByte(b);
      case PublishTail => if b.reader.Length? { LengthRight(b); } else { ContentRight(b); }
      case _ =>
    }
  }

  /** Every step accepts, stores, finds and delivers exactly the messages that the reference says. */
  lemma StepExact(b: Buffer, step: Step)
    requires Inv(b) && Enabled(b, step)
    ensures var b' := Apply(b, step);
      && b'.writer == WriterAfter(b, step) && b'.sent == SentAfter(b, step)
      && ReadingOf(b'.reader) == ReadingAfter(b, step) && b'.received == ReceivedAfter(b, step)
      && b'.length == b.length
  {
    hide Inv, Enabled, Apply, WriterAfter, SentAfter, ReadingAfter, ReceivedAfter;
    WriterRight(b, step);
    ReaderRight(b, step);
    SameLength(b, step);
  }

  lemma SameLength(b: Buffer, step: Step)
    requires Enabled(b, step)
    ensures Apply(b, step).length == b.length
  {
  }

  // ---- runs ----

  function Pending(b: Buffer): seq<Message> { if b.writer.Idle? then [] else [b.writer.msg] }

  /** The messages whose sends the run accepts, in order. */
  function Accepted(b: Buffer, steps: seq<Step>): seq<Message>
    requires Legal(b, steps)
    decreases |steps|
  {
    if steps == [] then []
    else (if steps[0].BeginSend? && Admits(b, steps[0].msg) then [steps[0].msg] else []) + Accepted(Apply(b, steps[0]), steps[1..])
  }

  lemma PendingStep(b: Buffer, step: Step)
    requires Inv(b) && Enabled(b, step)
    ensures Apply(b, step).sent + Pending(Apply(b, step))
         == b.sent + Pending(b) + if step.BeginSend? && Admits(b, step.msg) then [step.msg] else []
  {
    assert step.BeginSend? ==> b.writer.Idle?;
    assert step.PublishHead? ==> !b.writer.Idle?;
    hide Inv, Apply, Admits;
    StepExact(b, step);
  }

  /** No message is lost on its way in: those sent, and the one being written, are those the sends accepted. */
  lemma {:induction false} AllAccepted(b: Buffer, steps: seq<Step>)
    requires Legal(b, steps) && Throughout(b, steps)
    ensures Exec(b, steps).sent + Pending(Exec(b, steps)) == b.sent + Pending(b) + Accepted(b, steps)
    decreases |steps|
  {
    hide Inv, Enabled, Apply, Admits, Pending;
    if steps != [] {
      PendingStep(b, steps[0]);
      AllAccepted(Apply(b, steps[0]), steps[1..]);
    }
  }
}
