/** Every interleaving of the writer and the reader of a message buffer delivers the messages whole, in
    order, and unchanged. */
module StreamBufferRuns {
  import opened StreamBuffer

  // ---- The ring ----

  lemma Remainder(q: int, r: nat, length: nat)
    requires 0 <= r < length
    ensures (q * length + r) % length == r
  {
    var x := q * length + r;
    var d := x / length - q;
    assert x == x / length * length + x % length;
    assert d * length == r - x % length;
  }

  /** Stepping an index round the ring steps the position it stands for. */
  lemma WrapMod(p: nat, k: nat, length: nat)
    requires length > 0 && k <= length
    ensures Wrap(At(p, length) + k, length) == At(p + k, length)
  {
    var q, r := p / length, p % length;
    assert p == q * length + r;
    if r + k < length {
      Remainder(q, r + k, length);
    } else if r + k < 2 * length {
      Remainder(q + 1, r + k - length, length);
      assert (q + 1) * length == q * length + length;
    } else {
      assert false;
    }
  }

  /** Different positions less than a ring apart are in different places. */
  lemma Apart(p: nat, q: nat, length: nat)
    requires p < q < p + length
    ensures At(p, length) != At(q, length)
  {
    WrapMod(p, q - p, length);
    hide At;
  }

  /** prvBytesInBuffer and xStreamBufferSpacesAvailable count what was published and not taken. */
  lemma Counts(published: nat, taken: nat, length: nat)
    requires taken <= published < taken + length
    ensures BytesInBuffer(At(published, length), At(taken, length), length) == published - taken
    ensures SpacesAvailable(At(published, length), At(taken, length), length) == length - 1 - (published - taken)
  {
    WrapMod(taken, published - taken, length);
    hide At;
  }

  lemma HoldsMore(bytes: seq<Byte>, length: nat, s: seq<Byte>, x: Byte)
    requires Holds(bytes, length, s)
    ensures Holds(bytes[At(|s|, length) := x], length, s + [x])
  {
    hide At;
    var i := At(|s|, length);
    forall p | 0 <= p < |s| + 1 && p >= |s| + 1 - length ensures bytes[i := x][At(p, length)] == (s + [x])[p] {
      if p < |s| { Apart(p, |s|, length); }
    }
  }

  // ---- Frames ----

  lemma {:induction false} FramesPrefix(ms: seq<Message>, r: nat)
    requires r < |ms|
    ensures var start := |Frames(ms[..r])|;
      start + HEADER + |ms[r]| <= |Frames(ms)|
      && Frames(ms)[start..start + HEADER] == LengthBytes(|ms[r]|)
      && Frames(ms)[start + HEADER..start + HEADER + |ms[r]|] == ms[r]
    decreases |ms|
  {
    var init := ms[..|ms| - 1];
    if r < |ms| - 1 {
      assert init[..r] == ms[..r] && init[r] == ms[r];
      FramesPrefix(init, r);
      assert Frames(ms) == Frames(init) + Frame(ms[|ms| - 1]);
    } else {
      assert ms[..r] == init;
    }
  }

  lemma FramesAdd(ms: seq<Message>, m: Message)
    ensures Frames(ms + [m]) == Frames(ms) + Frame(m)
  {
    assert (ms + [m])[..|ms|] == ms;
  }

  // ---- The writer ----

  lemma BeginSendKept(b: Buffer, msg: Message)
    requires Inv(b) && Enabled(b, BeginSend(msg))
    ensures Inv(Apply(b, BeginSend(msg)))
  {
    var b' := Apply(b, BeginSend(msg));
    Counts(|b.stream|, b.taken, b.length);
    hide Holds, Frames, LengthBytes, At;
    assert Copies(b') == Copies(b);
  }

  lemma CopiedMore(b: Buffer)
    requires |b.bytes| == b.length > 0 && Enabled(b, CopyIn) && Wrap(b.head + b.writer.i, b.length) < b.length
    ensures var w, b' := b.writer, Apply(b, CopyIn);
      && Copies(b') == Copies(b) + [Source(w)[w.i]] && |Copies(b)| == |b.stream| + w.i
      && b' == b.(bytes := b.bytes[Wrap(b.head + w.i, b.length) := Source(w)[w.i]], writer := w.(i := w.i + 1))
  {
    hide LengthBytes, Wrap;
    var src, i := Source(b.writer), b.writer.i;
    assert src[..i + 1] == src[..i] + [src[i]];
  }

  lemma CopyInKept(b: Buffer)
    requires Inv(b) && Enabled(b, CopyIn)
    ensures Inv(Apply(b, CopyIn))
  {
    hide At, Frames, LengthBytes;
    var b', w := Apply(b, CopyIn), b.writer;
    WrapMod(|b.stream|, w.i, b.length);
    CopiedMore(b);
    HoldsMore(b.bytes, b.length, Copies(b), Source(w)[w.i]);
    hide Copies, Wrap, Holds, Source;
  }

  /** The reader's view does not depend on what else is sent. */
  lemma ReaderStill(b: Buffer, b': Buffer)
    requires ReaderOk(b) && b' == b.(head := b'.head, stream := b'.stream, writer := b'.writer, sent := b'.sent)
    requires b.sent <= b'.sent
    ensures ReaderOk(b')
  {
    hide Frames, LengthBytes, At;
    var r := |b.received|;
    if r < |b.sent| { assert b'.sent[r] == b.sent[r]; }
  }

  lemma PublishedCopies(b: Buffer)
    requires Enabled(b, PublishHead)
    ensures Copies(Apply(b, PublishHead)) == Copies(b)
  {
    hide LengthBytes;
    var src := Source(b.writer);
    assert src[..b.writer.i] == src;
    assert b.stream + src + [] == b.stream + src;
  }

  lemma PublishedStream(b: Buffer)
    requires WriterOk(b) && Enabled(b, PublishHead)
    ensures WriterOk(Apply(b, PublishHead))
  {
    hide LengthBytes, Frame, Wrap;
    if b.writer.Data? {
      FramesAdd(b.sent, b.writer.msg);
      FrameParts(Frames(b.sent), b.writer.msg);
    }
    hide Frames;
  }

  lemma PublishHeadKept(b: Buffer)
    requires Inv(b) && Enabled(b, PublishHead)
    ensures Inv(Apply(b, PublishHead))
  {
    var b', n := Apply(b, PublishHead), |Source(b.writer)|;
    WrapMod(|b.stream|, n, b.length);
    PublishedCopies(b);
    PublishedStream(b);
    ReaderStill(b, b');
    assert |b'.stream| == |b.stream| + n && b'.head == Wrap(b.head + n, b.length);
    assert Reserved(b'.writer) + n == Reserved(b.writer);
    hide WriterOk, ReaderOk, Frames, LengthBytes, Holds, At, Copies, Wrap;
  }

  lemma FrameParts(s: seq<Byte>, m: Message)
    ensures s + LengthBytes(|m|) + m == s + Frame(m)
  {
    hide LengthBytes;
  }

  // ---- The reader ----

  /** Where the next message lies, if there is more than a header to read. */
  lemma Next(b: Buffer)
    requires WriterOk(b) && ReaderOk(b) && b.received <= b.sent
    requires b.reader.Waiting? && |b.stream| - b.taken > HEADER
    ensures var r := |b.received|;
      r < |b.sent| && b.taken + HEADER + |b.sent[r]| <= |b.stream|
  {
    StreamStarts(b);
    WholePrefix(b.received, b.sent);
    hide WriterOk, Frames;
    var r := |b.received|;
    assert b.sent[..r] == b.received;
    assert r < |b.sent|;
    FramesPrefix(b.sent, r);
  }

  lemma WholePrefix(a: seq<Message>, c: seq<Message>)
    requires a <= c
    ensures |a| == |c| ==> a == c
  {
  }

  /** The stream is the messages sent, and at most a header more. */
  lemma StreamStarts(b: Buffer)
    requires WriterOk(b)
    ensures var f := Frames(b.sent);
      |f| <= |b.stream| <= |f| + HEADER && b.stream[..|f|] == f
  {
    hide Frames, LengthBytes;
  }

  lemma BeginReceiveKept(b: Buffer, room: nat)
    requires Inv(b) && Enabled(b, BeginReceive(room))
    ensures Inv(Apply(b, BeginReceive(room)))
  {
    Counts(|b.stream|, b.taken, b.length);
    if |b.stream| - b.taken > HEADER { Next(b); }
    hide Holds, Frames, LengthBytes, At;
  }

  /** The byte at a position not yet taken. */
  lemma ByteAt(b: Buffer, p: nat)
    requires Inv(b) && b.taken <= p < |b.stream|
    ensures |b.bytes| == b.length && b.bytes[At(p, b.length)] == b.stream[p]
  {
    hide At;
    assert Copies(b)[p] == b.stream[p];
    assert |Copies(b)| <= |b.stream| + Reserved(b.writer);
  }

  /** What the reader is to read, as part of the stream. */
  lemma InStream(b: Buffer)
    requires WriterOk(b) && ReaderOk(b) && b.received <= b.sent && (b.reader.Length? || b.reader.Content?)
    ensures var m := b.sent[|b.received|];
      var part := if b.reader.Length? then LengthBytes(|m|) else m;
      b.taken + |part| <= |b.stream| && Goal(b.reader) == |part| && b.reader.got <= part
      && b.stream[b.taken..b.taken + |part|] == part
  {
    var r, f := |b.received|, Frames(b.sent);
    assert b.sent[..r] == b.received;
    FramesPrefix(b.sent, r);
    StreamStarts(b);
    hide Frames, LengthBytes, WriterOk, At;
    var m := b.sent[r];
    var part := if b.reader.Length? then LengthBytes(|m|) else m;
    Within(b.stream, f, b.taken, part);
  }

  lemma Within(s: seq<Byte>, f: seq<Byte>, start: nat, part: seq<Byte>)
    requires |f| <= |s| && s[..|f|] == f && start + |part| <= |f| && f[start..start + |part|] == part
    ensures s[start..start + |part|] == part
  {
    assert s[start..start + |part|] == s[..|f|][start..start + |part|];
  }

  /** The byte copied out is the next one of the message, or of its length. */
  lemma NextByte(b: Buffer)
    requires Inv(b) && Enabled(b, CopyOut)
    ensures var m, k, i := b.sent[|b.received|], |b.reader.got|, Wrap(b.tail + |b.reader.got|, b.length);
      var part := if b.reader.Length? then LengthBytes(|m|) else m;
      k < |part| && i < |b.bytes| && b.bytes[i] == part[k] && b.reader.got + [b.bytes[i]] == part[..k + 1]
  {
    hide Frames, LengthBytes, WriterOk, At, Holds, Copies;
    var m, k := b.sent[|b.received|], |b.reader.got|;
    var part := if b.reader.Length? then LengthBytes(|m|) else m;
    InStream(b);
    hide ReaderOk;
    WrapMod(b.taken, k, b.length);
    ByteAt(b, b.taken + k);
    SliceStep(b.stream, b.taken, part, b.reader.got);
    hide Wrap;
  }

  lemma SliceStep(s: seq<Byte>, start: nat, part: seq<Byte>, got: seq<Byte>)
    requires start + |part| <= |s| && s[start..start + |part|] == part && got <= part && |got| < |part|
    ensures s[start + |got|] == part[|got|] && got + [part[|got|]] == part[..|got| + 1]
  {
    assert s[start..start + |part|][|got|] == s[start + |got|];
  }

  lemma CopyOutKept(b: Buffer)
    requires Inv(b) && Enabled(b, CopyOut)
    ensures Inv(Apply(b, CopyOut))
  {
    NextByte(b);
    hide Frames, LengthBytes, Holds, Wrap, WriterOk, At;
    var b' := Apply(b, CopyOut);
    assert b' == b.(reader := b'.reader);
    assert Copies(b') == Copies(b);
    assert WriterOk(b') by { WriterStill(b, b'); }
  }

  lemma WriterStill(b: Buffer, b': Buffer)
    requires WriterOk(b) && b'.writer == b.writer && b'.stream == b.stream && b'.sent == b.sent
    ensures WriterOk(b')
  {
    hide Frames, LengthBytes, At;
  }

  lemma PublishedLength(b: Buffer)
    requires WriterOk(b) && ReaderOk(b) && b.received <= b.sent && Enabled(b, PublishTail) && b.reader.Length?
    requires b.length > 0 && b.tail == At(b.taken, b.length) && forall m <- b.sent :: 0 < |m| < 0x1_0000_0000
    ensures ReaderOk(Apply(b, PublishTail)) && b.taken + |b.reader.got| <= |b.stream|
  {
    var m := b.sent[|b.received|];
    InStream(b);
    assert b.reader.got == LengthBytes(|m|);
    LengthRoundTrip(|m|);
    hide WriterOk, At, Wrap, LengthBytes, LengthOf, Frames;
  }

  lemma PublishedContent(b: Buffer)
    requires WriterOk(b) && ReaderOk(b) && b.received <= b.sent && Enabled(b, PublishTail) && b.reader.Content?
    ensures var b' := Apply(b, PublishTail);
      ReaderOk(b') && b'.received <= b'.sent && b.taken + |b.reader.got| <= |b.stream|
  {
    var r, m := |b.received|, b.sent[|b.received|];
    InStream(b);
    assert b.reader.got == m;
    FramesAdd(b.received, m);
    hide WriterOk, At, Wrap, LengthBytes, Frames;
    assert b.received + [m] == b.sent[..r + 1];
  }

  lemma TailFrame(b: Buffer)
    requires Enabled(b, PublishTail)
    ensures var b', k := Apply(b, PublishTail), |b.reader.got|;
      && b' == b.(tail := Wrap(b.tail + k, b.length), taken := b.taken + k, reader := b'.reader, received := b'.received)
      && Copies(b') == Copies(b) && (b.reader.Length? ==> b'.received == b.received)
  {
    hide LengthOf, LengthBytes, Wrap;
  }

  lemma PublishTailKept(b: Buffer)
    requires Inv(b) && Enabled(b, PublishTail)
    ensures Inv(Apply(b, PublishTail))
  {
    hide At, Wrap, Apply, Copies;
    var b', k := Apply(b, PublishTail), |b.reader.got|;
    TailFrame(b);
    if b.reader.Length? { PublishedLength(b); } else { PublishedContent(b); }
    WrapMod(b.taken, k, b.length);
    WriterStill(b, b');
    hide WriterOk, ReaderOk, Holds;
  }

  lemma RollBackKept(b: Buffer)
    requires Inv(b) && Enabled(b, RollBack)
    ensures Inv(Apply(b, RollBack)) <==> !Overruns(b, RollBack)
  {
    assert Copies(Apply(b, RollBack)) == Copies(b);
    hide Frames, LengthBytes, Holds, At;
  }

  /** Every step keeps the invariant, except exactly a roll-back that overruns the writer. */
  lemma StepKept(b: Buffer, step: Step)
    requires Inv(b) && Enabled(b, step)
    ensures Inv(Apply(b, step)) <==> !Overruns(b, step)
  {
    hide Inv, Apply;
    match step {
      case BeginSend(msg) => BeginSendKept(b, msg);
      case CopyIn => CopyInKept(b);
      case PublishHead => PublishHeadKept(b);
      case BeginReceive(room) => BeginReceiveKept(b, room);
      case CopyOut => CopyOutKept(b);
      case PublishTail => PublishTailKept(b);
      case RollBack => RollBackKept(b);
    }
  }

  // ---- Runs ----

  predicate Legal(b: Buffer, steps: seq<Step>)
    decreases |steps|
  {
    steps == [] || (Enabled(b, steps[0]) && Legal(Apply(b, steps[0]), steps[1..]))
  }

  function Exec(b: Buffer, steps: seq<Step>): Buffer
    requires Legal(b, steps)
    decreases |steps|
  {
    if steps == [] then b else Exec(Apply(b, steps[0]), steps[1..])
  }

  /** No roll-back of the run overruns the writer. */
  predicate NoneOverruns(b: Buffer, steps: seq<Step>)
    requires Legal(b, steps)
    decreases |steps|
  {
    steps == [] || (!Overruns(b, steps[0]) && NoneOverruns(Apply(b, steps[0]), steps[1..]))
  }

  /** The invariant holds in every state of the run. */
  ghost predicate Throughout(b: Buffer, steps: seq<Step>)
    requires Legal(b, steps)
    decreases |steps|
  {
    Inv(b) && (steps == [] || Throughout(Apply(b, steps[0]), steps[1..]))
  }

  /** A run keeps the invariant throughout exactly if no roll-back of it overruns the writer. */
  lemma {:induction false} RunKept(b: Buffer, steps: seq<Step>)
    requires Inv(b) && Legal(b, steps)
    ensures Throughout(b, steps) <==> NoneOverruns(b, steps)
    ensures NoneOverruns(b, steps) ==> Inv(Exec(b, steps))
    decreases |steps|
  {
    hide Inv, Apply, Enabled, Overruns;
    if steps != [] {
      var b' := Apply(b, steps[0]);
      StepKept(b, steps[0]);
      if Inv(b') { RunKept(b', steps[1..]); }
    }
  }

  /** xMessageBufferCreateStatic. */
  function Created(length: nat): Buffer {
    Buffer(length, seq(length, _ => 0), 0, 0, Idle, Waiting, [], [], [], 0)
  }

  lemma CreatedInv(length: nat)
    requires length > 0
    ensures Inv(Created(length))
  {
    assert Copies(Created(length)) == [];
  }

  /** However the writer and the reader interleave, if no roll-back overruns the writer, then what has been
      received is a prefix of what has been sent: each message whole and unchanged. */
  lemma MessagesIntact(length: nat, steps: seq<Step>)
    requires length > 0 && Legal(Created(length), steps) && NoneOverruns(Created(length), steps)
    ensures var b := Exec(Created(length), steps); b.received <= b.sent
  {
    CreatedInv(length);
    RunKept(Created(length), steps);
  }

  /** Nothing is stuck: with the writer and the reader outside, a receive finds a message exactly when
      one has been sent and not received. */
  lemma NothingStuck(length: nat, steps: seq<Step>, room: nat)
    requires length > 0 && Legal(Created(length), steps) && NoneOverruns(Created(length), steps)
    requires var b := Exec(Created(length), steps); b.writer.Idle? && b.reader.Waiting?
    ensures var b := Exec(Created(length), steps);
      Apply(b, BeginReceive(room)).reader.Length? <==> b.received != b.sent
  {
    var b := Exec(Created(length), steps);
    CreatedInv(length);
    RunKept(Created(length), steps);
    Counts(|b.stream|, b.taken, b.length);
    WholePrefix(b.received, b.sent);
    hide Legal, Exec, At, Holds, LengthBytes;
    if |b.received| < |b.sent| {
      assert b.sent[..|b.received|] == b.received;
      FramesPrefix(b.sent, |b.received|);
      assert b.sent[|b.received|] in b.sent;
    }
    hide Frames;
  }

  // ---- Room enough ----

  /** No message sent is longer than the room a receive gives it. */
  ghost predicate RoomEnough(steps: seq<Step>, most: nat) {
    && (forall step <- steps :: step.BeginSend? ==> |step.msg| <= most)
    && (forall step <- steps :: step.BeginReceive? ==> step.room >= most)
  }

  ghost predicate Roomy(b: Buffer, most: nat) {
    && (forall m <- b.sent :: |m| <= most) && (!b.writer.Idle? ==> |b.writer.msg| <= most)
    && (b.reader.Length? ==> b.reader.room >= most) && !b.reader.Back?
  }

  lemma RoomyKept(b: Buffer, step: Step, most: nat)
    requires Inv(b) && Enabled(b, step) && Roomy(b, most)
    requires (step.BeginSend? ==> |step.msg| <= most) && (step.BeginReceive? ==> step.room >= most)
    ensures Roomy(Apply(b, step), most)
  {
    hide Holds, WriterOk, LengthBytes, Frames, LengthOf;
    if step.PublishTail? && b.reader.Length? {
      var m := b.sent[|b.received|];
      LengthRoundTrip(|m|);
      assert b.reader.got == LengthBytes(|m|);
    }
  }

  lemma {:induction false} RoomyRun(b: Buffer, steps: seq<Step>, most: nat)
    requires Inv(b) && Roomy(b, most) && Legal(b, steps) && RoomEnough(steps, most)
    ensures NoneOverruns(b, steps)
    decreases |steps|
  {
    if steps != [] {
      var step := steps[0];
      assert step in steps;
      assert !step.RollBack? && !Overruns(b, step);
      hide Inv, Apply, Roomy;
      StepKept(b, step);
      RoomyKept(b, step, most);
      assert forall x :: x in steps[1..] ==> x in steps;
      RoomyRun(Apply(b, step), steps[1..], most);
    }
  }

  /** What the callers can see to: if every receive has room for the longest message, no roll-back overruns
      the writer, for there is none. */
  lemma RoomSuffices(length: nat, steps: seq<Step>, most: nat)
    requires length > 0 && Legal(Created(length), steps) && RoomEnough(steps, most)
    ensures NoneOverruns(Created(length), steps)
  {
    CreatedInv(length);
    RoomyRun(Created(length), steps, most);
  }

  // ---- Rolling the tail back ----

  /** A roll-back that overruns the writer makes a whole ring of bytes invisible. */
  lemma OverrunLoses(b: Buffer)
    requires Inv(b) && Enabled(b, RollBack) && b.writer.Idle? && Overruns(b, RollBack)
    ensures var b' := Apply(b, RollBack);
      BytesInBuffer(b'.head, b'.tail, b'.length) == |b.stream| - |Frames(b.received)| - b.length
  {
    var start := |Frames(b.received)|;
    hide Holds, Frames, LengthBytes;
    assert |b.stream| - b.length >= start;
    WrapMod(|b.stream| - b.length, b.length, b.length);
    Counts(|b.stream| - b.length, start, b.length);
    hide At;
  }

  lemma {:induction false} OneMore(b: Buffer, steps: seq<Step>, step: Step)
    requires Legal(b, steps) && Enabled(Exec(b, steps), step)
    ensures Legal(b, steps + [step]) && Exec(b, steps + [step]) == Apply(Exec(b, steps), step)
    decreases |steps|
  {
    hide Apply, Enabled;
    if steps == [] {
      assert [step][1..] == [];
    } else {
      OneMore(Apply(b, steps[0]), steps[1..], step);
      assert (steps + [step])[1..] == steps[1..] + [step];
    }
  }

  lemma More(b: Buffer, steps: seq<Step>, step: Step) returns (more: seq<Step>)
    requires Legal(b, steps) && Enabled(Exec(b, steps), step)
    ensures Legal(b, more) && Exec(b, more) == Apply(Exec(b, steps), step)
  {
    more := steps + [step];
    OneMore(b, steps, step);
  }

  /** The ring after the first k bytes of src have been copied to it from position p on. */
  function Laid(bytes: seq<Byte>, p: nat, src: seq<Byte>, k: nat): (r: seq<Byte>)
    requires k <= |src|
    ensures |r| == |bytes|
  {
    if k == 0 then bytes
    else
      var r, i := Laid(bytes, p, src, k - 1), Wrap(p + k - 1, |bytes|);
      if i < |bytes| then r[i := src[k - 1]] else r
  }

  /** The writer copies all it is to copy, and moves xHead. */
  lemma {:induction false} WritesAll(b: Buffer, before: seq<Step>, k: nat) returns (steps: seq<Step>)
    requires Legal(b, before)
    requires var e := Exec(b, before);
      !e.writer.Idle? && e.writer.i == 0 && e.head < e.length == |e.bytes| && k <= |Source(e.writer)| <= e.length
    ensures Legal(b, steps)
    ensures var e := Exec(b, before); var src := Source(e.writer);
      Exec(b, steps) == e.(bytes := Laid(e.bytes, e.head, src, k), writer := e.writer.(i := k))
    decreases k
  {
    hide Legal, Exec, LengthBytes;
    if k == 0 {
      steps := before;
    } else {
      var e := Exec(b, before);
      var src := Source(e.writer);
      steps := WritesAll(b, before, k - 1);
      steps := More(b, steps, CopyIn);
    }
  }

  /** A whole message is sent. */
  lemma Sends(b: Buffer, before: seq<Step>, msg: Message) returns (steps: seq<Step>)
    requires Legal(b, before) && 0 < |msg| < 0x1_0000_0000
    requires var e := Exec(b, before);
      e.writer.Idle? && e.head < e.length == |e.bytes|
      && HEADER + |msg| <= SpacesAvailable(e.head, e.tail, e.length) <= e.length
    ensures Legal(b, steps)
    ensures var e := Exec(b, before);
      Exec(b, steps) == e.(head := Wrap(e.head + HEADER + |msg|, e.length), sent := e.sent + [msg],
        bytes := Laid(Laid(e.bytes, e.head, LengthBytes(|msg|), HEADER), Wrap(e.head + HEADER, e.length), msg, |msg|),
        stream := e.stream + LengthBytes(|msg|) + msg)
  {
    hide Legal, Exec, LengthBytes, SpacesAvailable, Laid;
    steps := More(b, before, BeginSend(msg));
    steps := WritesAll(b, steps, HEADER);
    steps := More(b, steps, PublishHead);
    steps := WritesAll(b, steps, |msg|);
    steps := More(b, steps, PublishHead);
  }

  lemma TakesByte(b: Buffer, before: seq<Step>, e: Buffer, got: seq<Byte>) returns (steps: seq<Step>)
    requires Legal(b, before) && Exec(b, before) == e.(reader := Length(9, 1, got))
    requires e.tail == 0 && |got| < HEADER < e.length == |e.bytes|
    ensures Legal(b, steps) && Exec(b, steps) == e.(reader := Length(9, 1, got + [e.bytes[|got|]]))
  {
    hide Legal, Exec;
    steps := More(b, before, CopyOut);
  }

  /** A receive reads the length of the message, five, and finds its own room too small. */
  lemma ReadsLength(b: Buffer, before: seq<Step>) returns (steps: seq<Step>)
    requires Legal(b, before)
    requires var e := Exec(b, before);
      e.reader.Waiting? && e.tail == 0 && e.taken == 0 && e.head == 9 && e.length == |e.bytes| == 11
      && e.bytes[..HEADER] == [5, 0, 0, 0]
    ensures Legal(b, steps)
    ensures Exec(b, steps) == Exec(b, before).(reader := Back(0), tail := 4, taken := 4)
  {
    hide Legal, Exec;
    var e := Exec(b, before);
    assert e.bytes[0] == 5 && e.bytes[1] == 0 && e.bytes[2] == 0 && e.bytes[3] == 0;
    assert [] + [5 as Byte] == [5] && [5] + [0 as Byte] == [5, 0] && [5, 0] + [0 as Byte] == [5, 0, 0];
    assert [5, 0, 0] + [0 as Byte] == [5, 0, 0, 0];
    steps := More(b, before, BeginReceive(1));
    assert Exec(b, steps) == e.(reader := Length(9, 1, []));
    steps := TakesByte(b, steps, e, []);
    steps := TakesByte(b, steps, e, [5]);
    steps := TakesByte(b, steps, e, [5, 0]);
    steps := TakesByte(b, steps, e, [5, 0, 0]);
    steps := More(b, steps, PublishTail);
  }

  /** It happens: a ring of 11 bytes, a message of five bytes for which the reader has no room, and a
      message of one byte sent before the reader puts the tail back. Nobody is inside any more, two
      messages have been sent and none received, and a receive finds nothing. */
  lemma TwoMessagesLost() returns (steps: seq<Step>)
    ensures Legal(Created(11), steps)
    ensures var b := Exec(Created(11), steps);
      && Inv(b) && Enabled(b, RollBack) && Overruns(b, RollBack)
      && var b' := Apply(b, RollBack);
         && b'.writer.Idle? && b'.reader.Waiting? && |b'.sent| == 2 && b'.received == []
         && forall room :: Apply(b', BeginReceive(room)) == b'
  {
    var b := Created(11);
    steps := [];
    assert Legal(b, steps) && Exec(b, steps) == b;
    hide Legal, Exec, Created, Inv, Apply;
    steps := SendsLong(b, steps);
    steps := ReadsLength(b, steps);
    steps := SendsShort(b, steps);
    LostInv();
    LostAll();
  }

  lemma SendsLong(b: Buffer, before: seq<Step>) returns (steps: seq<Step>)
    requires Legal(b, before) && Exec(b, before) == Created(11)
    ensures Legal(b, steps)
    ensures Exec(b, steps) == Buffer(11, [5, 0, 0, 0, 0, 0, 0, 0, 0, 0, 0], 9, 0, Idle, Waiting, [[0, 0, 0, 0, 0]], [],
                                     [5, 0, 0, 0, 0, 0, 0, 0, 0], 0)
  {
    hide Legal, Exec, Laid, LengthBytes;
    LaidBytes();
    steps := Sends(b, before, [0, 0, 0, 0, 0]);
  }

  lemma SendsShort(b: Buffer, before: seq<Step>) returns (steps: seq<Step>)
    requires Legal(b, before)
    requires Exec(b, before) == Buffer(11, [5, 0, 0, 0, 0, 0, 0, 0, 0, 0, 0], 9, 4, Idle, Back(0), [[0, 0, 0, 0, 0]], [],
                                       [5, 0, 0, 0, 0, 0, 0, 0, 0], 4)
    ensures Legal(b, steps) && Exec(b, steps) == Full()
  {
    hide Legal, Exec, Laid, LengthBytes;
    LaidBytes();
    steps := Sends(b, before, [7]);
  }

  lemma LostAll()
    ensures var b := Full();
      && Enabled(b, RollBack) && Overruns(b, RollBack)
      && var b' := Apply(b, RollBack);
         && b'.writer.Idle? && b'.reader.Waiting? && |b'.sent| == 2 && b'.received == []
         && forall room :: Apply(b', BeginReceive(room)) == b'
  {
    assert BytesInBuffer(3, 0, 11) == 3;
  }

  /** The state before the roll-back. */
  function Full(): Buffer {
    Buffer(11, [0, 0, 7, 0, 0, 0, 0, 0, 0, 1, 0], 3, 4, Idle, Back(0), [[0, 0, 0, 0, 0], [7]], [],
           [5, 0, 0, 0, 0, 0, 0, 0, 0, 1, 0, 0, 0, 7], 4)
  }

  lemma LostInv()
    ensures Inv(Full())
  {
    LostStream();
    LostRing();
    hide Frames, Holds, LengthBytes;
    assert Copies(Full()) == Full().stream;
  }

  lemma LaidBytes()
    ensures LengthBytes(5) == [5, 0, 0, 0] && LengthBytes(1) == [1, 0, 0, 0]
    ensures Laid(Created(11).bytes, 0, [5, 0, 0, 0], 4) == [5, 0, 0, 0, 0, 0, 0, 0, 0, 0, 0]
    ensures Laid([5, 0, 0, 0, 0, 0, 0, 0, 0, 0, 0], 4, [0, 0, 0, 0, 0], 5) == [5, 0, 0, 0, 0, 0, 0, 0, 0, 0, 0]
    ensures Laid([5, 0, 0, 0, 0, 0, 0, 0, 0, 0, 0], 9, [1, 0, 0, 0], 4) == [0, 0, 0, 0, 0, 0, 0, 0, 0, 1, 0]
    ensures Laid([0, 0, 0, 0, 0, 0, 0, 0, 0, 1, 0], 2, [7], 1) == [0, 0, 7, 0, 0, 0, 0, 0, 0, 1, 0]
  {
    assert Created(11).bytes == [0, 0, 0, 0, 0, 0, 0, 0, 0, 0, 0];
  }

  lemma LostRing()
    ensures Holds([0, 0, 7, 0, 0, 0, 0, 0, 0, 1, 0], 11, [5, 0, 0, 0, 0, 0, 0, 0, 0, 1, 0, 0, 0, 7])
  {
  }

  lemma LostStream()
    ensures Frames([]) == []
    ensures Frames([[0, 0, 0, 0, 0], [7]]) == [5, 0, 0, 0, 0, 0, 0, 0, 0, 1, 0, 0, 0, 7]
  {
    var long, short: Message := [0, 0, 0, 0, 0], [7];
    assert LengthBytes(5) == [5, 0, 0, 0] && LengthBytes(1) == [1, 0, 0, 0];
    hide LengthBytes;
    assert [long, short][..1] == [long] && [long][..0] == [];
    assert Frames([]) == [] && Frames([long]) == Frame(long) && Frames([long, short]) == Frame(long) + Frame(short);
  }
}
