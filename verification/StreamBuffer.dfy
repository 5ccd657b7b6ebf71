/** Message buffers (stream_buffer.c): one writer and one reader share a ring of bytes, with no lock.
    Each message is stored as its length in four bytes and then its data. The writer moves xHead and
    the reader xTail, each of them twice a message; the bytes are copied one at a time in between. */
module StreamBuffer {

  newtype Byte = b: int | 0 <= b < 256

  type Message = seq<Byte>

  // ---- Framing ----

  /** sbBYTES_TO_STORE_MESSAGE_LENGTH. */
  const HEADER: int := 4

  /** A 32-bit length as it lies in memory. */
  function LengthBytes(n: nat): (s: seq<Byte>)
    ensures |s| == HEADER
  {
    [(n % 256) as Byte, (n / 256 % 256) as Byte, (n / 0x1_0000 % 256) as Byte, (n / 0x100_0000 % 256) as Byte]
  }

  function LengthOf(s: seq<Byte>): nat
    requires |s| == HEADER
  {
    s[0] as nat + s[1] as nat * 256 + s[2] as nat * 0x1_0000 + s[3] as nat * 0x100_0000
  }

  lemma LengthRoundTrip(n: nat)
    requires n < 0x1_0000_0000
    ensures LengthOf(LengthBytes(n)) == n
  {
    Digit(n, 256);
    Digit(n / 256, 256);
    Digit(n / 0x1_0000, 256);
    assert n / 256 / 256 == n / 0x1_0000 && n / 0x1_0000 / 256 == n / 0x100_0000;
  }

  lemma Digit(n: nat, d: nat)
    requires d > 0
    ensures n == n / d * d + n % d
  {
  }

  function Frame(m: Message): seq<Byte> { LengthBytes(|m|) + m }

  /** The bytes of a sequence of messages. */
  function Frames(ms: seq<Message>): seq<Byte> {
    if ms == [] then [] else Frames(ms[..|ms| - 1]) + Frame(ms[|ms| - 1])
  }

  // ---- The ring ----

  /** Position k past an index. */
  function Wrap(i: nat, length: nat): nat { if i < length then i else i - length }

  /** Where byte p of the stream lies. */
  function At(p: nat, length: nat): (i: nat)
    requires length > 0
    ensures i < length
  {
    p % length
  }

  /** prvBytesInBuffer. */
  function BytesInBuffer(head: nat, tail: nat, length: nat): int {
    var n := length + head - tail;
    if n >= length then n - length else n
  }

  /** xStreamBufferSpacesAvailable. */
  function SpacesAvailable(head: nat, tail: nat, length: nat): int {
    var n := length + tail - head - 1;
    if n >= length then n - length else n
  }

  // ---- Writer and reader ----

  /** prvWriteMessageToBuffer: which bytes it is copying, and how many it has copied. */
  datatype Writer =
    | Idle
    | Header(msg: Message, i: nat)
    | Data(msg: Message, i: nat)

  /** prvReadMessageFromBuffer: the bytes available at the start, the room in the caller's buffer, and
      the bytes copied out so far. */
  datatype Reader =
    | Waiting
    | Length(available: nat, room: nat, got: seq<Byte>)
    | Content(n: nat, available: nat, got: seq<Byte>)
    | Back(original: nat)          // the message is too long: xTail is to go back

  datatype Buffer = Buffer(
    length: nat,                   // xLength
    bytes: seq<Byte>,              // pucBuffer
    head: nat, tail: nat,          // xHead, xTail
    writer: Writer, reader: Reader,
    sent: seq<Message>,            // messages whose send has finished
    received: seq<Message>,        // messages handed to the reader
    stream: seq<Byte>,             // every byte xHead has passed: not in the source
    taken: nat                     // how many of them xTail has passed: not in the source
  )

  datatype Step =
    | BeginSend(msg: Message)
    | CopyIn                       // the writer copies one byte
    | PublishHead
    | BeginReceive(room: nat)
    | CopyOut                      // the reader copies one byte
    | PublishTail
    | RollBack

  function Source(w: Writer): seq<Byte> {
    match w
    case Idle => []
    case Header(msg, _) => LengthBytes(|msg|)
    case Data(msg, _) => msg
  }

  function Copied(w: Writer): nat { if w.Idle? then 0 else w.i }

  /** How many bytes the reader copies before it moves xTail. */
  function Goal(r: Reader): nat {
    match r
    case Length(_, _, _) => HEADER
    case Content(n, available, _) => if n < available then n else available
    case _ => 0
  }

  function Got(r: Reader): seq<Byte> { if r.Length? || r.Content? then r.got else [] }

  predicate Enabled(b: Buffer, step: Step) {
    match step
    // a message has at least one byte, and its length fits the header
    case BeginSend(msg) => b.writer.Idle? && 0 < |msg| < 0x1_0000_0000
    case CopyIn => Copied(b.writer) < |Source(b.writer)|
    case PublishHead => !b.writer.Idle? && b.writer.i == |Source(b.writer)|
    case BeginReceive(_) => b.reader.Waiting?
    case CopyOut => |Got(b.reader)| < Goal(b.reader)
    case PublishTail => (b.reader.Length? || b.reader.Content?) && |b.reader.got| == Goal(b.reader)
    case RollBack => b.reader.Back?
  }

  function Apply(b: Buffer, step: Step): Buffer
    requires Enabled(b, step)
  {
    match step
    case BeginSend(msg) =>
      if SpacesAvailable(b.head, b.tail, b.length) >= HEADER + |msg| then b.(writer := Header(msg, 0)) else b
    case CopyIn =>
      var i := Wrap(b.head + b.writer.i, b.length);
      if i >= |b.bytes| then b
      else b.(bytes := b.bytes[i := Source(b.writer)[b.writer.i]], writer := b.writer.(i := b.writer.i + 1))
    case PublishHead =>
      var src := Source(b.writer);
      var b1 := b.(head := Wrap(b.head + |src|, b.length), stream := b.stream + src);
      if b.writer.Header? then b1.(writer := Data(b.writer.msg, 0))
      else b1.(writer := Idle, sent := b.sent + [b.writer.msg])
    case BeginReceive(room) =>
      var n := BytesInBuffer(b.head, b.tail, b.length);
      if n > HEADER then b.(reader := Length(n, room, [])) else b
    case CopyOut =>
      var i := Wrap(b.tail + |b.reader.got|, b.length);
      if i >= |b.bytes| then b else b.(reader := b.reader.(got := b.reader.got + [b.bytes[i]]))
    case PublishTail =>
      var k := |b.reader.got|;
      var b1 := b.(tail := Wrap(b.tail + k, b.length), taken := b.taken + k);
      if b.reader.Content? then b1.(reader := Waiting, received := b.received + [b.reader.got])
      else
        var n := LengthOf(b.reader.got);
        if n > b.reader.room then b1.(reader := Back(b.tail))
        else b1.(reader := Content(n, if b.reader.available > HEADER then b.reader.available - HEADER else 0, []))
    case RollBack =>
      b.(tail := b.reader.original, taken := if b.taken < HEADER then 0 else b.taken - HEADER, reader := Waiting)
  }

  // ---- The invariant ----

  /** Bytes the writer may still copy beyond the stream. */
  function Reserved(w: Writer): nat {
    match w
    case Idle => 0
    case Header(msg, _) => HEADER + |msg|
    case Data(msg, _) => |msg|
  }

  /** Every byte copied in so far. */
  function Copies(b: Buffer): seq<Byte> {
    var src := Source(b.writer);
    b.stream + if Copied(b.writer) <= |src| then src[..Copied(b.writer)] else []
  }

  /** The ring holds the last `length` bytes of s. */
  ghost predicate Holds(bytes: seq<Byte>, length: nat, s: seq<Byte>) {
    |bytes| == length && length > 0 && forall p | 0 <= p < |s| && p >= |s| - length :: bytes[At(p, length)] == s[p]
  }

  ghost predicate WriterOk(b: Buffer) {
    match b.writer
    case Idle => b.stream == Frames(b.sent)
    case Header(msg, i) => b.stream == Frames(b.sent) && i <= HEADER && 0 < |msg| < 0x1_0000_0000
    case Data(msg, i) => b.stream == Frames(b.sent) + LengthBytes(|msg|) && i <= |msg| && 0 < |msg| < 0x1_0000_0000
  }

  /** The next message is complete in the stream, and the reader has copied `got` of it. */
  ghost predicate ReaderOk(b: Buffer) {
    var r, start := |b.received|, |Frames(b.received)|;
    match b.reader
    case Waiting => b.taken == start
    case Length(available, _, got) =>
      && b.taken == start && r < |b.sent| && HEADER + |b.sent[r]| <= available
      && |got| <= HEADER && got == LengthBytes(|b.sent[r]|)[..|got|]
    case Content(n, available, got) =>
      && b.taken == start + HEADER && r < |b.sent| && n == |b.sent[r]| <= available
      && |got| <= n && got == b.sent[r][..|got|]
    case Back(original) => b.taken == start + HEADER && b.length > 0 && original == At(start, b.length) && r < |b.sent|
  }

  ghost predicate Inv(b: Buffer) {
    && b.length > 0 && Holds(b.bytes, b.length, Copies(b))
    && b.head == At(|b.stream|, b.length) && b.tail == At(b.taken, b.length)
    && b.taken <= |b.stream| && |b.stream| + Reserved(b.writer) < b.taken + b.length
    && (forall m <- b.sent :: 0 < |m| < 0x1_0000_0000)
    && b.received <= b.sent && (!b.reader.Waiting? ==> b.length > HEADER)
    && WriterOk(b) && ReaderOk(b)
  }

  /** Rolling the tail back takes space from under the writer: since the reader moved xTail over the
      length, a send has begun that counts on those four bytes. */
  predicate Overruns(b: Buffer, step: Step) {
    step.RollBack? && |b.stream| + Reserved(b.writer) + HEADER >= b.taken + b.length
  }
}
