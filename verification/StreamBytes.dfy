/** Every interleaving of the writer and the reader of a stream buffer delivers its bytes in order, none of
    them lost, changed or doubled. Nothing frames the bytes here: a send writes as many as there is space
    for, and a receive takes as many as there are, up to its room. */
module StreamBytes {
  import opened StreamBuffer
  import opened StreamBufferRuns

  /** prvWriteBytesToBuffer: what it is copying, and how much of that it has copied. */
  datatype Sending = Free | Filling(data: seq<Byte>, i: nat)

  /** prvReadBytesFromBuffer: how much it is to copy, and what it has. */
  datatype Receiving = Done | Emptying(n: nat, got: seq<Byte>)

  datatype Stream = Stream(
    length: nat, bytes: seq<Byte>, head: nat, tail: nat,
    writer: Sending, reader: Receiving,
    sent: seq<Byte>,               // every byte xHead has passed: not in the source
    received: seq<Byte>            // every byte handed to the reader: not in the source
  )

  datatype Move =
    | Send(data: seq<Byte>)        // up to where the number of bytes to write is known
    | FillOne                      // one byte is copied in
    | MoveHead
    | Receive(room: nat)           // up to where the number of bytes to read is known
    | EmptyOne                     // one byte is copied out
    | MoveTail

  function Least(a: int, b: int): int { if a < b then a else b }

  predicate CanMove(b: Stream, m: Move) {
    match m
    case Send(data) => b.writer.Free? && data != []
    case FillOne => b.writer.Filling? && b.writer.i < |b.writer.data|
    case MoveHead => b.writer.Filling? && b.writer.i == |b.writer.data|
    case Receive(_) => b.reader.Done?
    case EmptyOne => b.reader.Emptying? && |b.reader.got| < b.reader.n
    case MoveTail => b.reader.Emptying? && |b.reader.got| == b.reader.n
  }

  function Moved(b: Stream, m: Move): Stream
    requires CanMove(b, m)
  {
    match m
    case Send(data) =>
      var n := Least(|data|, SpacesAvailable(b.head, b.tail, b.length));
      if n > 0 then b.(writer := Filling(data[..n], 0)) else b
    case FillOne =>
      var i := Wrap(b.head + b.writer.i, b.length);
      if i >= |b.bytes| then b
      else b.(bytes := b.bytes[i := b.writer.data[b.writer.i]], writer := Filling(b.writer.data, b.writer.i + 1))
    case MoveHead =>
      b.(head := Wrap(b.head + |b.writer.data|, b.length), writer := Free, sent := b.sent + b.writer.data)
    case Receive(room) =>
      var n := Least(BytesInBuffer(b.head, b.tail, b.length), room);
      if n > 0 then b.(reader := Emptying(n, [])) else b
    case EmptyOne =>
      var i := Wrap(b.tail + |b.reader.got|, b.length);
      if i >= |b.bytes| then b else b.(reader := Emptying(b.reader.n, b.reader.got + [b.bytes[i]]))
    case MoveTail =>
      b.(tail := Wrap(b.tail + b.reader.n, b.length), reader := Done, received := b.received + b.reader.got)
  }

  // ---- The invariant ----

  /** Every byte copied in so far. */
  function Written(b: Stream): seq<Byte> {
    b.sent + if b.writer.Filling? && b.writer.i <= |b.writer.data| then b.writer.data[..b.writer.i] else []
  }

  predicate SenderOk(b: Stream) {
    b.writer.Filling? ==>
      b.writer.i <= |b.writer.data| && |b.sent| + |b.writer.data| < |b.received| + b.length
  }

  predicate ReceiverOk(b: Stream) {
    b.received + (if b.reader.Emptying? then b.reader.got else []) <= b.sent
    && (b.reader.Emptying? ==> |b.reader.got| <= b.reader.n && |b.received| + b.reader.n <= |b.sent|)
  }

  ghost predicate Whole(b: Stream) {
    && b.length > 0 && Holds(b.bytes, b.length, Written(b))
    && b.head == At(|b.sent|, b.length) && b.tail == At(|b.received|, b.length)
    && |b.sent| < |b.received| + b.length && SenderOk(b) && ReceiverOk(b)
  }

  // ---- Every move ----

  lemma SendWhole(b: Stream, data: seq<Byte>)
    requires Whole(b) && CanMove(b, Send(data))
    ensures Whole(Moved(b, Send(data)))
  {
    hide Holds, At;
    Counts(|b.sent|, |b.received|, b.length);
    assert Written(Moved(b, Send(data))) == Written(b);
  }

  lemma FillWhole(b: Stream)
    requires Whole(b) && CanMove(b, FillOne)
    ensures Whole(Moved(b, FillOne))
  {
    hide Holds, At;
    var data, i := b.writer.data, b.writer.i;
    WrapMod(|b.sent|, i, b.length);
    assert |Written(b)| == |b.sent| + i;
    HoldsMore(b.bytes, b.length, Written(b), data[i]);
    assert |b.bytes| == b.length by { HoldsLength(b.bytes, b.length, Written(b)); }
    assert data[..i + 1] == data[..i] + [data[i]];
    hide Wrap;
    assert Written(Moved(b, FillOne)) == Written(b) + [data[i]];
  }

  lemma HoldsLength(bytes: seq<Byte>, length: nat, s: seq<Byte>)
    requires Holds(bytes, length, s)
    ensures |bytes| == length
  {
  }

  lemma MoveHeadWhole(b: Stream)
    requires Whole(b) && CanMove(b, MoveHead)
    ensures Whole(Moved(b, MoveHead))
  {
    hide Holds, At, Wrap;
    WrapMod(|b.sent|, |b.writer.data|, b.length);
    assert Written(Moved(b, MoveHead)) == Written(b);
  }

  lemma ReceiveWhole(b: Stream, room: nat)
    requires Whole(b) && CanMove(b, Receive(room))
    ensures Whole(Moved(b, Receive(room)))
  {
    hide Holds, At;
    Counts(|b.sent|, |b.received|, b.length);
  }

  lemma EmptyWhole(b: Stream)
    requires Whole(b) && CanMove(b, EmptyOne)
    ensures Whole(Moved(b, EmptyOne)) && Moved(b, EmptyOne) != b
  {
    hide At;
    var p := |b.received| + |b.reader.got|;
    WrapMod(|b.received|, |b.reader.got|, b.length);
    assert Written(b)[p] == b.sent[p];
    assert b.bytes[At(p, b.length)] == b.sent[p];
    hide Holds, Wrap;
    NextOf(b.sent, b.received + b.reader.got);
    assert b.received + (b.reader.got + [b.sent[p]]) == b.received + b.reader.got + [b.sent[p]];
  }

  lemma NextOf(s: seq<Byte>, a: seq<Byte>)
    requires a <= s && |a| < |s|
    ensures a + [s[|a|]] <= s
  {
  }

  lemma MoveTailWhole(b: Stream)
    requires Whole(b) && CanMove(b, MoveTail)
    ensures Whole(Moved(b, MoveTail))
  {
    hide Holds, At, Wrap;
    WrapMod(|b.received|, b.reader.n, b.length);
    assert Written(Moved(b, MoveTail)) == Written(b);
  }

  /** Every move of either side keeps the ring whole. */
  lemma MoveKept(b: Stream, m: Move)
    requires Whole(b) && CanMove(b, m)
    ensures Whole(Moved(b, m))
  {
    hide Whole, Moved;
    match m {
      case Send(data) => SendWhole(b, data);
      case FillOne => FillWhole(b);
      case MoveHead => MoveHeadWhole(b);
      case Receive(room) => ReceiveWhole(b, room);
      case EmptyOne => EmptyWhole(b);
      case MoveTail => MoveTailWhole(b);
    }
  }

  // ---- Runs ----

  predicate Possible(b: Stream, moves: seq<Move>)
    decreases |moves|
  {
    moves == [] || (CanMove(b, moves[0]) && Possible(Moved(b, moves[0]), moves[1..]))
  }

  function After(b: Stream, moves: seq<Move>): Stream
    requires Possible(b, moves)
    decreases |moves|
  {
    if moves == [] then b else After(Moved(b, moves[0]), moves[1..])
  }

  /** xStreamBufferCreateStatic. */
  function Fresh(length: nat): Stream { Stream(length, seq(length, _ => 0), 0, 0, Free, Done, [], []) }

  lemma {:induction false} RunWhole(b: Stream, moves: seq<Move>)
    requires Whole(b) && Possible(b, moves)
    ensures Whole(After(b, moves))
    decreases |moves|
  {
    hide Whole, Moved;
    if moves != [] {
      MoveKept(b, moves[0]);
      RunWhole(Moved(b, moves[0]), moves[1..]);
    }
  }

  /** However the writer and the reader interleave, the bytes received are a prefix of the bytes sent. */
  lemma BytesInOrder(length: nat, moves: seq<Move>)
    requires length > 0 && Possible(Fresh(length), moves)
    ensures var b := After(Fresh(length), moves); b.received <= b.sent
  {
    assert Written(Fresh(length)) == [];
    RunWhole(Fresh(length), moves);
  }

  /** And none is stuck: with both sides outside, a receive takes exactly the next bytes, as many as are sent
      and not received, up to its room; and a send writes as many as the ring then has places for. */
  lemma NextBytes(length: nat, moves: seq<Move>, room: nat, data: seq<Byte>)
    requires length > 0 && Possible(Fresh(length), moves) && data != []
    requires var b := After(Fresh(length), moves); b.writer.Free? && b.reader.Done?
    ensures var b := After(Fresh(length), moves);
      && var n, k := Least(|b.sent| - |b.received|, room), Least(|data|, length - 1 - (|b.sent| - |b.received|));
      && (n > 0 ==> Moved(b, Receive(room)) == b.(reader := Emptying(n, [])))
      && (n == 0 ==> Moved(b, Receive(room)) == b)
      && 0 <= k && (k > 0 ==> Moved(b, Send(data)) == b.(writer := Filling(data[..k], 0)))
      && (k == 0 ==> Moved(b, Send(data)) == b)
  {
    assert Written(Fresh(length)) == [];
    RunWhole(Fresh(length), moves);
    SameLength(Fresh(length), moves);
    var b := After(Fresh(length), moves);
    Counts(|b.sent|, |b.received|, b.length);
    hide Holds, At, After, Possible;
  }

  lemma {:induction false} SameLength(b: Stream, moves: seq<Move>)
    requires Possible(b, moves)
    ensures After(b, moves).length == b.length
    decreases |moves|
  {
    if moves != [] { SameLength(Moved(b, moves[0]), moves[1..]); }
  }

  // ---- What calls take on is done ----

  /** The bytes a send takes on: as many as the ring has places for, one place staying empty. */
  function TakenOn(b: Stream, m: Move): seq<Byte> {
    if !m.Send? then [] else
    var k := Least(|m.data|, b.length - 1 - (|b.sent| - |b.received|));
    if k > 0 then m.data[..k] else []
  }

  /** How many bytes a receive takes on: those sent and not received, up to its room. */
  function ToRead(b: Stream, m: Move): nat {
    if m.Receive? && |b.received| <= |b.sent| then Least(|b.sent| - |b.received|, m.room) else 0
  }

  function InHand(b: Stream): seq<Byte> { if b.writer.Filling? then b.writer.data else [] }

  function Promised(b: Stream): nat { if b.reader.Emptying? then b.reader.n else 0 }

  lemma MoveExact(b: Stream, m: Move)
    requires Whole(b) && CanMove(b, m)
    ensures var b' := Moved(b, m);
      && b'.sent + InHand(b') == b.sent + InHand(b) + TakenOn(b, m)
      && |b'.received| + Promised(b') == |b.received| + Promised(b) + ToRead(b, m)
  {
    Counts(|b.sent|, |b.received|, b.length);
    hide Holds, At, Wrap;
  }

  function AllTakenOn(b: Stream, moves: seq<Move>): seq<Byte>
    requires Possible(b, moves)
    decreases |moves|
  {
    if moves == [] then [] else TakenOn(b, moves[0]) + AllTakenOn(Moved(b, moves[0]), moves[1..])
  }

  function AllToRead(b: Stream, moves: seq<Move>): nat
    requires Possible(b, moves)
    decreases |moves|
  {
    if moves == [] then 0 else ToRead(b, moves[0]) + AllToRead(Moved(b, moves[0]), moves[1..])
  }

  /** Over a run, the bytes sent and in hand are exactly those the sends took on, and as many are received, or about to
      be, as the receives took on. */
  lemma {:induction false} AllDone(b: Stream, moves: seq<Move>)
    requires Whole(b) && Possible(b, moves)
    ensures var b' := After(b, moves);
      && b'.sent + InHand(b') == b.sent + InHand(b) + AllTakenOn(b, moves)
      && |b'.received| + Promised(b') == |b.received| + Promised(b) + AllToRead(b, moves)
    decreases |moves|
  {
    hide Whole, Moved, CanMove, InHand, Promised, TakenOn, ToRead;
    if moves != [] {
      MoveExact(b, moves[0]);
      MoveKept(b, moves[0]);
      AllDone(Moved(b, moves[0]), moves[1..]);
    }
  }
}
