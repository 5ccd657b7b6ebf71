/** The stream buffer of stream_buffer.c as a structure changed in place, each call in one piece: what
    its bytes and indices do to the stream of all bytes ever written. A write copies its bytes to the end of
    the ring and, if they do not all fit there, the rest to its beginning, and only then moves the head; a read
    does the same with the tail. The framed and unframed calls are built of these two. */
module StreamBufferControl {
  import opened StreamBuffer
  import opened StreamBufferRuns

  class StreamBufferBlock {
    const length: nat                  // xLength
    const buffer: array<Byte>          // pucBuffer
    const isMessageBuffer: bool        // sbFLAGS_IS_MESSAGE_BUFFER
    var head: nat                      // xHead
    var tail: nat                      // xTail
    ghost var stream: seq<Byte>        // every byte written
    ghost var taken: nat               // how many of them have been read

    ghost predicate Valid()
      reads this, buffer
    {
      && length > 0 && Holds(buffer[..], length, stream)
      && head == At(|stream|, length) && tail == At(taken, length)
      && taken <= |stream| < taken + length
    }

    /** prvInitialiseNewStreamBuffer. */
    constructor (length: nat, isMessageBuffer: bool)
      requires length > 0
      ensures Valid() && stream == [] && taken == 0 && fresh(buffer)
      ensures this.length == length && this.isMessageBuffer == isMessageBuffer
    {
      this.length, this.isMessageBuffer := length, isMessageBuffer;
      buffer := new Byte[length](_ => 0);
      head, tail, stream, taken := 0, 0, [], 0;
    }

    /** prvBytesInBuffer. */
    method BytesAvailable() returns (n: nat)
      requires Valid()
      ensures n == |stream| - taken
    {
      Counts(|stream|, taken, length);
      var count := length + head - tail;
      if count >= length {
        count := count - length;
      }
      n := count;
    }

    /** xStreamBufferSpacesAvailable. */
    method Spaces() returns (n: nat)
      requires Valid()
      ensures n == length - 1 - (|stream| - taken)
    {
      Counts(|stream|, taken, length);
      var space := length + tail - head - 1;
      if space >= length {
        space := space - length;
      }
      n := space;
    }

    /** memcpy into the buffer. */
    method CopyBytesIn(at: nat, data: seq<Byte>)
      requires at + |data| <= buffer.Length
      modifies buffer
      ensures forall k | 0 <= k < |data| :: buffer[at + k] == data[k]
      ensures forall i | 0 <= i < buffer.Length && !(at <= i < at + |data|) :: buffer[i] == old(buffer[i])
    {
      var k := 0;
      while k < |data|
        invariant k <= |data|
        invariant forall j | 0 <= j < k :: buffer[at + j] == data[j]
        invariant forall i | 0 <= i < buffer.Length && !(at <= i < at + k) :: buffer[i] == old(buffer[i])
      {
        buffer[at + k] := data[k];
        k := k + 1;
      }
    }

    /** prvWriteBytesToBuffer. */
    method WriteBytesToBuffer(data: seq<Byte>)
      requires Valid() && 0 < |data| && |stream| + |data| < taken + length
      modifies this`head, this`stream, buffer
      ensures Valid() && stream == old(stream) + data
    {
      hide At;
      ghost var before := buffer[..];
      var nextHead := head;
      var firstLength := if length - nextHead < |data| then length - nextHead else |data|;
      CopyBytesIn(nextHead, data[..firstLength]);
      if |data| > firstLength {
        CopyBytesIn(0, data[firstLength..]);
      }
      assert Written(before, buffer[..], length, head, data);
      HoldsAll(before, buffer[..], length, stream, data);
      WrapMod(|stream|, |data|, length);
      nextHead := nextHead + |data|;
      if nextHead >= length {
        nextHead := nextHead - length;
      }
      head := nextHead;
      stream := stream + data;
    }

    /** prvReadBytesFromBuffer. */
    method ReadBytesFromBuffer(maxCount: nat, bytesAvailable: nat) returns (data: seq<Byte>)
      requires Valid() && bytesAvailable <= |stream| - taken
      modifies this`tail, this`taken
      ensures Valid() && |data| == (if bytesAvailable < maxCount then bytesAvailable else maxCount)
      ensures taken == old(taken) + |data| && data == stream[old(taken)..taken]
    {
      hide At;
      var count := if bytesAvailable < maxCount then bytesAvailable else maxCount;
      data := [];
      if count > 0 {
        var nextTail := tail;
        var firstLength := if length - nextTail < count then length - nextTail else count;
        data := buffer[nextTail..nextTail + firstLength];
        if count > firstLength {
          data := data + buffer[..count - firstLength];
        }
        forall k | 0 <= k < count ensures data[k] == stream[taken + k] {
          WrapMod(taken, k, length);
          assert buffer[..][At(taken + k, length)] == stream[taken + k];
        }
        WrapMod(taken, count, length);
        nextTail := nextTail + count;
        if nextTail >= length {
          nextTail := nextTail - length;
        }
        tail := nextTail;
        taken := taken + count;
      }
    }

    /** prvWriteMessageToBuffer, with the space found before. A message buffer takes the whole message or
        nothing; a stream buffer takes what fits. */
    method WriteMessageToBuffer(data: seq<Byte>, space: nat) returns (n: nat)
      requires Valid() && 0 < |data| && space <= length - 1 - (|stream| - taken)
      modifies this`head, this`stream, buffer
      ensures Valid()
      ensures isMessageBuffer && space >= HEADER + |data| ==> n == |data| && stream == old(stream) + Frame(data)
      ensures isMessageBuffer && space < HEADER + |data| ==> n == 0 && stream == old(stream)
      ensures !isMessageBuffer ==> n == (if |data| < space then |data| else space) && stream == old(stream) + data[..n]
    {
      hide Holds, At, LengthBytes;
      if space == 0 {
        n := 0;
      } else if !isMessageBuffer {
        n := if |data| < space then |data| else space;
        WriteBytesToBuffer(data[..n]);
      } else if space >= HEADER + |data| {
        ghost var s := stream;
        WriteBytesToBuffer(LengthBytes(|data|));
        WriteBytesToBuffer(data);
        FrameParts(s, data);
        n := |data|;
      } else {
        n := 0;
      }
    }

    /** prvReadMessageFromBuffer. A message buffer, with a whole message m at its tail, delivers it, or keeps
        it if the room is too small; a stream buffer delivers the bytes it has, as far as there is room. */
    method ReadMessageFromBuffer(room: nat, bytesAvailable: nat, ghost m: Message) returns (data: seq<Byte>)
      requires Valid() && bytesAvailable <= |stream| - taken
      requires isMessageBuffer ==>
        |m| < 0x1_0000_0000 && HEADER + |m| <= bytesAvailable && stream[taken..taken + HEADER + |m|] == Frame(m)
      modifies this`tail, this`taken
      ensures Valid()
      ensures isMessageBuffer && |m| <= room ==> data == m && taken == old(taken) + HEADER + |m|
      ensures isMessageBuffer && |m| > room ==> data == [] && taken == old(taken) && tail == old(tail)
      ensures !isMessageBuffer ==>
        |data| == (if bytesAvailable < room then bytesAvailable else room)
        && taken == old(taken) + |data| && data == stream[old(taken)..taken]
    {
      hide Holds, At;
      if isMessageBuffer {
        data := ReadFramed(room, bytesAvailable, m);
      } else {
        data := ReadBytesFromBuffer(room, bytesAvailable);
      }
    }

    /** The branch for message buffers. */
    method ReadFramed(room: nat, bytesAvailable: nat, ghost m: Message) returns (data: seq<Byte>)
      requires Valid() && |m| < 0x1_0000_0000
      requires HEADER + |m| <= bytesAvailable <= |stream| - taken
      requires stream[taken..taken + HEADER + |m|] == Frame(m)
      modifies this`tail, this`taken
      ensures Valid()
      ensures |m| <= room ==> data == m && taken == old(taken) + HEADER + |m|
      ensures |m| > room ==> data == [] && taken == old(taken) && tail == old(tail)
    {
      hide Holds, At;
      ghost var start, s := taken, stream;
      assert s[start..start + HEADER] == Frame(m)[..HEADER];
      assert s[start + HEADER..start + HEADER + |m|] == Frame(m)[HEADER..];
      var originalTail := tail;
      var prefix := ReadBytesFromBuffer(HEADER, bytesAvailable);
      LengthRoundTrip(|m|);
      assert prefix == LengthBytes(|m|);
      hide LengthBytes, LengthOf;
      var next := LengthOf(prefix);
      if next > room {
        tail, taken := originalTail, start;
        next := 0;
        data := [];
      } else {
        data := ReadBytesFromBuffer(next, bytesAvailable - HEADER);
      }
    }
  }

  /** Index i is among the n that a write at `head` reaches. */
  predicate Reached(i: nat, head: nat, n: nat, length: nat) {
    if head + n <= length then head <= i < head + n else i >= head || i < head + n - length
  }

  /** The bytes of data are where a write at `head` puts them, and the others are as they were. */
  ghost predicate Written(before: seq<Byte>, after: seq<Byte>, length: nat, head: nat, data: seq<Byte>) {
    && |before| == |after| == length && head < length && |data| <= length
    && (forall k | 0 <= k < |data| :: after[Wrap(head + k, length)] == data[k])
    && (forall i | 0 <= i < length && !Reached(i, head, |data|, length) :: after[i] == before[i])
  }

  lemma HoldsAll(before: seq<Byte>, after: seq<Byte>, length: nat, s: seq<Byte>, data: seq<Byte>)
    requires Holds(before, length, s) && Written(before, after, length, At(|s|, length), data)
    ensures Holds(after, length, s + data)
  {
    hide At;
    var n, head := |s|, At(|s|, length);
    forall p | 0 <= p < n + |data| && p >= n + |data| - length ensures after[At(p, length)] == (s + data)[p] {
      var i := At(p, length);
      if p >= n {
        WrapMod(n, p - n, length);
        assert after[Wrap(head + (p - n), length)] == data[p - n];
      } else if Reached(i, head, |data|, length) {
        var k := if i >= head then i - head else i + length - head;
        WrapMod(n, k, length);
        Apart(p, n + k, length);
      }
    }
  }
}
