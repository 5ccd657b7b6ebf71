/** The storage of a queue: a ring of `length` slots of `itemSize` bytes each, in one byte array, with
    a write pointer and a read pointer that wrap at its end. It holds a double-ended queue of items. */
module QueueStorage {

  newtype Byte = b: int | 0 <= b < 256

  type Item = seq<Byte>

  /** queueSEND_TO_BACK, queueSEND_TO_FRONT, queueOVERWRITE. */
  datatype Position = Back | Front | Overwrite

  // ---- The double-ended queue ----

  predicate Room(d: seq<Item>, length: nat, p: Position) { |d| < length || p.Overwrite? }

  /** What a send leaves; nothing is sent when there is no room. */
  function Sent(d: seq<Item>, length: nat, item: Item, p: Position): seq<Item> {
    if !Room(d, length, p) then d
    else match p
      case Back => d + [item]
      case Front => [item] + d
      case Overwrite => [item]
  }

  datatype Op = Send(item: Item, p: Position) | Receive | Peek

  /** The queue after one call. */
  function After(d: seq<Item>, length: nat, op: Op): seq<Item> {
    match op
    case Send(item, p) => Sent(d, length, item, p)
    case Receive => if d == [] then d else d[1..]
    case Peek => d
  }

  /** What the call gets out of it. */
  function Got(d: seq<Item>, op: Op): seq<Item> { if op.Send? || d == [] then [] else [d[0]] }

  /** What it puts in. */
  function Put(d: seq<Item>, length: nat, op: Op): seq<Item> {
    if op.Send? && Room(d, length, op.p) then [op.item] else []
  }

  /** The items that a series of calls gets out of a queue, in order. */
  function Delivered(d: seq<Item>, length: nat, ops: seq<Op>): seq<Item>
    decreases |ops|
  {
    if ops == [] then [] else Got(d, ops[0]) + Delivered(After(d, length, ops[0]), length, ops[1..])
  }

  /** What is left in the queue. */
  function Remaining(d: seq<Item>, length: nat, ops: seq<Op>): seq<Item>
    decreases |ops|
  {
    if ops == [] then d else Remaining(After(d, length, ops[0]), length, ops[1..])
  }

  /** The items there was room for. */
  function Accepted(d: seq<Item>, length: nat, ops: seq<Op>): seq<Item>
    decreases |ops|
  {
    if ops == [] then [] else Put(d, length, ops[0]) + Accepted(After(d, length, ops[0]), length, ops[1..])
  }

  /** With sends to the back and receives, in any order, every item accepted comes out once, in the
      order it went in, or is still there. */
  lemma {:induction false} FirstInFirstOut(d: seq<Item>, length: nat, ops: seq<Op>)
    requires forall op <- ops :: op.Receive? || (op.Send? && op.p.Back?)
    ensures Delivered(d, length, ops) + Remaining(d, length, ops) == d + Accepted(d, length, ops)
    decreases |ops|
  {
    if ops != [] {
      var op, rest := ops[0], ops[1..];
      assert op in ops;
      var d' := After(d, length, op);
      FirstInFirstOut(d', length, rest);
      assert Got(d, op) + d' == d + Put(d, length, op);
      Regroup(Got(d, op), Delivered(d', length, rest), Remaining(d', length, rest), d', Accepted(d', length, rest));
      Associate(d, Put(d, length, op), Accepted(d', length, rest));
    }
  }

  lemma Regroup(a: seq<Item>, b: seq<Item>, c: seq<Item>, d: seq<Item>, e: seq<Item>)
    requires b + c == d + e
    ensures (a + b) + c == (a + d) + e
  {
    Associate(a, b, c);
    Associate(a, d, e);
  }

  lemma Associate(a: seq<Item>, b: seq<Item>, c: seq<Item>)
    ensures (a + b) + c == a + (b + c)
  {
  }

  /** With sends to the front a queue is a stack: what a receive gets is the last item accepted. */
  lemma LastInFirstOut(d: seq<Item>, length: nat, item: Item, ops: seq<Op>)
    requires |d| < length
    ensures Delivered(d, length, [Send(item, Front), Receive] + ops) == [item] + Delivered(d, length, ops)
  {
    var all := [Send(item, Front), Receive] + ops;
    assert all[1..] == [Receive] + ops && all[1..][1..] == ops;
    assert ([item] + d)[1..] == d;
  }

  // ---- Slots ----

  /** Position p of the ring, for p up to twice round. */
  function Wrap(p: nat, length: nat): nat { if p < length then p else p - length }

  predicate SlotHolds(bytes: seq<Byte>, size: nat, slot: nat, item: Item) {
    && |item| == size && slot * size + size <= |bytes|
    && forall b | 0 <= b < size :: bytes[slot * size + b] == item[b]
  }

  lemma Scale(a: nat, b: nat, size: nat)
    requires a < b
    ensures a * size + size <= b * size && (a + 1) * size == a * size + size
  {
    Spread(b - a - 1, size);
    assert b * size == a * size + size + (b - a - 1) * size;
  }

  lemma Spread(n: nat, size: nat)
    ensures n * size >= 0
  {
  }

  /** Writing one slot leaves the others. */
  lemma OtherSlot(before: seq<Byte>, after: seq<Byte>, size: nat, written: nat, slot: nat, item: Item)
    requires SlotHolds(before, size, slot, item) && slot != written && |after| == |before|
    requires forall i | 0 <= i < |after| && !(written * size <= i < written * size + size) :: after[i] == before[i]
    ensures SlotHolds(after, size, slot, item)
  {
    if slot < written { Scale(slot, written, size); } else { Scale(written, slot, size); }
  }

  class ByteQueue {
    const length: nat
    const itemSize: nat
    const storage: array<Byte>
    var writeTo: nat             // pcWriteTo - pcHead
    var readFrom: int            // u.pcReadFrom - pcHead
    var messagesWaiting: nat     // uxMessagesWaiting
    ghost var first: nat         // the slot after the one readFrom points at
    ghost var contents: seq<Item>

    ghost function SlotOf(k: nat): nat
      reads this
    {
      Wrap(first + k, length)
    }

    ghost predicate Valid()
      reads this, storage
    {
      && length > 0 && itemSize > 0 && storage.Length == length * itemSize
      && |contents| == messagesWaiting <= length && first < length
      && writeTo == SlotOf(messagesWaiting) * itemSize
      && readFrom == Before(first) * itemSize
      && forall k | 0 <= k < |contents| :: SlotHolds(storage[..], itemSize, SlotOf(k), contents[k])
    }

    /** xQueueGenericCreateStatic and xQueueGenericReset. */
    constructor (length: nat, itemSize: nat)
      requires length > 0 && itemSize > 0
      ensures Valid() && contents == [] && fresh(storage) && this.length == length && this.itemSize == itemSize
    {
      this.length, this.itemSize := length, itemSize;
      storage := new Byte[length * itemSize](_ => 0);
      writeTo, messagesWaiting := 0, 0;
      readFrom := (length - 1) * itemSize;
      first, contents := 0, [];
    }

    /** memcpy into the storage area. */
    method CopyIn(at: nat, item: Item)
      requires |item| == itemSize && at + itemSize <= storage.Length
      modifies storage
      ensures forall b | 0 <= b < itemSize :: storage[at + b] == item[b]
      ensures forall i | 0 <= i < storage.Length && !(at <= i < at + itemSize) :: storage[i] == old(storage[i])
    {
      var b := 0;
      while b < itemSize
        invariant b <= itemSize
        invariant forall i | 0 <= i < b :: storage[at + i] == item[i]
        invariant forall i | 0 <= i < storage.Length && !(at <= i < at + b) :: storage[i] == old(storage[i])
      {
        storage[at + b] := item[b];
        b := b + 1;
      }
    }

    /** A slot outside the contents is written: the contents stand. */
    lemma StillHolds(before: seq<Byte>, slot: nat)
      requires |before| == storage.Length && length > 0 && first < length && |contents| <= length
      requires forall k | 0 <= k < |contents| :: SlotHolds(before, itemSize, SlotOf(k), contents[k]) && SlotOf(k) != slot
      requires forall i | 0 <= i < storage.Length && !(slot * itemSize <= i < slot * itemSize + itemSize) ::
        storage[i] == before[i]
      ensures forall k | 0 <= k < |contents| :: SlotHolds(storage[..], itemSize, SlotOf(k), contents[k])
    {
      forall k | 0 <= k < |contents| ensures SlotHolds(storage[..], itemSize, SlotOf(k), contents[k]) {
        OtherSlot(before, storage[..], itemSize, slot, SlotOf(k), contents[k]);
      }
    }

    /** xQueueGenericSend's copy, with prvCopyDataToQueue. */
    method SendItem(item: Item, p: Position) returns (sent: bool)
      requires Valid() && |item| == itemSize && (p.Overwrite? ==> length == 1)
      modifies this, storage
      ensures Valid() && sent == Room(old(contents), length, p)
      ensures contents == Sent(old(contents), length, item, p)
    {
      sent := messagesWaiting < length || p.Overwrite?;
      if !sent { return; }
      if p.Back? {
        SendBack(item);
      } else {
        SendFront(item, p.Overwrite?);
      }
    }

    method SendBack(item: Item)
      requires Valid() && |item| == itemSize && messagesWaiting < length
      modifies this, storage
      ensures Valid() && contents == old(contents) + [item]
    {
      ghost var slot, before := SlotOf(messagesWaiting), storage[..];
      Scale(slot, length, itemSize);
      CopyIn(writeTo, item);
      StillHolds(before, slot);
      writeTo := writeTo + itemSize;
      if slot + 1 < length { Scale(slot + 1, length, itemSize); }
      if writeTo >= storage.Length {
        writeTo := 0;
      }
      contents := contents + [item];
      messagesWaiting := messagesWaiting + 1;
    }

    /** Also xQueueOverwrite, on a queue of one item. */
    method SendFront(item: Item, overwrite: bool)
      requires Valid() && |item| == itemSize
      requires if overwrite then length == 1 else messagesWaiting < length
      modifies this, storage
      ensures Valid() && contents == if overwrite then [item] else [item] + old(contents)
    {
      ghost var slot, before := Before(first), storage[..];
      var messages := messagesWaiting;
      SlotStart(slot);
      CopyIn(readFrom, item);
      if overwrite && messages > 0 {
        messages := messages - 1;
        contents := [];
      }
      StillHolds(before, slot);
      readFrom := readFrom - itemSize;
      if readFrom < 0 {
        readFrom := storage.Length - itemSize;
      }
      assert readFrom == Before(slot) * itemSize;
      assert SlotHolds(storage[..], itemSize, slot, item);
      Shifted(slot);
      first := slot;
      contents := [item] + contents;
      messagesWaiting := messages + 1;
    }

    /** The slot in front of one. */
    ghost function Before(slot: nat): nat
      requires length > 0
    {
      if slot == 0 then length - 1 else slot - 1
    }

    /** Where the slot before this one starts, and that this one is inside the storage. */
    lemma SlotStart(slot: nat)
      requires slot < length
      ensures slot * itemSize + itemSize <= length * itemSize
      ensures slot > 0 ==> slot * itemSize - itemSize == Before(slot) * itemSize
      ensures slot == 0 ==> Before(slot) * itemSize == length * itemSize - itemSize && slot * itemSize == 0
      ensures slot * itemSize >= 0
    {
      Scale(slot, length, itemSize);
      if slot > 0 { Scale(slot - 1, slot, itemSize); } else { Scale(length - 1, length, itemSize); }
      Spread(slot, itemSize);
    }

    /** Stepping `first` back moves every item one place up. */
    lemma Shifted(slot: nat)
      requires length > 0 && first < length && slot == Before(first)
      ensures forall k | 0 <= k < length :: Wrap(slot + (k + 1), length) == SlotOf(k)
    {
    }

    /** prvCopyDataFromQueue. */
    method CopyOut() returns (item: Item)
      requires Valid() && messagesWaiting > 0
      modifies this`readFrom
      ensures item == contents[0] && readFrom == first * itemSize
    {
      Scale(first, length, itemSize);
      if first > 0 { Scale(first - 1, first, itemSize); } else { Scale(length - 1, length, itemSize); }
      readFrom := readFrom + itemSize;
      if readFrom >= storage.Length {
        readFrom := 0;
      }
      assert SlotHolds(storage[..], itemSize, SlotOf(0), contents[0]);
      item := storage[readFrom..readFrom + itemSize];
    }

    /** xQueueReceive, where there is an item. */
    method ReceiveItem() returns (item: Item)
      requires Valid() && messagesWaiting > 0
      modifies this
      ensures Valid() && item == old(contents)[0] && contents == old(contents)[1..]
    {
      item := CopyOut();
      messagesWaiting := messagesWaiting - 1;
      first := Wrap(first + 1, length);
      contents := contents[1..];
      assert forall k | 0 <= k < |contents| :: SlotOf(k) == old(SlotOf(k + 1)) && contents[k] == old(contents)[k + 1];
    }

    /** xQueuePeek, where there is an item: the read pointer is put back. */
    method PeekItem() returns (item: Item)
      requires Valid() && messagesWaiting > 0
      modifies this`readFrom
      ensures Valid() && item == contents[0] && readFrom == old(readFrom)
    {
      var original := readFrom;
      item := CopyOut();
      readFrom := original;
    }
  }

  /** One call, as an application makes it. */
  method Perform(q: ByteQueue, op: Op) returns (got: seq<Item>)
    requires q.Valid()
    requires op.Send? ==> |op.item| == q.itemSize && (op.p.Overwrite? ==> q.length == 1)
    modifies q, q.storage
    ensures q.Valid() && got == Got(old(q.contents), op) && q.contents == After(old(q.contents), q.length, op)
  {
    got := [];
    if op.Send? {
      var _ := q.SendItem(op.item, op.p);
    } else if q.messagesWaiting > 0 {
      var item;
      if op.Receive? {
        item := q.ReceiveItem();
      } else {
        item := q.PeekItem();
      }
      got := [item];
    }
  }

  /** Whatever calls are made, the bytes that come out of the ring are those of the double-ended queue. */
  method RunScript(q: ByteQueue, ops: seq<Op>) returns (out: seq<Item>)
    requires q.Valid()
    requires forall op <- ops :: op.Send? ==> |op.item| == q.itemSize && (op.p.Overwrite? ==> q.length == 1)
    modifies q, q.storage
    ensures q.Valid() && out == Delivered(old(q.contents), q.length, ops)
    ensures q.contents == Remaining(old(q.contents), q.length, ops)
  {
    hide After, Got;
    out := [];
    var i := 0;
    assert ops[0..] == ops;
    while i < |ops|
      invariant i <= |ops| && q.Valid()
      invariant Delivered(old(q.contents), q.length, ops) == out + Delivered(q.contents, q.length, ops[i..])
      invariant Remaining(old(q.contents), q.length, ops) == Remaining(q.contents, q.length, ops[i..])
    {
      ghost var d := q.contents;
      assert ops[i] in ops && ops[i..][0] == ops[i] && ops[i..][1..] == ops[i + 1..];
      var got := Perform(q, ops[i]);
      Associate(out, got, Delivered(q.contents, q.length, ops[i + 1..]));
      out := out + got;
      i := i + 1;
    }
  }
}
