/** The storage area of a queue: bytes used as a ring of item slots, and the ring used as a
    bounded double-ended queue. */
module QueueStorage {

  newtype Byte = x: int | 0 <= x < 256

  type Item = seq<Byte>

  datatype Position = SendToBack | SendToFront | Overwrite

  /** What a send does to the queued items. */
  function Sent(items: seq<Item>, item: Item, position: Position): seq<Item> {
    match position
    case SendToBack => items + [item]
    case SendToFront => [item] + items
    case Overwrite => [item]
  }

  // The ring of slots.

  /** The slot `i` places behind the head item when `read` is the slot read last. */
  function Behind(read: nat, i: nat, length: nat): (slot: nat)
    requires read < length && i <= length
    ensures slot < length
  {
    var n := read + 1 + i;
    if n < length then n else if n < 2 * length then n - length else n - 2 * length
  }

  lemma BehindIsModulo(read: nat, i: nat, length: nat)
    requires read < length && i <= length
    ensures Behind(read, i, length) == (read + 1 + i) % length
  {
    var n := read + 1 + i;
    if n >= length { DropModulus(n, length); }
    if n >= 2 * length { DropModulus(n - length, length); }
  }

  lemma DropModulus(n: nat, length: nat)
    requires n >= length > 0
    ensures n % length == (n - length) % length
  {
    var q, r := (n - length) / length, (n - length) % length;
    assert n == (q + 1) * length + r;
    QuotientUnique(n, length, q + 1, r);
  }

  lemma QuotientUnique(n: nat, d: nat, q: nat, r: nat)
    requires d > 0 && n == q * d + r && r < d
    ensures n % d == r
  {
    var k := q - n / d;
    assert k * d == n % d - r;
    assert k >= 1 ==> k * d >= d;
    assert k <= -1 ==> k * d + d <= 0;
  }

  lemma BehindStep(read: nat, i: nat, length: nat)
    requires read < length && i < length
    ensures Behind(Behind(read, 0, length), i, length) == Behind(read, i + 1, length)
  {
  }

  function Before(slot: nat, length: nat): (before: nat)
    requires slot < length
    ensures before < length
    ensures Behind(before, 0, length) == slot
  {
    if slot == 0 then length - 1 else slot - 1
  }

  /** The slots hold the queued items, head first, behind the slot read last. */
  ghost predicate Holds(slots: seq<Item>, read: nat, items: seq<Item>) {
    && read < |slots| && |items| <= |slots|
    && forall i {:trigger items[i]} :: 0 <= i < |items| ==> items[i] == slots[Behind(read, i, |slots|)]
  }

  lemma HoldsSentToBack(slots: seq<Item>, read: nat, items: seq<Item>, item: Item)
    requires Holds(slots, read, items) && |items| < |slots|
    ensures Holds(slots[Behind(read, |items|, |slots|) := item], read, Sent(items, item, SendToBack))
  {
    assert forall i :: 0 <= i < |items| ==> Behind(read, i, |slots|) != Behind(read, |items|, |slots|);
  }

  lemma HoldsSentToFront(slots: seq<Item>, read: nat, items: seq<Item>, item: Item)
    requires Holds(slots, read, items) && |items| < |slots|
    ensures Holds(slots[read := item], Before(read, |slots|), Sent(items, item, SendToFront))
  {
    assert forall i :: 0 <= i < |items| ==>
        && Behind(Before(read, |slots|), i + 1, |slots|) == Behind(read, i, |slots|)
        && Behind(read, i, |slots|) != read;
  }

  lemma HoldsReceived(slots: seq<Item>, read: nat, items: seq<Item>)
    requires Holds(slots, read, items) && items != []
    ensures Holds(slots, Behind(read, 0, |slots|), items[1..])
  {
    assert forall i :: 0 <= i < |items| - 1 ==>
        Behind(Behind(read, 0, |slots|), i, |slots|) == Behind(read, i + 1, |slots|);
  }

  // The bytes.

  /** Every slot is one item-sized stretch of the buffer, and together they fill it. */
  ghost predicate Cut(bytes: seq<Byte>, slots: seq<Item>, size: nat) {
    && |bytes| == Offset(|slots|, size)
    && forall k {:trigger slots[k]} :: 0 <= k < |slots| ==>
         && Offset(k, size) + size <= |bytes|
         && slots[k] == bytes[Offset(k, size)..Offset(k, size) + size]
  }

  lemma CutFilled(bytes: seq<Byte>, slots: seq<Item>, size: nat, slot: nat, item: Item)
    requires Cut(bytes, slots, size) && slot < |slots| && |item| == size
    ensures Offset(slot, size) + size <= |bytes|
    ensures Cut(bytes[..Offset(slot, size)] + item + bytes[Offset(slot, size) + size..], slots[slot := item], size)
  {
    assert slots[slot] == slots[slot];
    var at := Offset(slot, size);
    var after := bytes[..at] + item + bytes[at + size..];
    forall k: nat | k < |slots|
      ensures Offset(k, size) + size <= |after|
      ensures slots[slot := item][k] == after[Offset(k, size)..Offset(k, size) + size]
    {
      assert slots[k] == slots[k];
      if k < slot {
        OffsetsApart(k, slot, size);
        assert after[Offset(k, size)..Offset(k, size) + size] == bytes[Offset(k, size)..Offset(k, size) + size];
      } else if slot < k {
        OffsetsApart(slot, k, size);
        assert after[Offset(k, size)..Offset(k, size) + size] == bytes[Offset(k, size)..Offset(k, size) + size];
      }
    }
  }

  class Storage {
    const length: nat          // uxLength
    const itemSize: nat        // uxItemSize
    const buffer: array<Byte>  // pcHead up to pcTail
    var writeTo: nat           // pcWriteTo, as an offset from pcHead
    var readFrom: nat          // u.xQueue.pcReadFrom, likewise
    var messagesWaiting: nat
    ghost var read: nat          // the slot at pcReadFrom
    ghost var slots: seq<Item>
    ghost var items: seq<Item>   // the queued items, head first

    ghost predicate Valid()
      reads this, buffer
    {
      && Aligned()
      && Holds(slots, read, items) && messagesWaiting == |items|
      && readFrom == Offset(read, itemSize)
      && writeTo == Offset(Behind(read, messagesWaiting, length), itemSize)
    }

    ghost predicate Aligned()
      reads this`slots, buffer
    {
      |slots| == length && Cut(buffer[..], slots, itemSize)
    }

    /** prvInitialiseNewQueue and xQueueGenericReset for a new queue. */
    constructor (length: nat, itemSize: nat)
      requires length >= 1
      ensures Valid() && items == [] && fresh(buffer)
      ensures this.length == length && this.itemSize == itemSize
    {
      this.length, this.itemSize := length, itemSize;
      OffsetIsProduct(length, itemSize);
      OffsetIsProduct(length - 1, itemSize);
      buffer := new Byte[length * itemSize];
      writeTo, readFrom, messagesWaiting := 0, (length - 1) * itemSize, 0;
      read, items := length - 1, [];
      new;
      OffsetsInside(length, itemSize);
      slots := seq(length, k requires 0 <= k < length reads this, buffer
        requires Offset(k, this.itemSize) + this.itemSize <= buffer.Length
        => buffer[Offset(k, this.itemSize)..Offset(k, this.itemSize) + this.itemSize]);
    }

    /** Overwriting the token of a semaphore: its branch counts one item more and none less. */
    predicate Overfills(position: Position, waiting: nat)
    {
      itemSize == 0 && position == Overwrite && waiting > 0
    }

    /** prvCopyDataToQueue, for a queue that is not a mutex.  The queue stays well formed unless
        a semaphore is overwritten while its token is there. */
    method CopyToQueue(item: Item, position: Position)
      requires Valid() && |item| == itemSize
      requires messagesWaiting < length || position == Overwrite
      requires position == Overwrite ==> length == 1
      modifies this, buffer
      ensures items == Sent(old(items), item, position)
      ensures Valid() <==> !Overfills(position, old(messagesWaiting))
    {
      var waiting := messagesWaiting;
      if itemSize == 0 {
        SentNothing(item, position);
      } else if position == SendToBack {
        CopyToBack(item);
      } else {
        if position == Overwrite && waiting > 0 {
          items := [];
        }
        CopyToFront(item);
        if position == Overwrite {
          if waiting > 0 {
            waiting := waiting - 1;
          }
        }
      }
      messagesWaiting := waiting + 1;
    }

    /** All of Valid except that messagesWaiting is yet to be written. */
    ghost predicate Copied()
      reads this, buffer
    {
      && Aligned()
      && Holds(slots, read, items)
      && readFrom == Offset(read, itemSize)
      && writeTo == Offset(Behind(read, |items|, length), itemSize)
    }

    /** The branch that writes behind the last item and moves pcWriteTo forward. */
    method CopyToBack(item: Item)
      requires Copied() && |item| == itemSize > 0 && |items| < length
      modifies this`writeTo, this`slots, this`items, buffer
      ensures Copied() && items == Sent(old(items), item, SendToBack)
    {
      ghost var slot := Behind(read, |items|, length);
      HoldsSentToBack(slots, read, items, item);
      Fill(slot, writeTo, item);
      items := Sent(items, item, SendToBack);
      OffsetsApart(slot + 1, length, itemSize);
      writeTo := writeTo + itemSize;
      if writeTo >= buffer.Length {
        writeTo := 0;
      }
    }

    /** The branch that writes to the slot in front of the head item and moves pcReadFrom back. */
    method CopyToFront(item: Item)
      requires Copied() && |item| == itemSize > 0 && |items| < length
      modifies this`readFrom, this`read, this`slots, this`items, buffer
      ensures Copied() && items == Sent(old(items), item, SendToFront)
    {
      HoldsSentToFront(slots, read, items, item);
      Fill(read, readFrom, item);
      items := Sent(items, item, SendToFront);
      OffsetsApart(0, read, itemSize);
      if readFrom < itemSize {
        readFrom := buffer.Length - itemSize;
      } else {
        readFrom := readFrom - itemSize;
      }
      read := Before(read, length);
    }

    /** A semaphore has items of size 0: nothing is copied. */
    ghost method SentNothing(item: Item, position: Position)
      requires Copied() && |item| == itemSize == 0
      requires |items| < length || (position == Overwrite && length == 1)
      modifies this`items
      ensures Copied() && items == Sent(old(items), item, position)
    {
      items := Sent(items, item, position);
      EmptyOffsets(Behind(read, |old(items)|, length));
      EmptyOffsets(Behind(read, |items|, length));
    }

    /** prvCopyDataFromQueue: step to the head item and copy it out. */
    method CopyFromQueue() returns (item: Item)
      requires Valid() && messagesWaiting > 0
      modifies this`readFrom, this`read
      ensures item == items[0]
      ensures read == Behind(old(read), 0, length) && readFrom == Offset(read, itemSize)
    {
      if itemSize != 0 {
        OffsetsApart(read + 1, length, itemSize);
        readFrom := readFrom + itemSize;
        if readFrom >= buffer.Length {
          readFrom := 0;
        }
      } else {
        EmptyOffsets(Behind(read, 0, length));
        EmptyOffsets(read);
      }
      read := Behind(read, 0, length);
      assert slots[read] == items[0];
      item := buffer[readFrom..readFrom + itemSize];
    }

    /** The successful half of xQueueReceive. */
    method Receive() returns (item: Item)
      requires Valid() && messagesWaiting > 0
      modifies this`readFrom, this`read, this`messagesWaiting, this`items
      ensures Valid() && [item] + items == old(items)
    {
      hide Cut, Behind, Offset;
      BehindStep(read, messagesWaiting - 1, length);
      var waiting := messagesWaiting;
      HoldsReceived(slots, read, items);
      item := CopyFromQueue();
      messagesWaiting, items := waiting - 1, items[1..];
    }

    /** The successful half of xQueuePeek: the read position is put back. */
    method Peek() returns (item: Item)
      requires Valid() && messagesWaiting > 0
      modifies this`readFrom, this`read
      ensures Valid() && item == items[0]
      ensures readFrom == old(readFrom)
    {
      var originalReadPosition := readFrom;
      ghost var slot := read;
      item := CopyFromQueue();
      readFrom, read := originalReadPosition, slot;
    }

    /** memcpy of one item into a slot; no other slot changes. */
    method Fill(ghost slot: nat, offset: nat, item: Item)
      requires Aligned() && slot < length
      requires offset == Offset(slot, itemSize) && |item| == itemSize
      modifies buffer, this`slots
      ensures Aligned() && slots == old(slots)[slot := item]
    {
      CutFilled(buffer[..], slots, itemSize, slot, item);
      forall i | 0 <= i < itemSize {
        buffer[offset + i] := item[i];
      }
      assert buffer[..] == old(buffer[..offset]) + item + old(buffer[offset + itemSize..]);
      slots := slots[slot := item];
    }
  }

  /** The byte offset of slot `k`: k * size, written so that it only grows by whole slots. */
  ghost function Offset(k: nat, size: nat): nat {
    if k == 0 then 0 else Offset(k - 1, size) + size
  }

  lemma {:induction false} OffsetIsProduct(k: nat, size: nat)
    ensures Offset(k, size) == k * size
  {
    if k > 0 { OffsetIsProduct(k - 1, size); }
  }

  lemma {:induction false} OffsetsApart(j: nat, k: nat, size: nat)
    ensures j < k ==> Offset(j, size) + size <= Offset(k, size)
  {
    if j < k { OffsetsApart(j, k - 1, size); }
  }

  lemma OffsetsInside(length: nat, size: nat)
    ensures forall k: nat {:trigger Offset(k, size)} :: k < length ==> Offset(k, size) + size <= Offset(length, size)
  {
    forall k: nat | k < length ensures Offset(k, size) + size <= Offset(length, size) {
      OffsetsApart(k, length, size);
    }
  }

  lemma {:induction false} EmptyOffsets(k: nat)
    ensures Offset(k, 0) == 0
  {
    if k > 0 { EmptyOffsets(k - 1); }
  }
}
