/** The ring buffers of the kernel: id rings (ready queues and waiter queues) and the byte ring of a
    message queue, each proved to be a FIFO of its contents. */
module Rings {
  import opened KernelSpec
  import opened PrimitivesSpec

  /** i modulo n for i below 2n. */
  function Wrap(i: nat, n: nat): nat
    requires i < 2 * n
  {
    if i < n then i else i - n
  }

  /** The slot after i, as the C code computes it. */
  function NextSlot(i: nat, n: nat): (r: nat)
    requires i < n
    ensures r == Wrap(i + 1, n)
  {
    WrapIsMod(i + 1, n);
    (i + 1) % n
  }

  lemma WrapIsMod(i: nat, n: nat)
    requires i < 2 * n
    ensures Wrap(i, n) == i % n
  {
    if i >= n {
      assert i == 1 * n + (i - n);
    }
  }

  /** The count ids that start at slot head, wrapping around. */
  ghost function Unroll(slots: seq<nat>, head: nat, count: nat): seq<nat>
    requires head < |slots| && count <= |slots|
  {
    seq(count, i requires 0 <= i < count => slots[Wrap(head + i, |slots|)])
  }

  lemma UnrollPush(slots: seq<nat>, slots1: seq<nat>, head: nat, count: nat, id: nat)
    requires head < |slots| && count < |slots| && slots1 == slots[Wrap(head + count, |slots|) := id]
    ensures Unroll(slots1, head, count + 1) == Unroll(slots, head, count) + [id]
  {
    var a, b := Unroll(slots1, head, count + 1), Unroll(slots, head, count) + [id];
    forall i | 0 <= i < count + 1
      ensures a[i] == b[i]
    {
      assert a[i] == slots1[Wrap(head + i, |slots|)];
    }
  }

  lemma UnrollPop(slots: seq<nat>, head: nat, count: nat)
    requires head < |slots| && 0 < count <= |slots|
    ensures Unroll(slots, Wrap(head + 1, |slots|), count - 1) == Unroll(slots, head, count)[1..]
    ensures Unroll(slots, head, count)[0] == slots[head]
  {
    var a, b := Unroll(slots, Wrap(head + 1, |slots|), count - 1), Unroll(slots, head, count)[1..];
    forall i | 0 <= i < count - 1
      ensures a[i] == b[i]
    {
      assert a[i] == slots[Wrap(Wrap(head + 1, |slots|) + i, |slots|)];
      assert b[i] == slots[Wrap(head + (i + 1), |slots|)];
    }
    assert Unroll(slots, head, count)[0] == slots[Wrap(head + 0, |slots|)];
  }

  /** prio_q_t and the waiter rings of semaphores, mutexes and queues. */
  class IdRing {
    const slots: array<nat>
    var head: nat
    var tail: nat
    var count: nat

    ghost predicate Valid()
      reads this, slots
    {
      && 0 < slots.Length <= 255 && head < slots.Length && count <= slots.Length
      && tail == Wrap(head + count, slots.Length)
      && forall x :: x in Unroll(slots[..], head, count) ==> x < slots.Length
    }

    ghost function Contents(): (c: seq<nat>)
      requires Valid()
      reads this, slots
      ensures c != [] ==> c[0] < slots.Length
    {
      assert count > 0 ==> Unroll(slots[..], head, count)[0] in Unroll(slots[..], head, count);
      Unroll(slots[..], head, count)
    }

    constructor (n: nat)
      requires 0 < n <= 255
      ensures Valid() && fresh(slots) && slots.Length == n && Contents() == []
    {
      slots := new nat[n];
      head, tail, count := 0, 0, 0;
    }

    /** Appends id; a full ring drops it. */
    method Push(id: nat)
      requires Valid() && id < slots.Length
      modifies this, slots
      ensures Valid()
      ensures Contents() == WaitPush(old(Contents()), id, slots.Length)
      ensures Contents() == if old(count) == slots.Length then old(Contents()) else old(Contents()) + [id]
    {
      if count >= slots.Length {
        return;
      }
      ghost var before, h, c := slots[..], head, count;
      slots[tail] := id % 0x100;
      tail := NextSlot(tail, slots.Length);
      count := count + 1;
      UnrollPush(before, slots[..], h, c, id);
    }

    /** Removes the first id; -1 when empty. */
    method Pop() returns (id: int)
      requires Valid()
      modifies this
      ensures Valid()
      ensures if old(Contents()) == [] then id == -1 && Contents() == []
              else id == old(Contents()[0]) && Contents() == old(Contents()[1..]) && 0 <= id < slots.Length
    {
      if count == 0 {
        return -1;
      }
      UnrollPop(slots[..], head, count);
      ghost var before := Contents();
      assert before[0] in before && forall x :: x in before[1..] ==> x in before;
      id := slots[head];
      head := NextSlot(head, slots.Length);
      count := count - 1;
    }
  }

  // ------------------------------------------------------------------ message storage

  /** The bytes of storage slot idx. */
  ghost function Block(bytes: seq<uint8>, idx: nat, size: nat): Item
    requires (idx + 1) * size <= |bytes|
  {
    bytes[idx * size..idx * size + size]
  }

  /** Slots idx and jdx occupy disjoint bytes, inside the storage. */
  lemma BlocksApart(idx: nat, jdx: nat, size: nat, capacity: nat)
    requires idx < capacity && jdx < capacity
    ensures 0 <= idx * size <= idx * size + size == (idx + 1) * size <= capacity * size
    ensures idx < jdx ==> idx * size + size <= jdx * size
    ensures jdx < idx ==> jdx * size + size <= idx * size
  {
    ScaledOrder(idx + 1, capacity, size);
    if idx < jdx {
      ScaledOrder(idx + 1, jdx, size);
    } else if jdx < idx {
      ScaledOrder(jdx + 1, idx, size);
    }
  }

  /** Where slot idx begins; the slot fits into the storage. */
  ghost function SlotOffset(idx: nat, size: nat, capacity: nat): (offset: nat)
    requires idx < capacity
    ensures offset == idx * size && offset + size <= capacity * size
  {
    BlocksApart(idx, 0, size, capacity);
    idx * size
  }

  lemma ScaledOrder(a: nat, b: nat, size: nat)
    requires a <= b
    ensures a * size <= b * size
  {
  }

  /** The count items stored from slot head on, wrapping around. */
  ghost function Items(bytes: seq<uint8>, size: nat, capacity: nat, head: nat, count: nat): (r: seq<Item>)
    requires |bytes| >= capacity * size && head < capacity && count <= capacity
    ensures |r| == count
    decreases count
  {
    if count == 0 then []
    else
      BlocksApart(Wrap(head + count - 1, capacity), 0, size, capacity);
      Items(bytes, size, capacity, head, count - 1) + [Block(bytes, Wrap(head + count - 1, capacity), size)]
  }

  /** Writing the slot n places after head changes none of the count <= n items before it. */
  lemma {:induction false} ItemsFrame(bytes: seq<uint8>, bytes1: seq<uint8>, size: nat, capacity: nat, head: nat, count: nat, n: nat)
    requires |bytes| == |bytes1| >= capacity * size && head < capacity && count <= n < capacity
    requires var idx := Wrap(head + n, capacity);
             forall b :: 0 <= b < |bytes| && !(idx * size <= b < idx * size + size) ==> bytes1[b] == bytes[b]
    ensures Items(bytes1, size, capacity, head, count) == Items(bytes, size, capacity, head, count)
    decreases count
  {
    if count > 0 {
      var j := Wrap(head + count - 1, capacity);
      BlocksApart(j, Wrap(head + n, capacity), size, capacity);
      assert Block(bytes1, j, size) == Block(bytes, j, size);
      ItemsFrame(bytes, bytes1, size, capacity, head, count - 1, n);
    }
  }

  /** Copying an item into the slot after the last one appends it. */
  lemma ItemsPush(bytes: seq<uint8>, bytes1: seq<uint8>, size: nat, capacity: nat, head: nat, count: nat, item: Item)
    requires |bytes| == |bytes1| >= capacity * size && head < capacity && count < capacity && |item| == size
    requires var off := Wrap(head + count, capacity) * size;
             0 <= off <= off + size <= |bytes| && bytes1 == bytes[..off] + item + bytes[off + size..]
    ensures Items(bytes1, size, capacity, head, count + 1) == Items(bytes, size, capacity, head, count) + [item]
  {
    var idx := Wrap(head + count, capacity);
    BlocksApart(idx, 0, size, capacity);
    ItemsFrame(bytes, bytes1, size, capacity, head, count, count);
    assert Block(bytes1, idx, size) == item;
  }

  lemma {:induction false} ItemsPop(bytes: seq<uint8>, size: nat, capacity: nat, head: nat, count: nat)
    requires |bytes| >= capacity * size && head < capacity && 0 < count <= capacity
    ensures (head + 1) * size <= |bytes| && Items(bytes, size, capacity, head, count)[0] == Block(bytes, head, size)
    ensures Items(bytes, size, capacity, Wrap(head + 1, capacity), count - 1) == Items(bytes, size, capacity, head, count)[1..]
    decreases count
  {
    BlocksApart(head, 0, size, capacity);
    if count > 1 {
      ItemsPop(bytes, size, capacity, head, count - 1);
      assert Wrap(Wrap(head + 1, capacity) + (count - 2), capacity) == Wrap(head + count - 1, capacity);
    }
  }

  /** The byte ring of hrt_queue_t: capacity slots of item_size bytes in one buffer. */
  class MessageRing {
    const buf: array<uint8>
    const itemSize: nat
    const capacity: nat
    var head: nat
    var tail: nat
    var count: nat

    ghost predicate Valid()
      reads this
    {
      && 0 < capacity <= 0xFFFF && 0 < itemSize && buf.Length >= capacity * itemSize
      && head < capacity && count <= capacity && tail == Wrap(head + count, capacity)
    }

    ghost function Contents(): seq<Item>
      requires Valid()
      reads this, buf
    {
      Items(buf[..], itemSize, capacity, head, count)
    }

    /** hrt_queue_init on application storage. */
    constructor (storage: array<uint8>, capacity: nat, itemSize: nat)
      requires 0 < capacity <= 0xFFFF && 0 < itemSize && storage.Length >= capacity * itemSize
      ensures Valid() && buf == storage && this.capacity == capacity && this.itemSize == itemSize && Contents() == []
    {
      buf := storage;
      this.capacity := capacity;
      this.itemSize := itemSize;
      head, tail, count := 0, 0, 0;
    }

    /** _enqueue_cs: copies item into the tail slot; false and no change when full. */
    method Enqueue(item: seq<uint8>) returns (ok: bool)
      requires Valid() && |item| == itemSize
      modifies this, buf
      ensures Valid() && ok == (|old(Contents())| < capacity)
      ensures Contents() == if ok then old(Contents()) + [item] else old(Contents())
    {
      if count >= capacity {
        return false;
      }
      ghost var bytes, offset := buf[..], SlotOffset(tail, itemSize, capacity);
      CopyIn(buf, tail * itemSize, item);
      assert buf[..] == bytes[..offset] + item + bytes[offset + itemSize..];
      ItemsPush(bytes, buf[..], itemSize, capacity, head, count, item);
      tail := NextSlot(tail, capacity);
      count := count + 1;
      ok := true;
    }

    /** _dequeue_cs: copies the head slot out; None and no change when empty. */
    method Dequeue() returns (item: Option<Item>)
      requires Valid()
      modifies this
      ensures Valid()
      ensures if old(Contents()) == [] then item.None? && Contents() == old(Contents())
              else item == Some(old(Contents()[0])) && Contents() == old(Contents()[1..])
    {
      if count == 0 {
        return None;
      }
      BlocksApart(head, 0, itemSize, capacity);
      ItemsPop(buf[..], itemSize, capacity, head, count);
      item := Some(buf[head * itemSize..head * itemSize + itemSize]);
      head := NextSlot(head, capacity);
      count := count - 1;
    }
  }

  /** memcpy of item into a at offset. */
  method CopyIn(a: array<uint8>, offset: nat, item: seq<uint8>)
    requires offset + |item| <= a.Length
    modifies a
    ensures a[..] == old(a[..offset]) + item + old(a[offset + |item|..])
  {
    var i := 0;
    while i < |item|
      invariant 0 <= i <= |item|
      invariant forall j :: 0 <= j < a.Length && !(offset <= j < offset + i) ==> a[j] == old(a[j])
      invariant forall j :: offset <= j < offset + i ==> a[j] == item[j - offset]
    {
      a[offset + i] := item[i];
      i := i + 1;
    }
  }
}
