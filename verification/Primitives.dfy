/** The semaphore, mutex and message queue objects. Each method is one critical section of the C code
    with the request that follows it, proved to compute the function of PrimitivesSpec on the value the
    object represents and on the kernel's view. */
module Primitives {
  import opened KernelSpec
  import opened PrimitivesSpec
  import opened Rings
  import opened KernelImpl

  /** A waiter ring is sized for the kernel's tasks and shares nothing with the kernel. */
  ghost predicate Apart(k: Kernel, ring: IdRing) {
    ring !in k.Footprint() && ring.slots !in k.Footprint() && ring.slots.Length == k.tcbs.Length
  }

  /** Pops one waiter and makes it ready; -1 when nobody waits. */
  method WakeOne(k: Kernel, ring: IdRing) returns (id: int)
    requires k.Valid() && ring.Valid() && Apart(k, ring)
    modifies k.Footprint(), ring
    ensures k.Valid() && ring.Valid()
    ensures k.view == WakeHead(old(k.view), old(ring.Contents())) && ring.Contents() == Rest(old(ring.Contents()))
    ensures id == if old(ring.Contents()) == [] then -1 else old(ring.Contents()[0])
  {
    id := ring.Pop();
    if id >= 0 {
      k.MakeReady(id);
    }
  }

  /** Queues the current task on the ring and blocks it. */
  method Park(k: Kernel, ring: IdRing)
    requires k.Valid() && 0 <= k.current && ring.Valid() && Apart(k, ring)
    modifies k, k.tcbs, ring, ring.slots
    ensures k.Valid() && ring.Valid() && k.view == BlockCurrent(old(k.view))
    ensures ring.Contents() == WaitPush(old(ring.Contents()), old(k.current), k.tcbs.Length)
  {
    ring.Push(k.current);
    k.BlockCurrent();
  }

  /** hrt_sem_t. */
  class Semaphore {
    const k: Kernel
    const ring: IdRing
    var count: uint8
    var max: uint8

    ghost predicate Valid()
      reads this, ring, ring.slots, k.Footprint()
    {
      k.Valid() && ring.Valid() && Apart(k, ring) && this !in k.Footprint()
    }

    ghost function View(): Sem
      requires Valid()
      reads this, ring, ring.slots, k.Footprint()
    {
      Sem(count, max, ring.Contents())
    }

    /** hrt_sem_init_counting. */
    constructor (k: Kernel, init: nat, maxCount: uint8)
      requires k.Valid()
      ensures Valid() && fresh(ring) && fresh(ring.slots) && this.k == k && View() == SemInit(init, maxCount)
    {
      this.k := k;
      ring := new IdRing(k.tcbs.Length);
      var m: uint8 := if maxCount == 0 then 1 else maxCount;
      max := m;
      count := if init > m then m else init;
    }

    /** hrt_sem_try_take. */
    method TryTake() returns (ok: bool)
      requires Valid()
      modifies this
      ensures Valid() && (View(), ok) == SemTryTake(old(View())) && k.view == old(k.view)
      ensures (ok <==> old(count) > 0) && count == old(count) - (if ok then 1 else 0) && max == old(max)
      ensures ring.Contents() == old(ring.Contents())
    {
      ok := false;
      if count > 0 {
        count := count - 1;
        ok := true;
      }
    }

    /** The second half of hrt_sem_take; says whether the caller was parked. */
    method TakeOrPark() returns (parked: bool)
      requires Valid() && 0 <= k.current
      modifies this, k, k.tcbs, ring, ring.slots
      ensures Valid() && (k.view, View()) == SemTakeOrPark(old(k.view), old(View())) && parked == (old(count) == 0)
      ensures count == old(count) - (if parked then 0 else 1) && max == old(max)
      ensures parked ==> k.tcbs[k.current].state.Blocked?
    {
      if count > 0 {
        count := count - 1;
        return false;
      }
      Park(k, ring);
      parked := true;
    }

    /** The critical section of _give_common. */
    method GiveCommon() returns (woken: bool)
      requires Valid()
      modifies this, k.Footprint(), ring
      ensures Valid() && (k.view, View()) == SemGive(old(k.view), old(View())) && woken == (old(View()).waiters != [])
      ensures count == (if !woken && old(count) < max then old(count) + 1 else old(count)) && max == old(max)
      ensures woken ==> k.tcbs[old(ring.Contents()[0])].state.Ready?
    {
      var waiter := WakeOne(k, ring);
      woken := waiter >= 0;
      if !woken && count < max {
        count := count + 1;
      }
    }

    /** hrt_sem_give: when a waiter was woken the giver, a task, requeues itself and hops. */
    method Give()
      requires Valid() && (View().waiters != [] ==> 0 <= k.current)
      modifies this, k.Footprint(), ring
      ensures Valid()
      ensures var (k1, s1) := SemGive(old(k.view), old(View()));
              View() == s1 && k.view == if old(View()).waiters != [] then YieldCurrent(k1) else k1
    {
      var woken := GiveCommon();
      if woken {
        k.Yield();
      }
    }

    /** hrt_sem_give_from_isr: when a waiter was woken a switch is requested. */
    method GiveFromIsr() returns (needSwitch: bool)
      requires Valid()
      modifies this, k.Footprint(), ring
      ensures Valid() && needSwitch == (old(View()).waiters != [])
      ensures var (k1, s1) := SemGive(old(k.view), old(View()));
              View() == s1 && k.view == if needSwitch then k1.(pending := true) else k1
    {
      needSwitch := GiveCommon();
      if needSwitch {
        k.PendContextSwitch();
      }
    }
  }

  /** hrt_mutex_t. */
  class MutexLock {
    const k: Kernel
    const ring: IdRing
    var locked: bool
    var owner: int

    ghost predicate Valid()
      reads this, ring, ring.slots, k.Footprint()
    {
      k.Valid() && ring.Valid() && Apart(k, ring) && this !in k.Footprint()
    }

    ghost function View(): Mutex
      requires Valid()
      reads this, ring, ring.slots, k.Footprint()
    {
      Mutex(locked, owner, ring.Contents())
    }

    constructor (k: Kernel)
      requires k.Valid()
      ensures Valid() && fresh(ring) && fresh(ring.slots) && this.k == k && View() == MutexInit() && !locked && owner == NO_OWNER
    {
      this.k := k;
      ring := new IdRing(k.tcbs.Length);
      locked := false;
      owner := NO_OWNER;
    }

    /** hrt_mutex_try_lock: refused outside a task. */
    method TryLock() returns (ok: bool)
      requires Valid()
      modifies this
      ensures Valid() && k.view == old(k.view)
      ensures if k.current < 0 then !ok && View() == old(View()) else (View(), ok) == MutexTryLock(old(View()), k.current)
      ensures (ok <==> 0 <= k.current && !old(locked)) && (ok ==> locked && owner == k.current)
      ensures (!ok ==> locked == old(locked) && owner == old(owner)) && ring.Contents() == old(ring.Contents())
    {
      var me := k.current;
      if me < 0 || me >= k.tcbs.Length {
        return false;
      }
      if !locked {
        locked := true;
        owner := me;
        return true;
      }
      ok := false;
    }

    /** The second half of hrt_mutex_lock. */
    method LockOrPark() returns (outcome: LockOutcome)
      requires Valid() && 0 <= k.current
      modifies this, k, k.tcbs, ring, ring.slots
      ensures Valid() && (k.view, View(), outcome) == MutexLockOrPark(old(k.view), old(View()))
      ensures outcome.Acquired? <==> !old(locked)
      ensures outcome.Recursive? <==> old(locked) && old(owner) == old(k.current)
      ensures locked && owner == if outcome.Acquired? then old(k.current) else old(owner)
      ensures outcome.Parked? ==> k.tcbs[k.current].state.Blocked?
    {
      var me := k.current;
      if !locked {
        locked := true;
        owner := me;
        return Acquired;
      }
      if owner == me {
        return Recursive;
      }
      Park(k, ring);
      outcome := Parked;
    }

    /** The critical section of hrt_mutex_unlock: refused outside a task. */
    method UnlockCommon() returns (outcome: UnlockOutcome)
      requires Valid()
      modifies this, k.Footprint(), ring
      ensures Valid()
      ensures if old(k.current) < 0 then outcome == NotOwner && k.view == old(k.view) && View() == old(View())
              else (k.view, View(), outcome) == MutexUnlock(old(k.view), old(View()))
      ensures outcome.NotOwner? <==> !(0 <= old(k.current) == old(owner) && old(locked))
      ensures outcome.NotOwner? ==> locked == old(locked) && owner == old(owner)
      ensures outcome.Released? ==> old(ring.Contents()) == [] && !locked && owner == NO_OWNER
      ensures outcome.HandedOff? ==> old(ring.Contents()) != [] && locked && owner == old(ring.Contents()[0])
    {
      var me := k.current;
      if me < 0 || me >= k.tcbs.Length {
        return NotOwner;
      }
      if !locked || owner != me {
        return NotOwner;
      }
      var waiter := WakeOne(k, ring);
      if waiter >= 0 {
        locked := true;
        owner := waiter;
        return HandedOff;
      }
      locked := false;
      owner := NO_OWNER;
      outcome := Released;
    }

    /** hrt_mutex_unlock: refused outside a task; after a handoff the former owner requeues itself and hops. */
    method Unlock() returns (ok: bool)
      requires Valid()
      modifies this, k.Footprint(), ring
      ensures Valid()
      ensures ok <==> 0 <= old(k.current) == old(owner) && old(locked)
      ensures ok ==> if old(ring.Contents()) == [] then !locked && owner == NO_OWNER
                     else locked && owner == old(ring.Contents()[0])
      ensures old(k.current) < 0 ==> !ok && k.view == old(k.view) && View() == old(View())
      ensures 0 <= old(k.current) ==>
        var (k1, m1, outcome) := MutexUnlock(old(k.view), old(View()));
        View() == m1 && ok == !outcome.NotOwner? && k.view == if outcome.HandedOff? then YieldCurrent(k1) else k1
    {
      var outcome := UnlockCommon();
      if outcome.HandedOff? {
        k.Yield();
      }
      ok := !outcome.NotOwner?;
    }
  }

  /** hrt_queue_t. */
  class MessageQueue {
    const k: Kernel
    const ring: MessageRing
    const receivers: IdRing
    const senders: IdRing

    /** Every object a queue operation may change. */
    ghost function Footprint(): set<object> {
      k.Footprint() + {ring, ring.buf, receivers, receivers.slots, senders, senders.slots}
    }

    ghost predicate Valid()
      reads Footprint()
    {
      && k.Valid() && ring.Valid() && receivers.Valid() && senders.Valid()
      && Apart(k, receivers) && Apart(k, senders) && receivers != senders && receivers.slots != senders.slots
      && ring !in k.Footprint() && {ring.buf} !! k.Footprint() + {receivers.slots, senders.slots}
    }

    ghost function View(): MsgQ
      requires Valid()
      reads Footprint()
    {
      MsgQ(ring.capacity, ring.Contents(), receivers.Contents(), senders.Contents())
    }

    /** hrt_queue_init on application storage. */
    constructor (k: Kernel, storage: array<uint8>, capacity: nat, itemSize: nat)
      requires k.Valid() && {storage} !! k.Footprint()
      requires 0 < capacity <= 0xFFFF && 0 < itemSize && storage.Length >= capacity * itemSize
      ensures Valid() && this.k == k && View() == MsgQ(capacity, [], [], [])
      ensures fresh(Footprint() - k.Footprint() - {storage}) && ring.buf == storage && ring.itemSize == itemSize
    {
      this.k := k;
      ring := new MessageRing(storage, capacity, itemSize);
      receivers := new IdRing(k.tcbs.Length);
      senders := new IdRing(k.tcbs.Length);
    }

    /** The critical section of the try_send calls: enqueue and wake one receiver, or report full. */
    method SendCommon(item: Item) returns (ok: bool, woken: bool)
      requires Valid() && |item| == ring.itemSize
      modifies Footprint()
      ensures Valid() && ok == !old(View()).Full() && woken == (ok && old(View()).receivers != [])
      ensures (k.view, View()) == if ok then SendNow(old(k.view), old(View()), item) else (old(k.view), old(View()))
    {
      woken := false;
      ok := ring.Enqueue(item);
      if ok {
        var waiter := WakeOne(k, receivers);
        woken := waiter >= 0;
      }
    }

    /** hrt_queue_try_send: a sender that woke a receiver requeues itself and hops. */
    method TrySend(item: Item) returns (ok: bool)
      requires Valid() && |item| == ring.itemSize && (View().receivers != [] && !View().Full() ==> 0 <= k.current)
      modifies Footprint()
      ensures Valid() && ok == !old(View()).Full()
      ensures if !ok then k.view == old(k.view) && View() == old(View())
              else var (k1, q1) := SendNow(old(k.view), old(View()), item);
                View() == q1 && k.view == if old(View()).receivers != [] then YieldCurrent(k1) else k1
    {
      var woken;
      ok, woken := SendCommon(item);
      if woken {
        k.Yield();
      }
    }

    /** hrt_queue_try_send_from_isr. */
    method TrySendFromIsr(item: Item) returns (ok: bool, needSwitch: bool)
      requires Valid() && |item| == ring.itemSize
      modifies Footprint()
      ensures Valid() && ok == !old(View()).Full() && needSwitch == (ok && old(View()).receivers != [])
      ensures if !ok then k.view == old(k.view) && View() == old(View())
              else var (k1, q1) := SendNow(old(k.view), old(View()), item);
                View() == q1 && k.view == if needSwitch then k1.(pending := true) else k1
    {
      ok, needSwitch := SendCommon(item);
      if needSwitch {
        k.PendContextSwitch();
      }
    }

    /** The second critical section of one turn of hrt_queue_send: send after all, or park. */
    method SendOrPark(item: Item) returns (sent: bool)
      requires Valid() && |item| == ring.itemSize && 0 <= k.current
      modifies Footprint()
      ensures Valid() && sent == !old(View()).Full()
      ensures (k.view, View()) == if sent then SendNow(old(k.view), old(View()), item)
                                  else ParkSender(old(k.view), old(View()))
    {
      if ring.count < ring.capacity {
        sent := ring.Enqueue(item);
        var _ := WakeOne(k, receivers);
        return;
      }
      Park(k, senders);
      sent := false;
    }

    /** The critical section of the try_recv calls: dequeue and wake one sender, or report empty. */
    method RecvCommon() returns (item: Option<Item>, woken: bool)
      requires Valid()
      modifies Footprint()
      ensures Valid() && item.Some? == (old(View()).items != []) && woken == (item.Some? && old(View()).senders != [])
      ensures if item.None? then k.view == old(k.view) && View() == old(View())
              else (k.view, View(), item.value) == RecvNow(old(k.view), old(View()))
    {
      woken := false;
      item := ring.Dequeue();
      if item.Some? {
        var waiter := WakeOne(k, senders);
        woken := waiter >= 0;
      }
    }

    /** hrt_queue_try_recv: a receiver that woke a sender requeues itself and hops. */
    method TryRecv() returns (item: Option<Item>)
      requires Valid() && (View().senders != [] && View().items != [] ==> 0 <= k.current)
      modifies Footprint()
      ensures Valid() && item.Some? == (old(View()).items != [])
      ensures if item.None? then k.view == old(k.view) && View() == old(View())
              else var (k1, q1, x) := RecvNow(old(k.view), old(View()));
                View() == q1 && item.value == x && k.view == if old(View()).senders != [] then YieldCurrent(k1) else k1
    {
      var woken;
      item, woken := RecvCommon();
      if woken {
        k.Yield();
      }
    }

    /** hrt_queue_try_recv_from_isr. */
    method TryRecvFromIsr() returns (item: Option<Item>, needSwitch: bool)
      requires Valid()
      modifies Footprint()
      ensures Valid() && item.Some? == (old(View()).items != [])
      ensures needSwitch == (item.Some? && old(View()).senders != [])
      ensures if item.None? then k.view == old(k.view) && View() == old(View())
              else var (k1, q1, x) := RecvNow(old(k.view), old(View()));
                View() == q1 && item.value == x && k.view == if needSwitch then k1.(pending := true) else k1
    {
      item, needSwitch := RecvCommon();
      if needSwitch {
        k.PendContextSwitch();
      }
    }

    /** The second critical section of one turn of hrt_queue_recv: receive after all, or park. */
    method RecvOrPark() returns (item: Option<Item>)
      requires Valid() && 0 <= k.current
      modifies Footprint()
      ensures Valid() && item.Some? == (old(View()).items != [])
      ensures if item.None? then (k.view, View()) == ParkReceiver(old(k.view), old(View()))
              else (k.view, View(), item.value) == RecvNow(old(k.view), old(View()))
    {
      if ring.count > 0 {
        item := ring.Dequeue();
        var _ := WakeOne(k, senders);
        return;
      }
      Park(k, receivers);
      item := None;
    }
  }
}
