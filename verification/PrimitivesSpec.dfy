/** Semaphore, mutex and message queue: the effect of each critical section as a function of the
    kernel and the primitive. The classes in Primitives.dfy are proved to compute these functions. */
module PrimitivesSpec {
  import opened KernelSpec

  /** Waiter push of all primitives: a full ring drops the id silently. */
  function WaitPush(q: seq<nat>, id: nat, slots: nat): seq<nat> {
    if |q| >= slots then q else q + [id]
  }

  // ------------------------------------------------------------------ counting semaphore

  datatype Sem = Sem(count: uint8, max: uint8, waiters: seq<nat>)

  function SemInit(init: nat, max: uint8): (s: Sem)
    ensures s.waiters == [] && s.max == (if max == 0 then 1 else max)
    ensures (init <= s.max ==> s.count == init) && (init > s.max ==> s.count == s.max)
  {
    var m: uint8 := if max == 0 then 1 else max;
    Sem(if init > m then m else init, m, [])
  }

  /** _give_common up to the end of its critical section: direct handoff, or a saturating store. */
  function SemGive(k: KState, s: Sem): (KState, Sem)
    requires s.waiters != [] ==> s.waiters[0] < |k.tcbs|
  {
    if s.waiters != [] then (MakeReady(k, s.waiters[0]), s.(waiters := s.waiters[1..]))
    else (k, if s.count < s.max then s.(count := s.count + 1) else s)
  }

  function SemTryTake(s: Sem): (Sem, bool) {
    if s.count > 0 then (s.(count := s.count - 1), true) else (s, false)
  }

  /** The second critical section of hrt_sem_take: take a token that appeared, or park the caller. */
  function SemTakeOrPark(k: KState, s: Sem): (KState, Sem)
    requires k.HasCurrent()
  {
    if s.count > 0 then (k, s.(count := s.count - 1))
    else (BlockCurrent(k), s.(waiters := WaitPush(s.waiters, k.current, |k.tcbs|)))
  }

  // ------------------------------------------------------------------ mutex

  const NO_OWNER: int := -1

  datatype Mutex = Mutex(locked: bool, owner: int, waiters: seq<nat>)

  function MutexInit(): Mutex { Mutex(false, NO_OWNER, []) }

  /** hrt_mutex_try_lock from task me: acquired or not (a recursive attempt also fails). */
  function MutexTryLock(m: Mutex, me: int): (Mutex, bool) {
    if !m.locked then (m.(locked := true, owner := me), true) else (m, false)
  }

  datatype LockOutcome = Acquired | Recursive | Parked

  /** The second critical section of hrt_mutex_lock. */
  function MutexLockOrPark(k: KState, m: Mutex): (KState, Mutex, LockOutcome)
    requires k.HasCurrent()
  {
    if !m.locked then (k, m.(locked := true, owner := k.current), Acquired)
    else if m.owner == k.current then (k, m, Recursive)
    else (BlockCurrent(k), m.(waiters := WaitPush(m.waiters, k.current, |k.tcbs|)), Parked)
  }

  datatype UnlockOutcome = NotOwner | HandedOff | Released

  /** hrt_mutex_unlock up to the end of its critical section. */
  function MutexUnlock(k: KState, m: Mutex): (KState, Mutex, UnlockOutcome)
    requires m.waiters != [] ==> m.waiters[0] < |k.tcbs|
  {
    if !m.locked || m.owner != k.current then (k, m, NotOwner)
    else if m.waiters != [] then
      (MakeReady(k, m.waiters[0]), Mutex(true, m.waiters[0], m.waiters[1..]), HandedOff)
    else (k, m.(locked := false, owner := NO_OWNER), Released)
  }

  // ------------------------------------------------------------------ message queue

  type Item = seq<uint8>

  datatype MsgQ = MsgQ(capacity: nat, items: seq<Item>, receivers: seq<nat>, senders: seq<nat>)
  {
    predicate Full() { |items| >= capacity }
  }

  /** Wakes the head of a waiter queue, if any. */
  function WakeHead(k: KState, waiters: seq<nat>): KState
    requires waiters != [] ==> waiters[0] < |k.tcbs|
  {
    if waiters == [] then k else MakeReady(k, waiters[0])
  }

  function Rest(waiters: seq<nat>): seq<nat> {
    if waiters == [] then [] else waiters[1..]
  }

  /** The critical section shared by every successful send: enqueue and wake one receiver. */
  function SendNow(k: KState, q: MsgQ, item: Item): (KState, MsgQ)
    requires q.receivers != [] ==> q.receivers[0] < |k.tcbs|
  {
    (WakeHead(k, q.receivers), q.(items := q.items + [item], receivers := Rest(q.receivers)))
  }

  /** The critical section shared by every successful receive: dequeue and wake one sender. */
  function RecvNow(k: KState, q: MsgQ): (KState, MsgQ, Item)
    requires q.items != []
    requires q.senders != [] ==> q.senders[0] < |k.tcbs|
  {
    (WakeHead(k, q.senders), q.(items := q.items[1..], senders := Rest(q.senders)), q.items[0])
  }

  function ParkSender(k: KState, q: MsgQ): (KState, MsgQ)
    requires k.HasCurrent()
  {
    (BlockCurrent(k), q.(senders := WaitPush(q.senders, k.current, |k.tcbs|)))
  }

  function ParkReceiver(k: KState, q: MsgQ): (KState, MsgQ)
    requires k.HasCurrent()
  {
    (BlockCurrent(k), q.(receivers := WaitPush(q.receivers, k.current, |k.tcbs|)))
  }
}
