/** The whole kernel as a step system: tasks, primitives, the scheduler loop of the cooperative
    port, the PendSV switch of the preemptive port, the tick and interrupt handlers.
    Every critical section, tick and interrupt call is one step; between two steps of a task come
    ticks and interrupt calls, all but those HopSafe rules out. */
module KernelSystem {
  import opened KernelSpec
  import opened PrimitivesSpec

  datatype Port = Cooperative | Preemptive

  /** Who has the CPU. Boot: before hrt_start. LoopHead: top of the scheduler loop, or the idle
      task of the preemptive port. Picking: the loop has cleared the pending flag. Running: task
      `current`. Hopping: task `current` has queued, parked, slept or deleted itself and is on its
      way into the scheduler. */
  datatype Control = Boot | LoopHead | Picking | Running | Hopping

  datatype WaitId = SemWaiters(i: nat) | MutexWaiters(i: nat) | Receivers(i: nat) | Senders(i: nat)

  datatype QueueId = ReadyQ(p: nat) | WaitQ(w: WaitId)

  /** What a task does when it next has the CPU. `woken` marks a retry after a wake-up. */
  datatype Pc =
    | User
    | MustYield
    | SemRecheck(i: nat)
    | SemParked(i: nat)
    | MutexRecheck(i: nat)
    | MutexParked(i: nat)
    | SendTry(i: nat, item: Item, woken: bool)
    | SendRecheck(i: nat, item: Item, woken: bool)
    | SendParked(i: nat, item: Item)
    | RecvTry(i: nat, woken: bool)
    | RecvRecheck(i: nat, woken: bool)
    | RecvParked(i: nat)
  {
    predicate IsParked() { SemParked? || MutexParked? || SendParked? || RecvParked? }

    function Place(): WaitId
      requires IsParked()
    {
      match this
      case SemParked(i) => SemWaiters(i)
      case MutexParked(i) => MutexWaiters(i)
      case SendParked(i, _) => Senders(i)
      case RecvParked(i) => Receivers(i)
    }

    /** The continuation of a parked task once it is made ready. */
    function Woken(): Pc {
      match this
      case SendParked(i, item) => SendTry(i, item, true)
      case RecvParked(i) => RecvTry(i, true)
      case _ => User
    }
  }

  datatype Sys = Sys(port: Port, k: KState, ctl: Control, pcs: seq<Pc>,
                     sems: seq<Sem>, mutexes: seq<Mutex>, queues: seq<MsgQ>)

  /** The contents of any of the kernel's id queues, front first. */
  function Q(s: Sys, q: QueueId): seq<nat> {
    match q
    case ReadyQ(p) => if p < |s.k.rq| then s.k.rq[p] else []
    case WaitQ(SemWaiters(i)) => if i < |s.sems| then s.sems[i].waiters else []
    case WaitQ(MutexWaiters(i)) => if i < |s.mutexes| then s.mutexes[i].waiters else []
    case WaitQ(Receivers(i)) => if i < |s.queues| then s.queues[i].receivers else []
    case WaitQ(Senders(i)) => if i < |s.queues| then s.queues[i].senders else []
  }

  predicate IdsBelow(ids: seq<nat>, n: nat) {
    forall t :: t in ids ==> t < n
  }

  /** Sizes agree and every queued id names a slot. */
  ghost predicate Shape(s: Sys) {
    && 2 <= |s.k.tcbs| <= 255
    && |s.pcs| == |s.k.tcbs|
    && -1 <= s.k.current < |s.k.tcbs|
    && (s.ctl.Running? || s.ctl.Hopping? ==> s.k.HasCurrent())
    && forall q {:trigger Q(s, q)} :: IdsBelow(Q(s, q), |s.k.tcbs|)
  }

  // ------------------------------------------------------------------ observable events

  /** Who performed a queue operation: a blocking call of a task, a try call of a task, an interrupt. */
  datatype Caller = Blocking(id: nat) | Trying(id: nat) | Isr

  datatype Event =
    | Popped(q: QueueId, id: nat)
    | Pushed(q: QueueId, id: nat)
    | SemGiven(i: nat)
    | SemLost(i: nat)
    | SemTaken(i: nat)
    | MutexGained(i: nat, id: nat)
    | MutexDropped(i: nat, id: nat)
    | Enqueued(i: nat, item: Item, who: Caller)
    | Dequeued(i: nat, item: Item, who: Caller)
    | SendCalled(id: nat, i: nat, item: Item)
    | RecvCalled(id: nat, i: nat)

  datatype Out = Out(s: Sys, evs: seq<Event>)

  // ------------------------------------------------------------------ steps

  datatype Step =
    // scheduler
    | Start
    | LoopClear
    | Dispatch
    | SchedEntry
    | PendSv(oldSp: nat)
    // application code of the running task
    | TaskYield
    | TaskSleep(ms: uint32)
    | TaskDelete
    | TaskCreate(args: CreateArgs)
    | SetPolicy(policy: Policy)
    | SetDefaultSlice(slice: uint16)
    | SemTryTakeCall(i: nat)
    | SemTakeCall(i: nat)
    | SemGiveCall(i: nat)
    | MutexTryLockCall(i: nat)
    | MutexLockCall(i: nat)
    | MutexUnlockCall(i: nat)
    | TrySendCall(i: nat, item: Item)
    | SendCall(i: nat, item: Item)
    | TryRecvCall(i: nat)
    | RecvCall(i: nat)
    // the next critical section of a call in progress
    | Continue
    // interrupts
    | Tick(handlerPends: bool)
    | SemGiveIsr(i: nat)
    | SendIsr(i: nat, item: Item)
    | RecvIsr(i: nat)

  ghost predicate UserCode(s: Sys)
    requires Shape(s)
  {
    s.ctl.Running? && s.pcs[s.k.current].User?
  }

  /** A successful creation leaves the idle slot alone and names an existing class. */
  ghost predicate CreateAllowed(s: Sys, a: CreateArgs) {
    var id := LowestUnused(s.k.tcbs, 0);
    a.Acceptable() && id < |s.k.tcbs| ==> id != s.k.IdleId() && a.Prio() < |s.k.rq|
  }

  ghost predicate Guard(s: Sys, st: Step)
    requires Shape(s)
  {
    match st
    case Start => s.ctl.Boot?
    case LoopClear => s.port.Cooperative? && s.ctl.LoopHead? && s.k.pending
    case Dispatch => s.port.Cooperative? && s.ctl.Picking?
    case SchedEntry => s.port.Cooperative? && s.ctl.Hopping?
    case PendSv(sp) => s.port.Preemptive? && s.k.pending && (s.ctl.LoopHead? || s.ctl.Running? || s.ctl.Hopping?)
                       && (sp == 0 <==> s.k.current == -1)
    case TaskYield => UserCode(s)
    case TaskSleep(_) => UserCode(s)
    case TaskDelete => UserCode(s)
    case TaskCreate(a) => (UserCode(s) || s.ctl.Boot?) && CreateAllowed(s, a)
    case SetPolicy(_) => UserCode(s)
    case SetDefaultSlice(_) => UserCode(s)
    case SemTryTakeCall(i) => UserCode(s) && i < |s.sems|
    case SemTakeCall(i) => UserCode(s) && i < |s.sems|
    case SemGiveCall(i) => UserCode(s) && i < |s.sems|
    case MutexTryLockCall(i) => UserCode(s) && i < |s.mutexes|
    case MutexLockCall(i) => UserCode(s) && i < |s.mutexes|
    case MutexUnlockCall(i) => UserCode(s) && i < |s.mutexes|
    case TrySendCall(i, _) => UserCode(s) && i < |s.queues|
    case SendCall(i, _) => UserCode(s) && i < |s.queues|
    case TryRecvCall(i) => UserCode(s) && i < |s.queues|
    case RecvCall(i) => UserCode(s) && i < |s.queues|
    case Continue => s.ctl.Running? && InCall(s, s.pcs[s.k.current])
    case Tick(_) => true
    case SemGiveIsr(i) => i < |s.sems|
    case SendIsr(i, _) => i < |s.queues|
    case RecvIsr(i) => i < |s.queues|
  }

  /** A call of the running task that still has a critical section ahead. */
  predicate InCall(s: Sys, pc: Pc) {
    match pc
    case MustYield => true
    case SemRecheck(i) => i < |s.sems|
    case MutexRecheck(i) => i < |s.mutexes|
    case SendTry(i, _, _) => i < |s.queues|
    case SendRecheck(i, _, _) => i < |s.queues|
    case RecvTry(i, _) => i < |s.queues|
    case RecvRecheck(i, _) => i < |s.queues|
    case _ => false
  }

  /** The scheduler entry that follows a hop will not requeue a task that is already queued. */
  predicate HopSafe(s: Sys) {
    s.ctl.Hopping? && s.k.HasCurrent() ==>
      match s.port
      case Cooperative => !RotationDue(s.k)
      case Preemptive => !s.k.tcbs[s.k.current].state.Ready?
  }

  // ------------------------------------------------------------------ effects

  /** The current task continues at pc. */
  function At(s: Sys, pc: Pc): Sys
    requires s.k.HasCurrent() && |s.pcs| == |s.k.tcbs|
  {
    s.(pcs := s.pcs[s.k.current := pc])
  }

  function ReadyEvent(s: Sys, id: nat): Event
    requires id < |s.k.tcbs|
  {
    Pushed(ReadyQ(s.k.tcbs[id].prio), id)
  }

  /** Popping the head of a waiter queue and making it ready, as events. */
  function WakeEvents(s: Sys, w: WaitId): seq<Event>
    requires Q(s, WaitQ(w)) != [] ==> Q(s, WaitQ(w))[0] < |s.k.tcbs|
  {
    var q := Q(s, WaitQ(w));
    if q == [] then [] else [Popped(WaitQ(w), q[0]), ReadyEvent(s, q[0])]
  }

  function WakePcs(s: Sys, w: WaitId): seq<Pc>
    requires Q(s, WaitQ(w)) != [] ==> Q(s, WaitQ(w))[0] < |s.pcs|
  {
    var q := Q(s, WaitQ(w));
    if q == [] then s.pcs else s.pcs[q[0] := s.pcs[q[0]].Woken()]
  }

  lemma HeadIsATask(s: Sys, w: WaitId)
    requires Shape(s)
    ensures Q(s, WaitQ(w)) != [] ==> Q(s, WaitQ(w))[0] < |s.k.tcbs|
  {
    if Q(s, WaitQ(w)) != [] {
      assert Q(s, WaitQ(w))[0] in Q(s, WaitQ(w));
    }
  }

  /** A step that only wakes tasks keeps the sizes and the current task. */
  ghost predicate SameFrame(s: Sys, s1: Sys) {
    |s1.k.tcbs| == |s.k.tcbs| && |s1.pcs| == |s.pcs| && s1.k.current == s.k.current
  }

  ghost function SemGiveCs(s: Sys, i: nat): (o: Out)
    requires Shape(s) && i < |s.sems|
    ensures SameFrame(s, o.s)
  {
    var w := SemWaiters(i);
    HeadIsATask(s, w);
    var m := s.sems[i];
    var (k1, m1) := SemGive(s.k, m);
    Out(s.(k := k1, sems := s.sems[i := m1], pcs := WakePcs(s, w)),
        [SemGiven(i)] + WakeEvents(s, w) + if m.waiters == [] && m.count >= m.max then [SemLost(i)] else [])
  }

  /** The state after the critical section of a successful send or receive by anybody. */
  ghost function AfterSend(s: Sys, i: nat, item: Item): (r: Sys)
    requires Shape(s) && i < |s.queues|
    ensures SameFrame(s, r)
  {
    HeadIsATask(s, Receivers(i));
    var (k1, q1) := SendNow(s.k, s.queues[i], item);
    s.(k := k1, queues := s.queues[i := q1], pcs := WakePcs(s, Receivers(i)))
  }

  ghost function AfterRecv(s: Sys, i: nat): (r: Sys)
    requires Shape(s) && i < |s.queues| && s.queues[i].items != []
    ensures SameFrame(s, r)
  {
    HeadIsATask(s, Senders(i));
    var (k1, q1, _) := RecvNow(s.k, s.queues[i]);
    s.(k := k1, queues := s.queues[i := q1], pcs := WakePcs(s, Senders(i)))
  }

  ghost function SendEvents(s: Sys, i: nat, item: Item, who: Caller): seq<Event>
    requires Shape(s) && i < |s.queues|
  {
    HeadIsATask(s, Receivers(i));
    [Enqueued(i, item, who)] + WakeEvents(s, Receivers(i))
  }

  ghost function RecvEvents(s: Sys, i: nat, who: Caller): seq<Event>
    requires Shape(s) && i < |s.queues| && s.queues[i].items != []
  {
    HeadIsATask(s, Senders(i));
    [Dequeued(i, s.queues[i].items[0], who)] + WakeEvents(s, Senders(i))
  }

  /** The yield that ends a task-context operation which woke somebody. */
  function AfterWake(woke: bool): Pc { if woke then MustYield else User }

  /** The fast path of hrt_queue_send, at its first attempt and at every retry. */
  ghost function SendAttempt(s: Sys, i: nat, item: Item, woken: bool): Out
    requires Shape(s) && s.k.HasCurrent() && i < |s.queues|
  {
    if s.queues[i].Full() then Out(At(s, SendRecheck(i, item, woken)), [])
    else
      Out(At(AfterSend(s, i, item), AfterWake(s.queues[i].receivers != [])), SendEvents(s, i, item, Blocking(s.k.current)))
  }

  ghost function RecvAttempt(s: Sys, i: nat, woken: bool): Out
    requires Shape(s) && s.k.HasCurrent() && i < |s.queues|
  {
    if s.queues[i].items == [] then Out(At(s, RecvRecheck(i, woken)), [])
    else
      Out(At(AfterRecv(s, i), AfterWake(s.queues[i].senders != [])), RecvEvents(s, i, Blocking(s.k.current)))
  }

  ghost function YieldNext(s: Sys): Out
    requires Shape(s) && s.k.HasCurrent()
  {
    var c := s.k.current;
    Out(At(s, User).(k := YieldCurrent(s.k), ctl := Hopping),
        if s.k.tcbs[c].state.Ready? then [ReadyEvent(s, c)] else [])
  }

  /** The second critical sections of the blocking calls: succeed after all, or park. */
  ghost function SemRecheckNext(s: Sys, i: nat): Out
    requires Shape(s) && s.k.HasCurrent() && i < |s.sems|
  {
    var (k1, m1) := SemTakeOrPark(s.k, s.sems[i]);
    var s1 := s.(k := k1, sems := s.sems[i := m1]);
    if s.sems[i].count > 0 then Out(At(s1, User), [SemTaken(i)])
    else Out(At(s1, SemParked(i)).(ctl := Hopping), [Pushed(WaitQ(SemWaiters(i)), s.k.current)])
  }

  ghost function MutexRecheckNext(s: Sys, i: nat): Out
    requires Shape(s) && s.k.HasCurrent() && i < |s.mutexes|
  {
    var (k1, m1, outcome) := MutexLockOrPark(s.k, s.mutexes[i]);
    var s1 := s.(k := k1, mutexes := s.mutexes[i := m1]);
    match outcome
    case Acquired => Out(At(s1, User), [MutexGained(i, s.k.current)])
    case Recursive => Out(At(s1, User), [])
    case Parked => Out(At(s1, MutexParked(i)).(ctl := Hopping), [Pushed(WaitQ(MutexWaiters(i)), s.k.current)])
  }

  ghost function SendRecheckNext(s: Sys, i: nat, item: Item): Out
    requires Shape(s) && s.k.HasCurrent() && i < |s.queues|
  {
    if !s.queues[i].Full() then
      Out(At(AfterSend(s, i, item), User), SendEvents(s, i, item, Blocking(s.k.current)))
    else
      var (k1, q1) := ParkSender(s.k, s.queues[i]);
      Out(At(s.(k := k1, queues := s.queues[i := q1]), SendParked(i, item)).(ctl := Hopping),
          [Pushed(WaitQ(Senders(i)), s.k.current)])
  }

  ghost function RecvRecheckNext(s: Sys, i: nat): Out
    requires Shape(s) && s.k.HasCurrent() && i < |s.queues|
  {
    if s.queues[i].items != [] then
      Out(At(AfterRecv(s, i), User), RecvEvents(s, i, Blocking(s.k.current)))
    else
      var (k1, q1) := ParkReceiver(s.k, s.queues[i]);
      Out(At(s.(k := k1, queues := s.queues[i := q1]), RecvParked(i)).(ctl := Hopping),
          [Pushed(WaitQ(Receivers(i)), s.k.current)])
  }

  ghost function ContinueNext(s: Sys): Out
    requires Shape(s) && s.ctl.Running? && InCall(s, s.pcs[s.k.current])
  {
    var pc := s.pcs[s.k.current];
    if pc.MustYield? then YieldNext(s)
    else if pc.SemRecheck? then SemRecheckNext(s, pc.i)
    else if pc.MutexRecheck? then MutexRecheckNext(s, pc.i)
    else if pc.SendTry? then SendAttempt(s, pc.i, pc.item, pc.woken)
    else if pc.SendRecheck? then SendRecheckNext(s, pc.i, pc.item)
    else if pc.RecvTry? then RecvAttempt(s, pc.i, pc.woken)
    else RecvRecheckNext(s, pc.i)
  }

  /** The wake-ups of one tick, in slot order. */
  function DueEvents(k: KState, i: nat): seq<Event>
    requires i <= |k.tcbs|
    decreases |k.tcbs| - i
  {
    if i == |k.tcbs| then []
    else (if IsDue(k.tcbs[i], k.tick) then [Pushed(ReadyQ(k.tcbs[i].prio), i)] else []) + DueEvents(k, i + 1)
  }

  ghost function TickNext(s: Sys, handlerPends: bool): Out
    requires Shape(s)
  {
    var k1 := TickIsr(s.k);
    Out(s.(k := k1.(pending := k1.pending || handlerPends)), DueEvents(AdvanceTick(s.k), 0))
  }

  ghost function MutexUnlockNext(s: Sys, i: nat): Out
    requires Shape(s) && s.k.HasCurrent() && i < |s.mutexes|
  {
    var w := MutexWaiters(i);
    HeadIsATask(s, w);
    var c := s.k.current;
    var (k1, m1, outcome) := MutexUnlock(s.k, s.mutexes[i]);
    var s1 := s.(k := k1, mutexes := s.mutexes[i := m1]);
    match outcome
    case NotOwner => Out(s, [])
    case Released => Out(s1, [MutexDropped(i, c)])
    case HandedOff => Out(At(s1.(pcs := WakePcs(s, w)), MustYield),
                          [MutexDropped(i, c)] + WakeEvents(s, w) + [MutexGained(i, s.mutexes[i].waiters[0])])
  }

  /** Popping the head of the most urgent class, as events. */
  function PickEvents(k: KState): seq<Event> {
    var p := FirstNonEmpty(k.rq, 0);
    if p < |k.rq| then [Popped(ReadyQ(p), k.rq[p][0])] else []
  }

  function SwitchOutEvents(s: Sys, oldSp: nat): seq<Event>
    requires oldSp != 0 ==> s.k.HasCurrent()
  {
    if oldSp != 0 && s.k.tcbs[s.k.current].state.Ready? then [ReadyEvent(s, s.k.current)] else []
  }

  ghost function PendSvNext(s: Sys, oldSp: nat): Out
    requires Shape(s) && (oldSp != 0 ==> s.k.HasCurrent())
  {
    var k2 := Schedule(s.k, oldSp);
    Out(s.(k := k2.(pending := false), ctl := if k2.current == k2.IdleId() then LoopHead else Running),
        SwitchOutEvents(s, oldSp) + PickEvents(SwitchOut(s.k, oldSp)))
  }

  ghost function DispatchNext(s: Sys): Out {
    var (k1, next) := PickNextReady(s.k);
    Out(if next == s.k.IdleId() then s.(k := k1, ctl := LoopHead)
        else s.(k := k1.(current := next), ctl := Running),
        PickEvents(s.k))
  }

  ghost function CreateNext(s: Sys, a: CreateArgs): Out
    requires Shape(s)
  {
    var (k1, id) := CreateTask(s.k, a);
    if id < 0 then Out(s, [])
    else Out(s.(k := k1, pcs := s.pcs[id := User]), [Pushed(ReadyQ(a.Prio()), id)])
  }

  /** The state and the events one step leads to. */
  ghost function Next(s: Sys, st: Step): Out
    requires Shape(s) && Guard(s, st)
  {
    var c := s.k.current;
    match st
    case Start => Out(s.(k := s.k.(pending := true), ctl := LoopHead), [])
    case LoopClear => Out(s.(k := s.k.(pending := false), ctl := Picking), [])
    case Dispatch => DispatchNext(s)
    case SchedEntry => Out(s.(k := OnSchedulerEntry(s.k), ctl := LoopHead),
                           if RotationDue(s.k) then [ReadyEvent(s, c)] else [])
    case PendSv(sp) => PendSvNext(s, sp)
    case TaskYield => YieldNext(s)
    case TaskSleep(ms) => Out(s.(k := SleepCurrent(s.k, ms), ctl := Hopping), [])
    case TaskDelete => Out(s.(k := DeleteCurrent(s.k), ctl := Hopping), [])
    case TaskCreate(a) => CreateNext(s, a)
    case SetPolicy(p) => Out(s.(k := s.k.(policy := p)), [])
    case SetDefaultSlice(t) => Out(s.(k := s.k.(defaultSlice := t)), [])
    case SemTryTakeCall(i) =>
      var (m1, ok) := SemTryTake(s.sems[i]);
      Out(s.(sems := s.sems[i := m1]), if ok then [SemTaken(i)] else [])
    case SemTakeCall(i) =>
      var (m1, ok) := SemTryTake(s.sems[i]);
      if ok then Out(s.(sems := s.sems[i := m1]), [SemTaken(i)]) else Out(At(s, SemRecheck(i)), [])
    case SemGiveCall(i) =>
      var o := SemGiveCs(s, i);
      Out(At(o.s, AfterWake(s.sems[i].waiters != [])), o.evs)
    case MutexTryLockCall(i) =>
      var (m1, ok) := MutexTryLock(s.mutexes[i], c);
      Out(s.(mutexes := s.mutexes[i := m1]), if ok then [MutexGained(i, c)] else [])
    case MutexLockCall(i) =>
      var (m1, ok) := MutexTryLock(s.mutexes[i], c);
      if ok then Out(s.(mutexes := s.mutexes[i := m1]), [MutexGained(i, c)]) else Out(At(s, MutexRecheck(i)), [])
    case MutexUnlockCall(i) => MutexUnlockNext(s, i)
    case TrySendCall(i, item) =>
      if s.queues[i].Full() then Out(s, [])
      else
        Out(At(AfterSend(s, i, item), AfterWake(s.queues[i].receivers != [])), SendEvents(s, i, item, Trying(c)))
    case SendCall(i, item) =>
      var o := SendAttempt(s, i, item, false);
      Out(o.s, [SendCalled(c, i, item)] + o.evs)
    case TryRecvCall(i) =>
      if s.queues[i].items == [] then Out(s, [])
      else
        Out(At(AfterRecv(s, i), AfterWake(s.queues[i].senders != [])), RecvEvents(s, i, Trying(c)))
    case RecvCall(i) =>
      var o := RecvAttempt(s, i, false);
      Out(o.s, [RecvCalled(c, i)] + o.evs)
    case Continue => ContinueNext(s)
    case Tick(handlerPends) => TickNext(s, handlerPends)
    case SemGiveIsr(i) =>
      var o := SemGiveCs(s, i);
      Out(Pend(o.s, s.sems[i].waiters != []), o.evs)
    case SendIsr(i, item) =>
      if s.queues[i].Full() then Out(s, [])
      else
        Out(Pend(AfterSend(s, i, item), s.queues[i].receivers != []), SendEvents(s, i, item, Isr))
    case RecvIsr(i) =>
      if s.queues[i].items == [] then Out(s, [])
      else
        Out(Pend(AfterRecv(s, i), s.queues[i].senders != []), RecvEvents(s, i, Isr))
  }

  function Pend(s: Sys, request: bool): Sys {
    s.(k := s.k.(pending := s.k.pending || request))
  }

  // ------------------------------------------------------------------ runs

  ghost predicate Enabled(s: Sys, st: Step) {
    Shape(s) && Guard(s, st) && HopSafe(Next(s, st).s)
  }

  ghost predicate ValidRun(s: Sys, steps: seq<Step>)
    decreases |steps|
  {
    steps == [] || (Enabled(s, steps[0]) && ValidRun(Next(s, steps[0]).s, steps[1..]))
  }

  ghost function Run(s: Sys, steps: seq<Step>): Out
    requires ValidRun(s, steps)
    decreases |steps|
  {
    if steps == [] then Out(s, [])
    else
      var o := Next(s, steps[0]);
      var r := Run(o.s, steps[1..]);
      Out(r.s, o.evs + r.evs)
  }

  /** One step in front of a run. */
  lemma RunCons(s: Sys, st: Step, rest: seq<Step>, s1: Sys)
    requires Enabled(s, st) && Next(s, st).s == s1 && ValidRun(s1, rest)
    ensures ValidRun(s, [st] + rest) && Run(s, [st] + rest).s == Run(s1, rest).s
  {
    assert ([st] + rest)[1..] == rest;
  }

  /** The states a system can be started in: hrt_init done, no task created, nobody waiting.
      The tick may have any value, so that runs across the 32-bit wrap are covered. */
  ghost predicate InitialSys(s: Sys) {
    && 2 <= |s.k.tcbs| <= 255
    && |s.pcs| == |s.k.tcbs|
    && s.ctl.Boot? && s.k.current == -1
    && (forall t :: 0 <= t < |s.k.tcbs| ==> s.k.tcbs[t].state.Unused? && s.k.tcbs[t].sliceLeft == 0 && s.pcs[t].User?)
    && (forall q :: Q(s, q) == [])
    && (forall i :: 0 <= i < |s.sems| ==> s.sems[i].count <= s.sems[i].max)
    && (forall i :: 0 <= i < |s.mutexes| ==> s.mutexes[i] == MutexInit())
    && (forall i :: 0 <= i < |s.queues| ==> s.queues[i].capacity > 0 && s.queues[i].items == [])
  }
}
