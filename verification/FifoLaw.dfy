/** One law for every id queue of the kernel, ready queues and waiter queues alike: over any run,
    what was taken out followed by what is left equals what was there followed by what was put in.
    Order of dispatch, order of semaphore grants and order of mutex handoffs all follow from it. */
module FifoLaw {
  import opened Sequences
  import opened KernelSpec
  import opened PrimitivesSpec
  import opened KernelSystem
  import opened Placement
  import opened Invariants

  function PopOf(q: QueueId): Event -> seq<nat> {
    (e: Event) => if e.Popped? && e.q == q then [e.id] else []
  }

  function PushOf(q: QueueId): Event -> seq<nat> {
    (e: Event) => if e.Pushed? && e.q == q then [e.id] else []
  }

  /** The ids taken from, and put into, queue q by a sequence of events, in order. */
  function Pops(evs: seq<Event>, q: QueueId): seq<nat> { FlatMap(evs, PopOf(q)) }

  function Pushes(evs: seq<Event>, q: QueueId): seq<nat> { FlatMap(evs, PushOf(q)) }

  predicate Fifo(s: Sys, o: Out, q: QueueId) {
    Pops(o.evs, q) + Q(o.s, q) == Q(s, q) + Pushes(o.evs, q)
  }

  ghost predicate FifoAll(s: Sys, o: Out) {
    forall q :: Fifo(s, o, q)
  }

  lemma FifoCompose(s: Sys, o1: Out, o2: Out)
    requires FifoAll(s, o1) && FifoAll(o1.s, o2)
    ensures FifoAll(s, Out(o2.s, o1.evs + o2.evs))
  {
    forall q
      ensures Fifo(s, Out(o2.s, o1.evs + o2.evs), q)
    {
      FlatMapConcat(o1.evs, o2.evs, PopOf(q));
      FlatMapConcat(o1.evs, o2.evs, PushOf(q));
      assert Fifo(s, o1, q) && Fifo(o1.s, o2, q);
      Chain(Q(s, q), Q(o1.s, q), Q(o2.s, q), Pushes(o1.evs, q), Pushes(o2.evs, q), Pops(o1.evs, q), Pops(o2.evs, q));
    }
  }

  predicate Neutral(e: Event) { !e.Popped? && !e.Pushed? }

  lemma {:induction false} NeutralEvents(evs: seq<Event>, q: QueueId)
    requires forall e :: e in evs ==> Neutral(e)
    ensures Pops(evs, q) == [] && Pushes(evs, q) == []
  {
    if evs != [] {
      assert evs[0] in evs;
      NeutralEvents(evs[1..], q);
    }
  }

  /** A step that changes no queue. */
  lemma FifoStill(s: Sys, o: Out)
    requires forall q :: Q(o.s, q) == Q(s, q)
    requires forall e :: e in o.evs ==> Neutral(e)
    ensures FifoAll(s, o)
  {
    forall q
      ensures Fifo(s, o, q)
    {
      NeutralEvents(o.evs, q);
    }
  }

  lemma FifoPush(s: Sys, s1: Sys, q0: QueueId, t: nat)
    requires forall q :: Q(s1, q) == if q == q0 then Q(s, q) + [t] else Q(s, q)
    ensures FifoAll(s, Out(s1, [Pushed(q0, t)]))
  {
    forall q
      ensures Fifo(s, Out(s1, [Pushed(q0, t)]), q)
    {
      FlatMapOne(Pushed(q0, t), PopOf(q));
      FlatMapOne(Pushed(q0, t), PushOf(q));
    }
  }

  lemma FifoPop(s: Sys, s1: Sys, q0: QueueId)
    requires Q(s, q0) != []
    requires forall q :: Q(s1, q) == if q == q0 then Q(s, q)[1..] else Q(s, q)
    ensures FifoAll(s, Out(s1, [Popped(q0, Q(s, q0)[0])]))
  {
    var e := Popped(q0, Q(s, q0)[0]);
    forall q
      ensures Fifo(s, Out(s1, [e]), q)
    {
      FlatMapOne(e, PopOf(q));
      FlatMapOne(e, PushOf(q));
      assert q == q0 ==> Q(s, q) == [Q(s, q)[0]] + Q(s, q)[1..];
    }
  }

  /** The head of one queue goes to the tail of another. */
  lemma FifoTransfer(s: Sys, s1: Sys, q0: QueueId, q1: QueueId)
    requires q0 != q1 && Q(s, q0) != []
    requires forall q :: Q(s1, q) == if q == q0 then Q(s, q)[1..] else if q == q1 then Q(s, q) + [Q(s, q0)[0]] else Q(s, q)
    ensures FifoAll(s, Out(s1, [Popped(q0, Q(s, q0)[0]), Pushed(q1, Q(s, q0)[0])]))
  {
    var t := Q(s, q0)[0];
    var evs := [Popped(q0, t), Pushed(q1, t)];
    forall q
      ensures Fifo(s, Out(s1, evs), q)
    {
      FlatMapTwo(Popped(q0, t), Pushed(q1, t), PopOf(q));
      FlatMapTwo(Popped(q0, t), Pushed(q1, t), PushOf(q));
      assert q == q0 ==> Q(s, q) == [t] + Q(s, q)[1..];
    }
  }

  // ------------------------------------------------------------------ the steps

  /** Waking the head of a waiter queue, with neutral events before and after. */
  lemma WakeFifo(s: Sys, s1: Sys, w: WaitId)
    requires Placed(s) && Q(s, WaitQ(w)) != [] && Q(s, WaitQ(w))[0] < |s.k.tcbs|
    requires s1.k == MakeReady(s.k, Q(s, WaitQ(w))[0])
    requires forall v :: Q(s1, WaitQ(v)) == if v == w then Q(s, WaitQ(v))[1..] else Q(s, WaitQ(v))
    ensures FifoAll(s, Out(s1, WakeEvents(s, w)))
  {
    var t := Q(s, WaitQ(w))[0];
    var p := s.k.tcbs[t].prio;
    assert t in Q(s, WaitQ(w)) && QueueOk(s, WaitQ(w));
    assert TaskOk(s, t) && t !in Q(s, ReadyQ(p)) by { assert QueueOk(s, ReadyQ(p)); }
    Room(s, ReadyQ(p), t);
    FifoTransfer(s, s1, WaitQ(w), ReadyQ(p));
  }

  lemma FifoBracket(s: Sys, s1: Sys, s2: Sys, pre: seq<Event>, mid: seq<Event>, post: seq<Event>)
    requires FifoAll(s, Out(s1, mid)) && forall q :: Q(s2, q) == Q(s1, q)
    requires (forall e :: e in pre ==> Neutral(e)) && (forall e :: e in post ==> Neutral(e))
    ensures FifoAll(s, Out(s2, pre + mid + post))
  {
    FifoStill(s, Out(s, pre));
    FifoCompose(s, Out(s, pre), Out(s1, mid));
    FifoStill(s1, Out(s2, post));
    FifoCompose(s, Out(s1, pre + mid), Out(s2, post));
  }

  lemma SemGiveCsFifo(s: Sys, i: nat)
    requires Placed(s) && Shape(s) && i < |s.sems|
    ensures FifoAll(s, SemGiveCs(s, i))
  {
    var m, o, w := s.sems[i], SemGiveCs(s, i), SemWaiters(i);
    if m.waiters != [] {
      HeadIsATask(s, w);
      WakeFifo(s, o.s, w);
      FifoBracket(s, o.s, o.s, [SemGiven(i)], WakeEvents(s, w), []);
    } else {
      FifoStill(s, o);
    }
  }

  lemma SendFifo(s: Sys, i: nat, item: Item, who: Caller)
    requires Placed(s) && Shape(s) && i < |s.queues|
    ensures FifoAll(s, Out(AfterSend(s, i, item), SendEvents(s, i, item, who)))
  {
    var s1, w, evs := AfterSend(s, i, item), Receivers(i), SendEvents(s, i, item, who);
    if s.queues[i].receivers != [] {
      HeadIsATask(s, w);
      WakeFifo(s, s1, w);
      FifoBracket(s, s1, s1, [Enqueued(i, item, who)], WakeEvents(s, w), []);
      assert [Enqueued(i, item, who)] + WakeEvents(s, w) + [] == evs;
    } else {
      FifoStill(s, Out(s1, evs));
    }
  }

  lemma RecvFifo(s: Sys, i: nat, who: Caller)
    requires Placed(s) && Shape(s) && i < |s.queues| && s.queues[i].items != []
    ensures FifoAll(s, Out(AfterRecv(s, i), RecvEvents(s, i, who)))
  {
    var s1, w, evs := AfterRecv(s, i), Senders(i), RecvEvents(s, i, who);
    var e := Dequeued(i, s.queues[i].items[0], who);
    if s.queues[i].senders != [] {
      HeadIsATask(s, w);
      WakeFifo(s, s1, w);
      FifoBracket(s, s1, s1, [e], WakeEvents(s, w), []);
      assert [e] + WakeEvents(s, w) + [] == evs;
    } else {
      FifoStill(s, Out(s1, evs));
    }
  }

  /** The rest of a step after its critical section touches no queue. */
  lemma FifoThen(s: Sys, o: Out, s1: Sys, pre: seq<Event>, post: seq<Event>)
    requires FifoAll(s, o) && forall q :: Q(s1, q) == Q(o.s, q)
    requires (forall e :: e in pre ==> Neutral(e)) && (forall e :: e in post ==> Neutral(e))
    ensures FifoAll(s, Out(s1, pre + o.evs + post))
    ensures pre == [] && post == [] ==> FifoAll(s, Out(s1, o.evs))
  {
    FifoBracket(s, o.s, s1, pre, o.evs, post);
    assert [] + o.evs + [] == o.evs;
  }

  lemma UnlockFifo(s: Sys, i: nat)
    requires Placed(s) && Shape(s) && Guard(s, MutexUnlockCall(i))
    ensures FifoAll(s, MutexUnlockNext(s, i))
  {
    var m, o, w := s.mutexes[i], MutexUnlockNext(s, i), MutexWaiters(i);
    if m.locked && m.owner == s.k.current && m.waiters != [] {
      HeadIsATask(s, w);
      WakeFifo(s, o.s, w);
      FifoBracket(s, o.s, o.s, [MutexDropped(i, s.k.current)], WakeEvents(s, w), [MutexGained(i, m.waiters[0])]);
    } else {
      FifoStill(s, o);
    }
  }

  lemma {:induction false} DueEventsFrame(k: KState, k1: KState, i: nat)
    requires i <= |k.tcbs| == |k1.tcbs| && k1.tick == k.tick
    requires forall j :: i <= j < |k.tcbs| ==> k1.tcbs[j] == k.tcbs[j]
    ensures DueEvents(k1, i) == DueEvents(k, i)
    decreases |k.tcbs| - i
  {
    if i < |k.tcbs| {
      DueEventsFrame(k, k1, i + 1);
    }
  }

  lemma WakeOneFifo(s: Sys, i: nat)
    requires Placed(s) && i < |s.k.tcbs| && s.k.tcbs[i].state.Sleep?
    ensures Placed(s.(k := MakeReady(s.k, i)))
    ensures FifoAll(s, Out(s.(k := MakeReady(s.k, i)), [ReadyEvent(s, i)]))
  {
    var s1 := s.(k := MakeReady(s.k, i));
    var r := s.k.tcbs[i];
    assert TaskOk(s, i);
    ReadyKeepsPlaced(s, s1, i, Nowhere, r.(state := Ready, sliceLeft := r.sliceCfg));
    FifoPush(s, s1, ReadyQ(r.prio), i);
  }

  /** The wake loop appends exactly the due sleepers, in slot order. */
  lemma {:induction false} WakeLoopFifo(s: Sys, i: nat)
    requires Placed(s) && i <= |s.k.tcbs|
    ensures FifoAll(s, Out(s.(k := WakeDue(s.k, i)), DueEvents(s.k, i)))
    decreases |s.k.tcbs| - i
  {
    if i == |s.k.tcbs| {
      FifoStill(s, Out(s, []));
    } else if IsDue(s.k.tcbs[i], s.k.tick) {
      var s1 := s.(k := MakeReady(s.k, i));
      WakeOneFifo(s, i);
      WakeLoopFifo(s1, i + 1);
      DueEventsFrame(s.k, s1.k, i + 1);
      FifoCompose(s, Out(s1, [ReadyEvent(s, i)]), Out(s1.(k := WakeDue(s1.k, i + 1)), DueEvents(s1.k, i + 1)));
    } else {
      WakeLoopFifo(s, i + 1);
      assert [] + DueEvents(s.k, i + 1) == DueEvents(s.k, i + 1);
    }
  }

  lemma TickFifo(s: Sys, handlerPends: bool)
    requires Placed(s) && Shape(s)
    ensures FifoAll(s, TickNext(s, handlerPends))
  {
    var o, s1 := TickNext(s, handlerPends), s.(k := AdvanceTick(s.k));
    StillKeepsPlaced(s, s1);
    WakeLoopFifo(s1, 0);
    FifoThen(s1, Out(s1.(k := WakeDue(s1.k, 0)), o.evs), o.s, [], []);
    forall q
      ensures Fifo(s, o, q)
    {
      assert Fifo(s1, o, q) && Q(s1, q) == Q(s, q);
    }
  }

  /** The pick takes the head of the best class. */
  lemma PickFifo(s: Sys, s1: Sys)
    requires s1 == s.(k := s1.k, ctl := s1.ctl) && s1.k.rq == PickNextReady(s.k).0.rq
    ensures FifoAll(s, Out(s1, PickEvents(s.k)))
  {
    var p := FirstNonEmpty(s.k.rq, 0);
    if p < |s.k.rq| {
      FifoPop(s, s1, ReadyQ(p));
    } else {
      FifoStill(s, Out(s1, []));
    }
  }

  /** The first half of PendSV puts a running task at the tail of its class. */
  lemma SwitchOutFifo(s: Sys, oldSp: nat)
    requires Placed(s) && Shape(s) && HopSafe(s) && PortOk(s) && Guard(s, PendSv(oldSp))
    ensures FifoAll(s, Out(SwitchedOut(s, oldSp), SwitchOutEvents(s, oldSp)))
  {
    var s1, c := SwitchedOut(s, oldSp), s.k.current;
    if s.ctl.Running? {
      ReadyKeepsPlaced(s, s1, c, OnCpu, s.k.tcbs[c].(sp := oldSp));
      FifoPush(s, s1, ReadyQ(s.k.tcbs[c].prio), c);
    } else {
      FifoStill(s, Out(s1, SwitchOutEvents(s, oldSp)));
    }
  }

  lemma PendSvFifo(s: Sys, oldSp: nat)
    requires Placed(s) && Shape(s) && HopSafe(s) && PortOk(s) && Guard(s, PendSv(oldSp))
    ensures FifoAll(s, PendSvNext(s, oldSp))
  {
    var o, s1 := PendSvNext(s, oldSp), SwitchedOut(s, oldSp);
    SwitchOutFifo(s, oldSp);
    PickFifo(s1, o.s);
    FifoCompose(s, Out(s1, SwitchOutEvents(s, oldSp)), Out(o.s, PickEvents(s1.k)));
  }

  lemma YieldFifo(s: Sys)
    requires Placed(s) && Shape(s) && s.ctl.Running? && !s.pcs[s.k.current].IsParked()
    ensures FifoAll(s, YieldNext(s))
  {
    var c := s.k.current;
    var r := s.k.tcbs[c];
    ReadyKeepsPlaced(s, YieldNext(s).s, c, OnCpu, r.(sliceLeft := r.sliceCfg));
    FifoPush(s, YieldNext(s).s, ReadyQ(r.prio), c);
  }

  lemma CreateFifo(s: Sys, a: CreateArgs)
    requires Placed(s) && Shape(s) && Guard(s, TaskCreate(a))
    ensures FifoAll(s, CreateNext(s, a))
  {
    var o, id := CreateNext(s, a), LowestUnused(s.k.tcbs, 0);
    if a.Acceptable() && id < |s.k.tcbs| {
      ReadyKeepsPlaced(s, o.s, id, Nowhere, NewTcb(s.k, a));
      FifoPush(s, o.s, ReadyQ(a.Prio()), id);
    } else {
      FifoStill(s, o);
    }
  }

  /** Parking puts the running task at the tail of the waiter queue. */
  lemma ParkFifo(s: Sys, s1: Sys, w: WaitId)
    requires Placed(s) && s.ctl.Running? && s1.k.rq == s.k.rq
    requires forall v :: Q(s1, WaitQ(v)) == if v == w then WaitPush(Q(s, WaitQ(v)), s.k.current, |s.k.tcbs|) else Q(s, WaitQ(v))
    ensures FifoAll(s, Out(s1, [Pushed(WaitQ(w), s.k.current)]))
  {
    assert s.k.current !in Q(s, WaitQ(w)) by { assert QueueOk(s, WaitQ(w)); }
    Room(s, WaitQ(w), s.k.current);
    FifoPush(s, s1, WaitQ(w), s.k.current);
  }

  lemma SendAttemptFifo(s: Sys, i: nat, item: Item, woken: bool)
    requires Placed(s) && Shape(s) && s.k.HasCurrent() && i < |s.queues|
    ensures FifoAll(s, SendAttempt(s, i, item, woken))
  {
    var o := SendAttempt(s, i, item, woken);
    if s.queues[i].Full() {
      FifoStill(s, o);
    } else {
      SendFifo(s, i, item, Blocking(s.k.current));
      FifoThen(s, Out(AfterSend(s, i, item), o.evs), o.s, [], []);
    }
  }

  lemma RecvAttemptFifo(s: Sys, i: nat, woken: bool)
    requires Placed(s) && Shape(s) && s.k.HasCurrent() && i < |s.queues|
    ensures FifoAll(s, RecvAttempt(s, i, woken))
  {
    var o := RecvAttempt(s, i, woken);
    if s.queues[i].items == [] {
      FifoStill(s, o);
    } else {
      RecvFifo(s, i, Blocking(s.k.current));
      FifoThen(s, Out(AfterRecv(s, i), o.evs), o.s, [], []);
    }
  }

  lemma LockRecheckFifo(s: Sys, i: nat)
    requires Placed(s) && Shape(s) && s.ctl.Running? && !s.pcs[s.k.current].IsParked()
    ensures i < |s.sems| ==> FifoAll(s, SemRecheckNext(s, i))
    ensures i < |s.mutexes| ==> FifoAll(s, MutexRecheckNext(s, i))
  {
    if i < |s.sems| {
      var o := SemRecheckNext(s, i);
      if o.s.ctl.Hopping? {
        ParkFifo(s, o.s, SemWaiters(i));
      } else {
        FifoStill(s, o);
      }
    }
    if i < |s.mutexes| {
      var o := MutexRecheckNext(s, i);
      if o.s.ctl.Hopping? {
        ParkFifo(s, o.s, MutexWaiters(i));
      } else {
        FifoStill(s, o);
      }
    }
  }

  lemma SendRecheckFifo(s: Sys, i: nat, item: Item)
    requires Placed(s) && Shape(s) && s.ctl.Running? && i < |s.queues|
    ensures FifoAll(s, SendRecheckNext(s, i, item))
  {
    var o := SendRecheckNext(s, i, item);
    if s.queues[i].Full() {
      ParkFifo(s, o.s, Senders(i));
    } else {
      SendFifo(s, i, item, Blocking(s.k.current));
      FifoThen(s, Out(AfterSend(s, i, item), o.evs), o.s, [], []);
    }
  }

  lemma RecvRecheckFifo(s: Sys, i: nat)
    requires Placed(s) && Shape(s) && s.ctl.Running? && i < |s.queues|
    ensures FifoAll(s, RecvRecheckNext(s, i))
  {
    var o := RecvRecheckNext(s, i);
    if s.queues[i].items == [] {
      ParkFifo(s, o.s, Receivers(i));
    } else {
      RecvFifo(s, i, Blocking(s.k.current));
      FifoThen(s, Out(AfterRecv(s, i), o.evs), o.s, [], []);
    }
  }

  lemma ContinueFifo(s: Sys)
    requires Placed(s) && Shape(s) && Guard(s, Continue)
    ensures FifoAll(s, ContinueNext(s))
  {
    var pc := s.pcs[s.k.current];
    if pc.MustYield? {
      YieldFifo(s);
    } else if pc.SendTry? {
      SendAttemptFifo(s, pc.i, pc.item, pc.woken);
    } else if pc.RecvTry? {
      RecvAttemptFifo(s, pc.i, pc.woken);
    } else if pc.SendRecheck? {
      SendRecheckFifo(s, pc.i, pc.item);
    } else if pc.RecvRecheck? {
      RecvRecheckFifo(s, pc.i);
    } else {
      LockRecheckFifo(s, pc.i);
    }
  }

  lemma GiveFifo(s: Sys, st: Step)
    requires Placed(s) && Shape(s) && Guard(s, st) && (st.SemGiveCall? || st.SemGiveIsr?)
    ensures FifoAll(s, Next(s, st))
  {
    SemGiveCsFifo(s, st.i);
    FifoThen(s, SemGiveCs(s, st.i), Next(s, st).s, [], []);
  }

  lemma SendStepFifo(s: Sys, st: Step)
    requires Placed(s) && Shape(s) && Guard(s, st) && (st.TrySendCall? || st.SendCall? || st.SendIsr?)
    ensures FifoAll(s, Next(s, st))
  {
    var o := Next(s, st);
    if st.SendCall? {
      SendAttemptFifo(s, st.i, st.item, false);
      var call := [SendCalled(s.k.current, st.i, st.item)];
      FifoThen(s, SendAttempt(s, st.i, st.item, false), o.s, call, []);
      assert call + SendAttempt(s, st.i, st.item, false).evs + [] == o.evs;
    } else if s.queues[st.i].Full() {
      FifoStill(s, o);
    } else {
      SendFifo(s, st.i, st.item, if st.SendIsr? then Isr else Trying(s.k.current));
      FifoThen(s, Out(AfterSend(s, st.i, st.item), o.evs), o.s, [], []);
    }
  }

  lemma RecvStepFifo(s: Sys, st: Step)
    requires Placed(s) && Shape(s) && Guard(s, st) && (st.TryRecvCall? || st.RecvCall? || st.RecvIsr?)
    ensures FifoAll(s, Next(s, st))
  {
    var o := Next(s, st);
    if st.RecvCall? {
      RecvAttemptFifo(s, st.i, false);
      var call := [RecvCalled(s.k.current, st.i)];
      FifoThen(s, RecvAttempt(s, st.i, false), o.s, call, []);
      assert call + RecvAttempt(s, st.i, false).evs + [] == o.evs;
    } else if s.queues[st.i].items == [] {
      FifoStill(s, o);
    } else {
      RecvFifo(s, st.i, if st.RecvIsr? then Isr else Trying(s.k.current));
      FifoThen(s, Out(AfterRecv(s, st.i), o.evs), o.s, [], []);
    }
  }

  lemma QuietStepFifo(s: Sys, st: Step)
    requires Placed(s) && Shape(s) && HopSafe(s) && Guard(s, st)
    requires st.Start? || st.LoopClear? || st.SchedEntry? || st.TaskSleep? || st.TaskDelete? || st.SetPolicy?
             || st.SetDefaultSlice? || st.SemTryTakeCall? || st.SemTakeCall? || st.MutexTryLockCall? || st.MutexLockCall?
    ensures FifoAll(s, Next(s, st))
  {
    FifoStill(s, Next(s, st));
  }

  /** Every step obeys the law on every queue. */
  lemma StepFifo(s: Sys, st: Step)
    requires Inv(s) && Enabled(s, st)
    ensures FifoAll(s, Next(s, st))
  {
    if st.Dispatch? { PickFifo(s, DispatchNext(s).s); }
    else if st.PendSv? { PendSvFifo(s, st.oldSp); }
    else if st.TaskYield? { YieldFifo(s); }
    else if st.TaskCreate? { CreateFifo(s, st.args); }
    else if st.MutexUnlockCall? { UnlockFifo(s, st.i); }
    else if st.Continue? { ContinueFifo(s); }
    else if st.Tick? { TickFifo(s, st.handlerPends); }
    else if st.SemGiveCall? || st.SemGiveIsr? { GiveFifo(s, st); }
    else if st.TrySendCall? || st.SendCall? || st.SendIsr? { SendStepFifo(s, st); }
    else if st.TryRecvCall? || st.RecvCall? || st.RecvIsr? { RecvStepFifo(s, st); }
    else { QuietStepFifo(s, st); }
  }

  // ------------------------------------------------------------------ runs

  /** The law over any run: taken ++ left == initial ++ added, for every queue of the kernel. */
  lemma {:induction false} RunFifo(s: Sys, steps: seq<Step>)
    requires Inv(s) && ValidRun(s, steps)
    ensures FifoAll(s, Run(s, steps))
    decreases |steps|
  {
    if steps == [] {
      FifoStill(s, Run(s, steps));
    } else {
      StepFifo(s, steps[0]);
      StepKeepsInv(s, steps[0]);
      RunFifo(Next(s, steps[0]).s, steps[1..]);
      FifoCompose(s, Next(s, steps[0]), Run(Next(s, steps[0]).s, steps[1..]));
    }
  }

  /** The element at position k of a FIFO, after `taken` was taken from it and `left` remains. */
  ghost predicate MovedUp<T>(initial: seq<T>, taken: seq<T>, left: seq<T>, k: nat)
    requires k < |initial|
  {
    if |taken| <= k then k - |taken| < |left| && left[k - |taken|] == initial[k] else taken[k] == initial[k]
  }

  lemma PositionAfter<T>(taken: seq<T>, left: seq<T>, initial: seq<T>, added: seq<T>, k: nat)
    requires taken + left == initial + added && k < |initial|
    ensures MovedUp(initial, taken, left, k)
  {
    assert (taken + left)[k] == (initial + added)[k];
  }

  /** No overtaking: the task at position k of a queue moves up by exactly the number of ids taken
      from that queue, and is itself the (k+1)-th to be taken. For a ready queue this is the order
      of dispatch within a class; for a waiter queue the order of grants. */
  lemma NoOvertaking(s: Sys, steps: seq<Step>, q: QueueId, k: nat)
    requires Inv(s) && ValidRun(s, steps) && k < |Q(s, q)|
    ensures MovedUp(Q(s, q), Pops(Run(s, steps).evs, q), Q(Run(s, steps).s, q), k)
  {
    var o := Run(s, steps);
    assert Fifo(s, o, q) by { RunFifo(s, steps); }
    PositionAfter(Pops(o.evs, q), Q(o.s, q), Q(s, q), Pushes(o.evs, q), k);
  }

  // ------------------------------------------------------------------ dispatch order

  /** The task this step gives the CPU, if its class is p. */
  ghost function GivenCpu(s: Sys, st: Step, p: nat): seq<nat>
    requires Shape(s) && Guard(s, st)
  {
    var s1 := Next(s, st).s;
    if (st.Dispatch? || st.PendSv?) && s1.ctl.Running? && s1.k.HasCurrent() && s1.k.tcbs[s1.k.current].prio == p
    then [s1.k.current] else []
  }

  /** The tasks of class p that get the CPU in a run, in order. */
  ghost function Dispatched(s: Sys, steps: seq<Step>, p: nat): seq<nat>
    requires ValidRun(s, steps)
    decreases |steps|
  {
    if steps == [] then []
    else GivenCpu(s, steps[0], p) + Dispatched(Next(s, steps[0]).s, steps[1..], p)
  }

  ghost predicate NoReadyPop(evs: seq<Event>) {
    forall e :: e in evs ==> !(e.Popped? && e.q.ReadyQ?)
  }

  lemma {:induction false} DueEventsPopNothing(k: KState, i: nat)
    requires i <= |k.tcbs|
    ensures NoReadyPop(DueEvents(k, i))
    decreases |k.tcbs| - i
  {
    if i < |k.tcbs| {
      DueEventsPopNothing(k, i + 1);
    }
  }

  lemma ContinuePopsNothing(s: Sys)
    requires Shape(s) && Guard(s, Continue)
    ensures NoReadyPop(ContinueNext(s).evs)
  {
    var pc := s.pcs[s.k.current];
    if pc.SendTry? || pc.SendRecheck? || pc.RecvTry? || pc.RecvRecheck? {
      QueueOpPopsNothing(s, pc.i, if pc.SendTry? || pc.SendRecheck? then pc.item else [], Blocking(s.k.current));
    }
  }

  lemma QueueOpPopsNothing(s: Sys, i: nat, item: Item, who: Caller)
    requires Shape(s) && i < |s.queues|
    ensures NoReadyPop(SendEvents(s, i, item, who))
    ensures s.queues[i].items != [] ==> NoReadyPop(RecvEvents(s, i, who))
  {
  }

  lemma SendStepPopsNothing(s: Sys, st: Step)
    requires Shape(s) && Guard(s, st) && (st.TrySendCall? || st.SendCall? || st.SendIsr?)
    ensures NoReadyPop(Next(s, st).evs)
  {
    var who := if st.SendIsr? then Isr else if st.SendCall? then Blocking(s.k.current) else Trying(s.k.current);
    QueueOpPopsNothing(s, st.i, st.item, who);
  }

  lemma RecvStepPopsNothing(s: Sys, st: Step)
    requires Shape(s) && Guard(s, st) && (st.TryRecvCall? || st.RecvCall? || st.RecvIsr?)
    ensures NoReadyPop(Next(s, st).evs)
  {
    var who := if st.RecvIsr? then Isr else if st.RecvCall? then Blocking(s.k.current) else Trying(s.k.current);
    QueueOpPopsNothing(s, st.i, [], who);
  }

  lemma OtherStepPopsNothing(s: Sys, st: Step)
    requires Shape(s) && Guard(s, st) && !st.Dispatch? && !st.PendSv? && !st.Tick? && !st.Continue?
    ensures NoReadyPop(Next(s, st).evs)
  {
    if st.TrySendCall? || st.SendCall? || st.SendIsr? {
      SendStepPopsNothing(s, st);
    } else if st.TryRecvCall? || st.RecvCall? || st.RecvIsr? {
      RecvStepPopsNothing(s, st);
    } else if st.MutexUnlockCall? {
      UnlockPopsNothing(s, st.i);
    }
  }

  lemma UnlockPopsNothing(s: Sys, i: nat)
    requires Shape(s) && s.k.HasCurrent() && i < |s.mutexes|
    ensures NoReadyPop(MutexUnlockNext(s, i).evs)
  {
  }

  /** The pick pops exactly the task it names, from the queue of that task's own class. */
  lemma PickPops(s: Sys, p: nat)
    requires Placed(s)
    ensures var (k1, next) := PickNextReady(s.k);
            Pops(PickEvents(s.k), ReadyQ(p))
            == if next != s.k.IdleId() && 0 <= next < |s.k.tcbs| && s.k.tcbs[next].prio == p then [next] else []
  {
    var b := FirstNonEmpty(s.k.rq, 0);
    PickIsATask(s);
    if b < |s.k.rq| {
      var next := s.k.rq[b][0];
      assert next in Q(s, ReadyQ(b)) && QueueOk(s, ReadyQ(b)) && TaskOk(s, next);
      FlatMapOne(Popped(ReadyQ(b), next), PopOf(ReadyQ(p)));
    }
  }

  lemma PendSvPops(s: Sys, oldSp: nat, p: nat)
    requires Inv(s) && Enabled(s, PendSv(oldSp))
    ensures Pops(PendSvNext(s, oldSp).evs, ReadyQ(p)) == GivenCpu(s, PendSv(oldSp), p)
  {
    SwitchOutKeepsPlaced(s, oldSp);
    PickPops(SwitchedOut(s, oldSp), p);
    SwitchOutPopsNothing(s, oldSp, p);
  }

  lemma SwitchOutPopsNothing(s: Sys, oldSp: nat, p: nat)
    requires Shape(s) && (oldSp != 0 ==> s.k.HasCurrent())
    ensures Pops(PendSvNext(s, oldSp).evs, ReadyQ(p)) == Pops(PickEvents(SwitchOut(s.k, oldSp)), ReadyQ(p))
  {
    var evs, pick := SwitchOutEvents(s, oldSp), PickEvents(SwitchOut(s.k, oldSp));
    FlatMapNone(evs, PopOf(ReadyQ(p)));
    FlatMapConcat(evs, pick, PopOf(ReadyQ(p)));
    assert [] + Pops(pick, ReadyQ(p)) == Pops(pick, ReadyQ(p));
  }

  lemma StepPopsWhatItDispatches(s: Sys, st: Step, p: nat)
    requires Inv(s) && Enabled(s, st)
    ensures Pops(Next(s, st).evs, ReadyQ(p)) == GivenCpu(s, st, p)
  {
    if st.Dispatch? {
      PickPops(s, p);
    } else if st.PendSv? {
      PendSvPops(s, st.oldSp, p);
    } else {
      if st.Tick? {
        DueEventsPopNothing(AdvanceTick(s.k), 0);
      } else if st.Continue? {
        ContinuePopsNothing(s);
      } else {
        OtherStepPopsNothing(s, st);
      }
      FlatMapNone(Next(s, st).evs, PopOf(ReadyQ(p)));
    }
  }

  lemma {:induction false} PopsAreDispatches(s: Sys, steps: seq<Step>, p: nat)
    requires Inv(s) && ValidRun(s, steps)
    ensures Pops(Run(s, steps).evs, ReadyQ(p)) == Dispatched(s, steps, p)
    decreases |steps|
  {
    if steps != [] {
      var o := Next(s, steps[0]);
      StepPopsWhatItDispatches(s, steps[0], p);
      StepKeepsInv(s, steps[0]);
      PopsAreDispatches(o.s, steps[1..], p);
      FlatMapConcat(o.evs, Run(o.s, steps[1..]).evs, PopOf(ReadyQ(p)));
    }
  }

  /** Dispatch order within a class, on either port: the task at position k of its ready queue moves up one
      place at each dispatch from that class and at no other step, and is the class's (k+1)-th dispatch. */
  lemma DispatchedInTurn(s: Sys, steps: seq<Step>, p: nat, k: nat)
    requires Inv(s) && ValidRun(s, steps) && p < |s.k.rq| && k < |s.k.rq[p]|
    ensures MovedUp(s.k.rq[p], Dispatched(s, steps, p), Q(Run(s, steps).s, ReadyQ(p)), k)
  {
    NoOvertaking(s, steps, ReadyQ(p), k);
    PopsAreDispatches(s, steps, p);
  }
}
