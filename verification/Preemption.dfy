/** Which steps lead to a scheduler entry or switch that queues a task a second time: the exact list on either
    port, and what the preemptive port is left without. */
module Preemption {
  import opened KernelSpec
  import opened PrimitivesSpec
  import opened KernelSystem
  import opened Placement
  import opened WakeUps
  import opened Invariants
  import opened Records
  import opened Rotation
  import opened Limits

  // ------------------------------------------------------------------ the exact condition

  /** This step is hrt_yield, called by the application or after a wake-up. */
  predicate Yields(s: Sys, st: Step) {
    st.TaskYield? || (st.Continue? && 0 <= s.k.current < |s.pcs| && s.pcs[s.k.current].MustYield?)
  }

  /** A tick or interrupt call that wakes the task on its way into the scheduler. */
  predicate WakesHopper(s: Sys, st: Step) {
    s.ctl.Hopping? && 0 <= s.k.current && Wakes(s, st, s.k.current)
  }

  lemma TickInHop(s: Sys, handlerPends: bool)
    requires Inv(s) && Shape(s) && s.port.Preemptive?
    ensures HopSafe(TickNext(s, handlerPends).s) <==> !WakesHopper(s, Tick(handlerPends))
  {
    WakeLoopFrame(AdvanceTick(s.k), 0);
    if s.k.HasCurrent() {
      WakeLoopRecords(AdvanceTick(s.k), 0, s.k.current);
    }
  }

  lemma IsrInHop(s: Sys, st: Step)
    requires Inv(s) && Shape(s) && Guard(s, st) && s.port.Preemptive? && (st.SemGiveIsr? || st.SendIsr? || st.RecvIsr?)
    ensures HopSafe(Next(s, st).s) <==> !WakesHopper(s, st)
  {
    if s.k.HasCurrent() {
      IsrRecord(s, st, s.k.current);
    }
  }

  lemma HopStart(s: Sys, st: Step)
    requires Shape(s) && Guard(s, st) && s.port.Preemptive? && s.k.current != s.k.IdleId()
    requires s.ctl.Running? && s.k.tcbs[s.k.current].state.Ready?
    requires st.TaskYield? || st.TaskSleep? || st.TaskDelete? || st.Continue?
    ensures HopSafe(Next(s, st).s) <==> !Yields(s, st)
  {
  }

  /** On the preemptive port a step is safe if and only if it is neither a yield nor a tick or interrupt call
      that wakes a task between its parking or falling asleep and the switch. */
  lemma PreemptiveHopSafeIff(s: Sys, st: Step)
    requires Inv(s) && Shape(s) && Guard(s, st) && s.port.Preemptive?
    ensures HopSafe(Next(s, st).s) <==> !Yields(s, st) && !WakesHopper(s, st)
  {
    if st.Tick? {
      TickInHop(s, st.handlerPends);
    } else if st.SemGiveIsr? || st.SendIsr? || st.RecvIsr? {
      IsrInHop(s, st);
    } else if st.TaskYield? || st.TaskSleep? || st.TaskDelete? || st.Continue? {
      assert TaskOk(s, s.k.current);
      HopStart(s, st);
    } else {
      NoHopIsSafe(s, st);
    }
  }

  /** The steps that runs leave out. On the cooperative port: a tick that ends the slice of a task on its way
      into the scheduler. On the preemptive port: a yield, and a tick or interrupt call that wakes such a task. */
  predicate Excluded(s: Sys, st: Step) {
    match s.port
    case Cooperative => s.ctl.Hopping? && ExpiresAt(s, st)
    case Preemptive => Yields(s, st) || WakesHopper(s, st)
  }

  lemma ExcludedIsUnsafe(s: Sys, st: Step)
    requires Inv(s) && Shape(s) && Guard(s, st)
    ensures HopSafe(Next(s, st).s) <==> !Excluded(s, st)
  {
    if s.port.Cooperative? {
      HopSafeIff(s, st);
    } else {
      PreemptiveHopSafeIff(s, st);
    }
  }

  /** A run in which every step may be taken in its state and none is left out. */
  ghost predicate SafeRun(s: Sys, steps: seq<Step>)
    decreases |steps|
  {
    steps == []
    || (Shape(s) && Guard(s, steps[0]) && !Excluded(s, steps[0]) && SafeRun(Next(s, steps[0]).s, steps[1..]))
  }

  /** The runs of the theorems are exactly these. */
  lemma {:induction false} ValidRunIff(s: Sys, steps: seq<Step>)
    requires Inv(s)
    ensures ValidRun(s, steps) <==> SafeRun(s, steps)
    decreases |steps|
  {
    if steps != [] && Shape(s) && Guard(s, steps[0]) {
      ExcludedIsUnsafe(s, steps[0]);
      if !Excluded(s, steps[0]) {
        StepKeepsInv(s, steps[0]);
        ValidRunIff(Next(s, steps[0]).s, steps[1..]);
      }
    }
  }

  /** The step by which the scheduler takes over from a task on its way. */
  function TakeOver(port: Port, oldSp: nat): Step {
    if port.Cooperative? then SchedEntry else PendSv(oldSp)
  }

  /** A sequence of ticks and interrupt calls, each possible in its state. */
  ghost predicate Interrupts(s: Sys, irqs: seq<Step>)
    decreases |irqs|
  {
    irqs == []
    || (Shape(s) && IsInterrupt(irqs[0]) && Guard(s, irqs[0]) && Interrupts(Next(s, irqs[0]).s, irqs[1..]))
  }

  predicate IsInterrupt(st: Step) { st.Tick? || st.SemGiveIsr? || st.SendIsr? || st.RecvIsr? }

  ghost function AfterInterrupts(s: Sys, irqs: seq<Step>): Sys
    requires Interrupts(s, irqs)
    decreases |irqs|
  {
    if irqs == [] then s else AfterInterrupts(Next(s, irqs[0]).s, irqs[1..])
  }

  /** Every task is in place, but the scheduler is about to queue the one on its way again. */
  ghost predicate Doomed(s: Sys) {
    Placed(s) && s.ctl.Hopping? && !HopSafe(s) && s.k.pending
  }

  lemma TickKeepsDoom(s: Sys, handlerPends: bool)
    requires Doomed(s) && Shape(s)
    ensures Doomed(TickNext(s, handlerPends).s) && TickNext(s, handlerPends).s.port == s.port
  {
    TickKeepsPlaced(s, handlerPends);
    WakeLoopRecords(AdvanceTick(s.k), 0, s.k.current);
    WakeLoopFrame(AdvanceTick(s.k), 0);
  }

  lemma IsrKeepsDoom(s: Sys, st: Step)
    requires Doomed(s) && Shape(s) && Guard(s, st) && (st.SemGiveIsr? || st.SendIsr? || st.RecvIsr?)
    ensures Doomed(Next(s, st).s) && Next(s, st).s.port == s.port
  {
    var c := s.k.current;
    UnparkedIsBystander(s, c);
    assert !Wakes(s, st, c) by {
      var w := if st.SemGiveIsr? then SemWaiters(st.i) else if st.SendIsr? then Receivers(st.i) else Senders(st.i);
      assert Q(s, WaitQ(w)) != [] ==> Q(s, WaitQ(w))[0] != c;
    }
    IsrRecord(s, st, c);
    IsrKeepsPending(s, st);
    if st.SemGiveIsr? {
      GiveStepKeepsPlaced(s, st);
    } else if st.SendIsr? {
      SendStepKeepsPlaced(s, st);
    } else {
      RecvStepKeepsPlaced(s, st);
    }
  }

  lemma IsrKeepsPending(s: Sys, st: Step)
    requires Shape(s) && Guard(s, st) && (st.SemGiveIsr? || st.SendIsr? || st.RecvIsr?) && s.k.pending
    ensures Next(s, st).s.k.pending
  {
  }

  lemma {:induction false} InterruptsKeepDoom(s: Sys, irqs: seq<Step>)
    requires Doomed(s) && Interrupts(s, irqs)
    ensures Doomed(AfterInterrupts(s, irqs)) && AfterInterrupts(s, irqs).port == s.port
    decreases |irqs|
  {
    if irqs != [] {
      if irqs[0].Tick? {
        TickKeepsDoom(s, irqs[0].handlerPends);
      } else {
        IsrKeepsDoom(s, irqs[0]);
      }
      InterruptsKeepDoom(Next(s, irqs[0]).s, irqs[1..]);
    }
  }

  lemma DoomIsSealed(s: Sys, oldSp: nat)
    requires Doomed(s) && Shape(s) && oldSp != 0
    ensures Guard(s, TakeOver(s.port, oldSp)) && !Placed(Next(s, TakeOver(s.port, oldSp)).s)
  {
    if s.port.Cooperative? {
      EntryKeepsPlacedIff(s);
    } else {
      PendSvKeepsPlacedIff(s, oldSp);
    }
  }

  /** Nothing is left out without need: from every state, on either port, an excluded step, followed by any
      number of further ticks and interrupt calls, keeps placement until the scheduler takes over, and the
      takeover breaks it. */
  lemma ExcludedStepBreaks(s: Sys, st: Step, irqs: seq<Step>, oldSp: nat)
    requires Inv(s) && Shape(s) && Guard(s, st) && Excluded(s, st) && Interrupts(Next(s, st).s, irqs) && oldSp != 0
    ensures var s1 := AfterInterrupts(Next(s, st).s, irqs);
            && Placed(s1) && Shape(s1) && Guard(s1, TakeOver(s.port, oldSp))
            && !Placed(Next(s1, TakeOver(s.port, oldSp)).s)
  {
    var s0 := Next(s, st).s;
    ExcludedIsUnsafe(s, st);
    StepKeepsPlaced(s, st);
    StepKeepsPend(s, st);
    StepKeepsPort(s, st);
    InterruptsKeepDoom(s0, irqs);
    PlacedShape(AfterInterrupts(s0, irqs));
    DoomIsSealed(AfterInterrupts(s0, irqs), oldSp);
  }

  /** One task, of two slots, with the given record state and queue. */
  function HopKernel(state: TaskState, rq: seq<nat>, sp: nat, pending: bool): KState {
    KState([Tcb(state, 0, 0, 0, 0, sp), Tcb(Unused, 0, 0, 0, 0, 0)], [rq], 0, 0, 1000, Priority, 5, pending)
  }

  /** It has parked on a semaphore and is on its way into the scheduler. */
  function ParkedHopper(): Sys {
    Sys(Preemptive, HopKernel(Blocked, [], 0, true), Hopping, [SemParked(0), User], [Sem(0, 1, [0])], [], [])
  }

  function WokenHopper(): Sys {
    Sys(Preemptive, HopKernel(Ready, [0], 0, true), Hopping, [User, User], [Sem(0, 1, [])], [], [])
  }

  lemma ParkedHopperInv()
    ensures Inv(ParkedHopper()) && Shape(ParkedHopper())
  {
    var s := ParkedHopper();
    forall q
      ensures Q(s, q) == if q == WaitQ(SemWaiters(0)) then [0] else []
    {
      match q
      case ReadyQ(p) =>
      case WaitQ(w) =>
    }
    assert HomeOf(s, 0) == In(WaitQ(SemWaiters(0))) && HomeOf(s, 1) == Nowhere;
    forall q
      ensures QueueOk(s, q)
    {
    }
    assert TaskOk(s, 0) && TaskOk(s, 1);
    assert Placed(s);
    PlacedShape(s);
  }

  lemma HopKernelSteps(oldSp: nat)
    requires oldSp != 0
    ensures MakeReady(HopKernel(Blocked, [], 0, true), 0) == HopKernel(Ready, [0], 0, true)
    ensures Schedule(HopKernel(Ready, [0], 0, true), oldSp) == HopKernel(Ready, [0], oldSp, true)
  {
    var k, k1 := HopKernel(Blocked, [], 0, true), HopKernel(Ready, [0], 0, true);
    assert k.rq[0] == [] && [] + [0] == [0];
    assert MakeReady(k, 0).tcbs == k1.tcbs && MakeReady(k, 0).rq == k1.rq;
    assert k1.rq[0] == [0] && [0] + [0] == [0, 0] && [0, 0][1..] == [0];
    var k2 := SwitchOut(k1, oldSp);
    assert k2.tcbs == HopKernel(Ready, [0], oldSp, true).tcbs && k2.rq == [[0, 0]];
    assert FirstNonEmpty(k2.rq, 0) == 0;
    assert PickNextReady(k2).0.rq == [[0]];
  }

  /** A concrete input: an interrupt gives the semaphore in the window, and the switch leaves the task running
      and queued. */
  lemma RunningAndQueued(oldSp: nat)
    requires oldSp != 0
    ensures Inv(ParkedHopper()) && Shape(ParkedHopper()) && Guard(ParkedHopper(), SemGiveIsr(0))
    ensures var s1 := Next(ParkedHopper(), SemGiveIsr(0)).s;
            Shape(s1) && Guard(s1, PendSv(oldSp)) && var s2 := Next(s1, PendSv(oldSp)).s;
            s2.ctl.Running? && s2.k.current == 0 && s2.k.rq == [[0]]
  {
    var s := ParkedHopper();
    ParkedHopperInv();
    HopKernelSteps(oldSp);
    HeadIsATask(s, SemWaiters(0));
    assert s.sems[0].waiters == [0] && [0][1..] == [];
    assert SemGive(s.k, s.sems[0]).1 == Sem(0, 1, []);
    assert SemGiveCs(s, 0).s.pcs == [User, User] && SemGiveCs(s, 0).s.sems == [Sem(0, 1, [])];
    assert Next(s, SemGiveIsr(0)).s == WokenHopper();
    ExcludedStepBreaks(s, SemGiveIsr(0), [], oldSp);
  }

  // ------------------------------------------------------------------ the frozen waker

  /** A step of application code or of a kernel call of the running task. */
  predicate TaskStep(st: Step) {
    && !st.Start? && !st.LoopClear? && !st.Dispatch? && !st.SchedEntry? && !st.PendSv?
    && !st.Tick? && !st.SemGiveIsr? && !st.SendIsr? && !st.RecvIsr?
  }

  /** The steps task t itself takes in a run. */
  ghost function OwnSteps(s: Sys, steps: seq<Step>, t: nat): nat
    requires ValidRun(s, steps)
    decreases |steps|
  {
    if steps == [] then 0
    else (if s.ctl.Running? && s.k.current == t && TaskStep(steps[0]) then 1 else 0)
         + OwnSteps(Next(s, steps[0]).s, steps[1..], t)
  }

  /** A task that must yield has no step on this port. */
  lemma MustYieldIsStuck(s: Sys, st: Step, t: nat)
    requires Inv(s) && Enabled(s, st) && s.port.Preemptive? && t < |s.pcs| && s.pcs[t].MustYield?
    ensures !(s.ctl.Running? && s.k.current == t && TaskStep(st))
  {
    PreemptiveHopSafeIff(s, st);
  }

  predicate PcKept(s: Sys, s1: Sys, t: nat) {
    t < |s.pcs| == |s1.pcs| && s1.pcs[t] == s.pcs[t]
  }

  lemma WakeKeepsPc(s: Sys, w: WaitId, t: nat)
    requires Placed(s) && Shape(s) && t < |s.pcs| && !s.pcs[t].IsParked()
    requires Q(s, WaitQ(w)) != [] ==> Q(s, WaitQ(w))[0] < |s.pcs|
    ensures |WakePcs(s, w)| == |s.pcs| && WakePcs(s, w)[t] == s.pcs[t]
  {
    if Q(s, WaitQ(w)) != [] {
      HeadIsParked(s, w);
    }
  }

  /** Continuations after a critical section that may wake the head of w. */
  lemma WakersKeepPc(s: Sys, i: nat, item: Item, t: nat)
    requires Placed(s) && Shape(s) && t < |s.pcs| && !s.pcs[t].IsParked()
    ensures i < |s.sems| ==> PcKept(s, SemGiveCs(s, i).s, t)
    ensures i < |s.queues| ==> PcKept(s, AfterSend(s, i, item), t)
    ensures i < |s.queues| && s.queues[i].items != [] ==> PcKept(s, AfterRecv(s, i), t)
  {
    HeadIsATask(s, SemWaiters(i));
    HeadIsATask(s, Receivers(i));
    HeadIsATask(s, Senders(i));
    WakeKeepsPc(s, SemWaiters(i), t);
    WakeKeepsPc(s, Receivers(i), t);
    WakeKeepsPc(s, Senders(i), t);
  }

  lemma UnlockKeepsPc(s: Sys, i: nat, t: nat)
    requires Placed(s) && Shape(s) && Guard(s, MutexUnlockCall(i)) && t < |s.pcs| && !s.pcs[t].IsParked() && s.k.current != t
    ensures PcKept(s, MutexUnlockNext(s, i).s, t)
  {
    HeadIsATask(s, MutexWaiters(i));
    WakeKeepsPc(s, MutexWaiters(i), t);
  }

  lemma ContinueSendKeepsPc(s: Sys, t: nat)
    requires Shape(s) && Guard(s, Continue) && t < |s.pcs| && s.k.current != t
    requires var pc := s.pcs[s.k.current]; (pc.SendTry? || pc.SendRecheck?) && PcKept(s, AfterSend(s, pc.i, pc.item), t)
    ensures PcKept(s, ContinueNext(s).s, t)
  {
  }

  lemma ContinueRecvKeepsPc(s: Sys, t: nat)
    requires Shape(s) && Guard(s, Continue) && t < |s.pcs| && s.k.current != t
    requires var pc := s.pcs[s.k.current];
             (pc.RecvTry? || pc.RecvRecheck?) && (s.queues[pc.i].items != [] ==> PcKept(s, AfterRecv(s, pc.i), t))
    ensures PcKept(s, ContinueNext(s).s, t)
  {
  }

  lemma ContinueLockKeepsPc(s: Sys, t: nat)
    requires Shape(s) && Guard(s, Continue) && t < |s.pcs| && s.k.current != t
    requires var pc := s.pcs[s.k.current]; pc.MustYield? || pc.SemRecheck? || pc.MutexRecheck?
    ensures PcKept(s, ContinueNext(s).s, t)
  {
  }

  lemma SendStepKeepsPc(s: Sys, st: Step, t: nat)
    requires Shape(s) && Guard(s, st) && (st.TrySendCall? || st.SendCall? || st.SendIsr?)
    requires PcKept(s, AfterSend(s, st.i, st.item), t) && (st.SendIsr? || s.k.current != t)
    ensures PcKept(s, Next(s, st).s, t)
  {
  }

  lemma RecvStepKeepsPc(s: Sys, st: Step, t: nat)
    requires Shape(s) && Guard(s, st) && (st.TryRecvCall? || st.RecvCall? || st.RecvIsr?) && t < |s.pcs|
    requires (s.queues[st.i].items != [] ==> PcKept(s, AfterRecv(s, st.i), t)) && (st.RecvIsr? || s.k.current != t)
    ensures PcKept(s, Next(s, st).s, t)
  {
  }

  lemma OtherStepKeepsPc(s: Sys, st: Step, t: nat)
    requires Shape(s) && Guard(s, st) && t < |s.pcs| && (s.ctl.Running? && s.k.current == t ==> !TaskStep(st))
    requires !st.SemGiveCall? && !st.SemGiveIsr? && !st.MutexUnlockCall? && !st.Continue? && LowestUnused(s.k.tcbs, 0) != t
    requires !st.TrySendCall? && !st.SendCall? && !st.SendIsr? && !st.TryRecvCall? && !st.RecvCall? && !st.RecvIsr?
    ensures PcKept(s, Next(s, st).s, t)
  {
  }

  lemma CallKeepsPc(s: Sys, t: nat)
    requires Placed(s) && Shape(s) && Guard(s, Continue) && t < |s.pcs| && !s.pcs[t].IsParked() && s.k.current != t
    ensures PcKept(s, ContinueNext(s).s, t)
  {
    var pc := s.pcs[s.k.current];
    if pc.SendTry? || pc.SendRecheck? {
      WakersKeepPc(s, pc.i, pc.item, t);
      ContinueSendKeepsPc(s, t);
    } else if pc.RecvTry? || pc.RecvRecheck? {
      WakersKeepPc(s, pc.i, [], t);
      ContinueRecvKeepsPc(s, t);
    } else {
      ContinueLockKeepsPc(s, t);
    }
  }

  lemma SendCallKeepsPc(s: Sys, st: Step, t: nat)
    requires Placed(s) && Shape(s) && Guard(s, st) && t < |s.pcs| && !s.pcs[t].IsParked()
    requires (st.TrySendCall? || st.SendCall? || st.SendIsr?) && (st.SendIsr? || s.k.current != t)
    ensures PcKept(s, Next(s, st).s, t)
  {
    WakersKeepPc(s, st.i, st.item, t);
    SendStepKeepsPc(s, st, t);
  }

  lemma RecvCallKeepsPc(s: Sys, st: Step, t: nat)
    requires Placed(s) && Shape(s) && Guard(s, st) && t < |s.pcs| && !s.pcs[t].IsParked()
    requires (st.TryRecvCall? || st.RecvCall? || st.RecvIsr?) && (st.RecvIsr? || s.k.current != t)
    ensures PcKept(s, Next(s, st).s, t)
  {
    WakersKeepPc(s, st.i, [], t);
    RecvStepKeepsPc(s, st, t);
  }

  /** Nobody but the task itself moves a task on from its yield. */
  lemma StepKeepsPc(s: Sys, st: Step, t: nat)
    requires Placed(s) && Shape(s) && Guard(s, st) && t < |s.pcs| && s.pcs[t].MustYield?
    requires s.ctl.Running? && s.k.current == t ==> !TaskStep(st)
    ensures PcKept(s, Next(s, st).s, t)
  {
    if st.Continue? {
      CallKeepsPc(s, t);
    } else if st.SemGiveCall? || st.SemGiveIsr? {
      WakersKeepPc(s, st.i, [], t);
    } else if st.MutexUnlockCall? {
      UnlockKeepsPc(s, st.i, t);
    } else if st.TrySendCall? || st.SendCall? || st.SendIsr? {
      SendCallKeepsPc(s, st, t);
    } else if st.TryRecvCall? || st.RecvCall? || st.RecvIsr? {
      RecvCallKeepsPc(s, st, t);
    } else {
      assert TaskOk(s, t);
      OtherStepKeepsPc(s, st, t);
    }
  }

  /** On the preemptive port a task whose give, unlock, send or receive woke somebody stays READY before its
      yield for good: no run allowed above contains another step of it. */
  lemma {:induction false} WakerIsFrozen(s: Sys, steps: seq<Step>, t: nat)
    requires Inv(s) && ValidRun(s, steps) && s.port.Preemptive? && t < |s.pcs| && s.pcs[t].MustYield?
    ensures OwnSteps(s, steps, t) == 0
    ensures var s1 := Run(s, steps).s; t < |s1.pcs| == |s1.k.tcbs| && s1.pcs[t].MustYield? && s1.k.tcbs[t].state.Ready?
    decreases |steps|
  {
    assert TaskOk(s, t);
    if steps != [] {
      MustYieldIsStuck(s, steps[0], t);
      StepKeepsPc(s, steps[0], t);
      StepKeepsInv(s, steps[0]);
      StepKeepsPort(s, steps[0]);
      WakerIsFrozen(Next(s, steps[0]).s, steps[1..], t);
    }
  }
}
