/** Where the guarantees end: the exact conditions under which the steps that need one keep every task in
    one place, and inputs that break it. */
module Limits {
  import opened Sequences
  import opened KernelSpec
  import opened KernelSystem
  import opened Placement
  import opened Invariants
  import opened Records
  import opened Rotation

  // ------------------------------------------------------------------ creation

  /** Creation recycles the lowest unused slot, leaves every other record alone, finds no stale entry of
      that id in any queue, and queues the new task once, READY with a full slice on its prepared frame. */
  lemma SlotRecycled(s: Sys, a: CreateArgs, t: nat, q: QueueId)
    requires Inv(s) && Enabled(s, TaskCreate(a)) && t < |s.k.tcbs|
    requires a.Acceptable() && LowestUnused(s.k.tcbs, 0) < |s.k.tcbs|
    ensures var id, s1 := LowestUnused(s.k.tcbs, 0), Next(s, TaskCreate(a)).s;
            && (t < id ==> !s.k.tcbs[t].state.Unused?) && (t != id ==> s1.k.tcbs[t] == s.k.tcbs[t])
            && (t == id ==> s1.k.tcbs[t].state.Ready? && s1.k.tcbs[t].sliceLeft == s1.k.tcbs[t].sliceCfg)
            && (t == id ==> s1.k.tcbs[t].sp == a.frame && s1.k.tcbs[t].wakeTick == 0)
            && (t == id && a.attr.None? ==> s1.k.tcbs[t].prio == 1 && s1.k.tcbs[t].sliceCfg == s.k.defaultSlice)
            && (t == id && a.attr.Some? ==> TaskAttr(s1.k.tcbs[t].prio, s1.k.tcbs[t].sliceCfg) == a.attr.value)
            && id !in Q(s, q)
            && Q(s1, q) == if q == ReadyQ(a.Prio()) then Q(s, q) + [id] else Q(s, q)
  {
    var id := LowestUnused(s.k.tcbs, 0);
    assert QueueOk(s, q) && QueueOk(s, ReadyQ(a.Prio()));
    Room(s, ReadyQ(a.Prio()), id);
  }

  // ------------------------------------------------------------------ the hop into the scheduler

  /** A task that is READY on its way into the scheduler is already queued. */
  lemma HopperIsQueued(s: Sys)
    requires Placed(s) && s.ctl.Hopping? && s.k.tcbs[s.k.current].state.Ready?
    ensures var c := s.k.current; s.k.tcbs[c].prio < |s.k.rq| && c in s.k.rq[s.k.tcbs[c].prio]
    ensures |s.k.rq[s.k.tcbs[s.k.current].prio]| < |s.k.tcbs|
  {
    var c := s.k.current;
    assert TaskOk(s, c) && HomeOf(s, c) == In(ReadyQ(s.k.tcbs[c].prio));
    var idle := s.k.IdleId();
    assert idle !in Q(s, ReadyQ(s.k.tcbs[c].prio)) by { assert QueueOk(s, ReadyQ(s.k.tcbs[c].prio)); }
    Room(s, ReadyQ(s.k.tcbs[c].prio), idle);
  }

  lemma TwiceIsDuplicate(a: seq<nat>, t: nat)
    requires t in a
    ensures !NoDup(a + [t])
  {
    var i :| 0 <= i < |a| && a[i] == t;
    assert (a + [t])[i] == (a + [t])[|a|];
  }

  /** The cooperative port: the scheduler entry keeps the placement invariant if and only if it does not
      rotate; a rotation there always queues a task that is queued already. */
  lemma EntryKeepsPlacedIff(s: Sys)
    requires Placed(s) && Shape(s) && s.port.Cooperative? && s.ctl.Hopping?
    ensures Placed(Next(s, SchedEntry).s) <==> HopSafe(s)
  {
    var s1 := Next(s, SchedEntry).s;
    if HopSafe(s) {
      QuietStepKeepsPlaced(s, SchedEntry);
    } else {
      var c := s.k.current;
      HopperIsQueued(s);
      TwiceIsDuplicate(s.k.rq[s.k.tcbs[c].prio], c);
      assert !QueueOk(s1, ReadyQ(s.k.tcbs[c].prio));
    }
  }

  /** On that port, one interleaving alone leads to such a rotation: a tick inside the hop that ends the
      slice of the task on its way. Every other step is safe in every state. */
  lemma HopSafeIff(s: Sys, st: Step)
    requires Inv(s) && Shape(s) && Guard(s, st) && s.port.Cooperative?
    ensures HopSafe(Next(s, st).s) <==> !(s.ctl.Hopping? && ExpiresAt(s, st))
  {
    if st.Tick? {
      HopSafeAtTick(s, st.handlerPends);
    } else if st.SemGiveIsr? || st.SendIsr? || st.RecvIsr? {
      IsrInHopIsSafe(s, st);
    } else if st.TaskYield? || st.TaskSleep? || st.TaskDelete? || st.Continue? {
      assert TaskOk(s, s.k.current);
      HopStartIsSafe(s, st);
    } else {
      NoHopIsSafe(s, st);
    }
  }

  lemma HopSafeAtTick(s: Sys, handlerPends: bool)
    requires Inv(s) && Shape(s) && s.port.Cooperative?
    ensures HopSafe(TickNext(s, handlerPends).s) <==> !(s.ctl.Hopping? && ExpiresAt(s, Tick(handlerPends)))
  {
    WakeLoopFrame(AdvanceTick(s.k), 0);
    if s.k.HasCurrent() {
      WakeLoopRecords(AdvanceTick(s.k), 0, s.k.current);
    }
  }

  /** Steps that start a hop leave the task refreshed, asleep, parked or deleted. */
  lemma HopStartIsSafe(s: Sys, st: Step)
    requires Shape(s) && Guard(s, st) && s.port.Cooperative? && s.k.current != s.k.IdleId()
    requires st.TaskYield? || st.TaskSleep? || st.TaskDelete? || st.Continue?
    ensures HopSafe(Next(s, st).s)
  {
  }

  /** An interrupt that wakes the task on its way refreshes its slice. */
  lemma IsrInHopIsSafe(s: Sys, st: Step)
    requires Shape(s) && HopSafe(s) && Guard(s, st) && s.port.Cooperative? && (st.SemGiveIsr? || st.SendIsr? || st.RecvIsr?)
    ensures HopSafe(Next(s, st).s)
  {
    if s.k.HasCurrent() {
      IsrRecord(s, st, s.k.current);
    }
  }

  lemma NoHopIsSafe(s: Sys, st: Step)
    requires Shape(s) && Guard(s, st)
    requires !st.Tick? && !st.TaskYield? && !st.TaskSleep? && !st.TaskDelete? && !st.Continue? && !st.SemGiveIsr?
             && !st.SendIsr? && !st.RecvIsr?
    ensures !Next(s, st).s.ctl.Hopping?
  {
  }

  /** The preemptive port: PendSV after a hop keeps the placement invariant if and only if the task on its
      way is not READY; a READY one is queued already and PendSV queues it again. */
  lemma PendSvKeepsPlacedIff(s: Sys, oldSp: nat)
    requires Placed(s) && Shape(s) && s.port.Preemptive? && s.ctl.Hopping? && s.k.pending && oldSp != 0
    ensures Placed(PendSvNext(s, oldSp).s) <==> HopSafe(s)
  {
    var s2 := PendSvNext(s, oldSp).s;
    if HopSafe(s) {
      PendSvKeepsPlaced(s, oldSp);
    } else {
      var c := s.k.current;
      var p := s.k.tcbs[c].prio;
      var q := s.k.rq[p];
      HopperIsQueued(s);
      assert SwitchOut(s.k, oldSp).rq[p] == q + [c];
      TwiceIsDuplicate(q, c);
      if s2.k.rq[p] == q + [c] {
        assert !QueueOk(s2, ReadyQ(p));
      } else {
        assert s2.k.rq[p] == (q + [c])[1..];
        assert c == (q + [c])[|q|] && c in s2.k.rq[p];
        if s2.k.current == c {
          assert !QueueOk(s2, ReadyQ(p));
        } else {
          assert q[0] != c && c in q[1..];
          TwiceIsDuplicate(q[1..], c);
          assert s2.k.rq[p] == q[1..] + [c];
          assert !QueueOk(s2, ReadyQ(p));
        }
      }
    }
  }

  /** So hrt_yield is unusable there: from every state, yield and the PendSV it requests leave the yielding
      task in two places. */
  lemma YieldBreaksPreemptivePort(s: Sys, oldSp: nat)
    requires Inv(s) && Shape(s) && s.port.Preemptive? && UserCode(s) && oldSp != 0
    ensures Shape(YieldNext(s).s) && !HopSafe(YieldNext(s).s)
    ensures !Placed(PendSvNext(YieldNext(s).s, oldSp).s)
  {
    YieldKeepsPlaced(s);
    PlacedShape(YieldNext(s).s);
    PendSvKeepsPlacedIff(YieldNext(s).s, oldSp);
  }

  /** The unsafe interleaving is real on the cooperative port: whenever a task with a slice of one tick
      yields and a tick comes before it reaches the scheduler, the entry queues it a second time. */
  lemma OneTickSliceBreaksYield(s: Sys, handlerPends: bool)
    requires Inv(s) && Shape(s) && s.port.Cooperative? && UserCode(s)
    requires s.k.policy.Sliced() && s.k.tcbs[s.k.current].sliceCfg == 1
    ensures var s1 := YieldNext(s).s; Shape(s1) && var s2 := TickNext(s1, handlerPends).s;
            Shape(s2) && Guard(s2, SchedEntry) && !Placed(Next(s2, SchedEntry).s)
  {
    var s1 := YieldNext(s).s;
    YieldKeepsPlaced(s);
    PlacedShape(s1);
    var s2 := TickNext(s1, handlerPends).s;
    TickKeepsPlaced(s1, handlerPends);
    PlacedShape(s2);
    WakeLoopFrame(AdvanceTick(s1.k), 0);
    WakeLoopRecords(AdvanceTick(s1.k), 0, s.k.current);
    EntryKeepsPlacedIff(s2);
  }

  /** One class, one running task with a slice of one tick: the input that shows it. */
  function LoneKernel(left: uint16, rq: seq<nat>, tick: uint32, pending: bool): KState {
    KState([Tcb(Ready, 0, 1, left, 0, 0), Tcb(Unused, 0, 0, 0, 0, 0)], [rq], 0, tick, 1000, RoundRobin, 5, pending)
  }

  function Lone(): Sys {
    Sys(Cooperative, LoneKernel(1, [], 0, false), Running, [User, User], [], [], [])
  }

  lemma LoneKernelSteps()
    ensures YieldCurrent(LoneKernel(1, [], 0, false)) == LoneKernel(1, [0], 0, true)
    ensures TickIsr(LoneKernel(1, [0], 0, true)) == LoneKernel(0, [0], 1, true)
    ensures OnSchedulerEntry(LoneKernel(0, [0], 1, true)).rq == [[0, 0]]
  {
    var k0, k1, k2 := LoneKernel(1, [], 0, false), LoneKernel(1, [0], 0, true), LoneKernel(0, [0], 1, true);
    assert k0.rq[0] == [] && [] + [0] == [0];
    assert YieldCurrent(k0).tcbs == k1.tcbs && YieldCurrent(k0).rq == k1.rq;
    NobodyDue(AdvanceTick(k1), 0);
    assert TickIsr(k1).tcbs == k2.tcbs;
    assert k2.rq[0] == [0] && [0] + [0] == [0, 0];
  }

  lemma LoneInv()
    ensures Inv(Lone()) && Shape(Lone()) && UserCode(Lone())
  {
    var s := Lone();
    assert s.k.rq[0] == [];
    forall q
      ensures QueueOk(s, q)
    {
      assert Q(s, q) == [];
    }
    assert HomeOf(s, 0) == OnCpu && HomeOf(s, 1) == Nowhere;
    assert TaskOk(s, 0) && TaskOk(s, 1);
    assert Placed(s);
    PlacedShape(s);
  }

  lemma LoneTaskQueuedTwice()
    ensures Inv(Lone()) && Shape(Lone()) && UserCode(Lone())
    ensures var s1 := YieldNext(Lone()).s; Shape(s1) && var s2 := TickNext(s1, true).s;
            Shape(s2) && Guard(s2, SchedEntry) && Next(s2, SchedEntry).s.k.rq == [[0, 0]]
  {
    LoneInv();
    OneTickSliceBreaksYield(Lone(), true);
    LoneKernelSteps();
    assert YieldNext(Lone()).s.k == LoneKernel(1, [0], 0, true);
    assert TickNext(YieldNext(Lone()).s, true).s.k == LoneKernel(0, [0], 1, true);
  }
}
