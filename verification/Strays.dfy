/** What becomes of a task that hrt_create_task puts where it should not: into a class that does not exist,
    or into the idle slot. */
module Strays {
  import opened KernelSpec
  import opened PrimitivesSpec
  import opened KernelSystem
  import opened Placement
  import opened Invariants

  /** Task t is where its record says, once, and nowhere else. No slot and no class is ruled out. */
  ghost predicate InPlace(s: Sys, t: nat)
    requires t < |s.k.tcbs| == |s.pcs|
  {
    forall q :: multiset(Q(s, q))[t] == if HomeOf(s, t) == In(q) then 1 else 0
  }

  ghost predicate AllInPlace(s: Sys)
    requires |s.k.tcbs| == |s.pcs|
  {
    forall t :: 0 <= t < |s.k.tcbs| ==> InPlace(s, t)
  }

  lemma PlacedMeansInPlace(s: Sys, t: nat)
    requires Placed(s) && t < |s.k.tcbs|
    ensures InPlace(s, t)
  {
    forall q
      ensures multiset(Q(s, q))[t] == if HomeOf(s, t) == In(q) then 1 else 0
    {
      assert QueueOk(s, q);
      OccurrencesOfDistinct(Q(s, q), t);
    }
  }

  // ------------------------------------------------------------------ creation

  /** The queues after a successful creation. */
  lemma CreateQueues(s: Sys, a: CreateArgs, q: QueueId)
    requires Placed(s) && Shape(s) && a.Acceptable() && LowestUnused(s.k.tcbs, 0) < |s.k.tcbs|
    ensures var id := LowestUnused(s.k.tcbs, 0);
            && id !in Q(s, q)
            && Q(CreateNext(s, a).s, q) == if q == ReadyQ(a.Prio()) && a.Prio() < |s.k.rq| then Q(s, q) + [id] else Q(s, q)
  {
    var id, p := LowestUnused(s.k.tcbs, 0), ReadyQ(a.Prio());
    assert QueueOk(s, q) && QueueOk(s, p) && HomeOf(s, id) == Nowhere;
    Room(s, p, id);
  }

  lemma CreateHomes(s: Sys, a: CreateArgs, t: nat)
    requires Placed(s) && Shape(s) && (UserCode(s) || s.ctl.Boot?) && t < |s.k.tcbs|
    requires a.Acceptable() && LowestUnused(s.k.tcbs, 0) < |s.k.tcbs|
    ensures var id, s1 := LowestUnused(s.k.tcbs, 0), CreateNext(s, a).s;
            && |s1.k.tcbs| == |s1.pcs| == |s.k.tcbs|
            && HomeOf(s1, t) == if t == id then In(ReadyQ(a.Prio())) else HomeOf(s, t)
  {
  }

  /** A successful creation leaves every task in place, even in the idle slot, if and only if its class
      exists; otherwise the new task is READY and in no queue at once. */
  lemma CreateInPlaceIff(s: Sys, a: CreateArgs)
    requires Placed(s) && Shape(s) && (UserCode(s) || s.ctl.Boot?)
    requires a.Acceptable() && LowestUnused(s.k.tcbs, 0) < |s.k.tcbs|
    ensures var s1 := CreateNext(s, a).s;
            |s1.k.tcbs| == |s1.pcs| && (AllInPlace(s1) <==> a.Prio() < |s.k.rq|)
  {
    var id, s1 := LowestUnused(s.k.tcbs, 0), CreateNext(s, a).s;
    CreateHomes(s, a, id);
    if a.Prio() < |s.k.rq| {
      forall t | 0 <= t < |s1.k.tcbs|
        ensures InPlace(s1, t)
      {
        forall q
          ensures multiset(Q(s1, q))[t] == if HomeOf(s1, t) == In(q) then 1 else 0
        {
          CreateHomes(s, a, t);
          CreateQueues(s, a, q);
          PlacedMeansInPlace(s, t);
        }
      }
    } else {
      assert Q(s1, ReadyQ(a.Prio())) == [];
      assert !InPlace(s1, id);
    }
  }

  // ------------------------------------------------------------------ tasks that never run

  /** Slot g holds a READY task that is not current and is queued nowhere or, if it is the idle slot of the
      cooperative port, only in the queue of its class. */
  ghost predicate Stray(s: Sys, g: nat) {
    && |s.pcs| == |s.k.tcbs| && g < |s.k.tcbs| && s.k.tcbs[g].state.Ready? && s.k.current != g
    && (s.port.Cooperative? || g != s.k.IdleId())
    && forall q :: g in Q(s, q) ==> g == s.k.IdleId() && q == ReadyQ(s.k.tcbs[g].prio)
  }

  /** How often the stray is queued. */
  ghost function Entries(s: Sys, g: nat): nat
    requires Stray(s, g)
  {
    multiset(Q(s, ReadyQ(s.k.tcbs[g].prio)))[g]
  }

  /** This dispatch pops the stray. */
  predicate PopsStray(s: Sys, st: Step, g: nat) {
    st.Dispatch? && var p := FirstNonEmpty(s.k.rq, 0); p < |s.k.rq| && s.k.rq[p][0] == g
  }

  /** Some dispatch of the run pops the stray. */
  ghost predicate StrayPopped(s: Sys, steps: seq<Step>, g: nat)
    requires ValidRun(s, steps)
    decreases |steps|
  {
    steps != [] && (PopsStray(s, steps[0], g) || StrayPopped(Next(s, steps[0]).s, steps[1..], g))
  }

  /** The ready queues of k1 hold task g as often as those of k, and its record is the same. */
  ghost predicate SameEntries(k: KState, k1: KState, g: nat)
    requires g < |k.tcbs|
  {
    && |k1.tcbs| == |k.tcbs| && |k1.rq| == |k.rq| && k1.tcbs[g] == k.tcbs[g]
    && forall p :: 0 <= p < |k.rq| ==> multiset(k1.rq[p])[g] == multiset(k.rq[p])[g]
  }

  lemma MakeReadyEntries(k: KState, id: nat, g: nat)
    requires id < |k.tcbs| && g < |k.tcbs| && id != g
    ensures SameEntries(k, MakeReady(k, id), g) && MakeReady(k, id).current == k.current
  {
  }

  lemma {:induction false} WakeLoopEntries(k: KState, i: nat, g: nat)
    requires i <= |k.tcbs| && g < |k.tcbs| && k.tcbs[g].state.Ready?
    ensures SameEntries(k, WakeDue(k, i), g) && WakeDue(k, i).current == k.current
    decreases |k.tcbs| - i
  {
    if i < |k.tcbs| {
      if IsDue(k.tcbs[i], k.tick) {
        MakeReadyEntries(k, i, g);
        WakeLoopEntries(MakeReady(k, i), i + 1, g);
      } else {
        WakeLoopEntries(k, i + 1, g);
      }
    }
  }

  /** A step that leaves the stray alone. */
  ghost predicate LeftAlone(s: Sys, s1: Sys, g: nat)
    requires Stray(s, g)
  {
    && s1.port == s.port && |s1.pcs| == |s.pcs| && SameEntries(s.k, s1.k, g) && s1.k.current != g
    && forall w :: g !in Q(s1, WaitQ(w))
  }

  lemma LeftAloneIsStray(s: Sys, s1: Sys, g: nat)
    requires Stray(s, g) && LeftAlone(s, s1, g)
    ensures Stray(s1, g) && Entries(s1, g) == Entries(s, g)
  {
    forall q | g in Q(s1, q)
      ensures g == s1.k.IdleId() && q == ReadyQ(s1.k.tcbs[g].prio)
    {
      assert q.ReadyQ? && q.p < |s.k.rq|;
      assert multiset(s1.k.rq[q.p])[g] > 0;
      assert g in Q(s, q);
    }
  }

  /** The head of a waiter queue is not the stray. */
  lemma HeadIsNoStray(s: Sys, w: WaitId, g: nat)
    requires Shape(s) && Stray(s, g)
    ensures g !in Q(s, WaitQ(w))
    ensures Q(s, WaitQ(w)) != [] ==> Q(s, WaitQ(w))[0] != g && Q(s, WaitQ(w))[0] < |s.k.tcbs|
  {
    HeadIsATask(s, w);
    assert g !in Q(s, WaitQ(w));
  }

  lemma GiveLeavesStray(s: Sys, i: nat, g: nat)
    requires Shape(s) && Stray(s, g) && i < |s.sems|
    ensures LeftAlone(s, SemGiveCs(s, i).s, g)
  {
    var s1 := SemGiveCs(s, i).s;
    HeadIsNoStray(s, SemWaiters(i), g);
    if s.sems[i].waiters != [] {
      MakeReadyEntries(s.k, s.sems[i].waiters[0], g);
    }
    forall w
      ensures g !in Q(s1, WaitQ(w))
    {
      HeadIsNoStray(s, w, g);
    }
  }

  lemma UnlockLeavesStray(s: Sys, i: nat, g: nat)
    requires Shape(s) && Stray(s, g) && Guard(s, MutexUnlockCall(i))
    ensures LeftAlone(s, MutexUnlockNext(s, i).s, g)
  {
    var s1 := MutexUnlockNext(s, i).s;
    HeadIsATask(s, MutexWaiters(i));
    if !MutexUnlock(s.k, s.mutexes[i]).2.HandedOff? {
      StillLeavesStray(s, s1, g);
    } else {
      HeadIsNoStray(s, MutexWaiters(i), g);
      MakeReadyEntries(s.k, s.mutexes[i].waiters[0], g);
      forall w
        ensures g !in Q(s1, WaitQ(w))
      {
        HeadIsNoStray(s, w, g);
      }
    }
  }

  lemma SendLeavesStray(s: Sys, i: nat, item: Item, g: nat)
    requires Shape(s) && Stray(s, g) && i < |s.queues|
    ensures LeftAlone(s, AfterSend(s, i, item), g)
  {
    var s1 := AfterSend(s, i, item);
    HeadIsNoStray(s, Receivers(i), g);
    if s.queues[i].receivers != [] {
      MakeReadyEntries(s.k, s.queues[i].receivers[0], g);
    }
    forall w
      ensures g !in Q(s1, WaitQ(w))
    {
      HeadIsNoStray(s, w, g);
    }
  }

  lemma RecvLeavesStray(s: Sys, i: nat, g: nat)
    requires Shape(s) && Stray(s, g) && i < |s.queues| && s.queues[i].items != []
    ensures LeftAlone(s, AfterRecv(s, i), g)
  {
    var s1 := AfterRecv(s, i);
    HeadIsNoStray(s, Senders(i), g);
    if s.queues[i].senders != [] {
      MakeReadyEntries(s.k, s.queues[i].senders[0], g);
    }
    forall w
      ensures g !in Q(s1, WaitQ(w))
    {
      HeadIsNoStray(s, w, g);
    }
  }

  /** Nothing but continuation, control, lock and token fields, or the current record, changes. */
  lemma StillLeavesStray(s: Sys, s1: Sys, g: nat)
    requires Shape(s) && Stray(s, g) && s1.port == s.port && s1.k.current == s.k.current && |s1.pcs| == |s.pcs|
    requires |s1.k.tcbs| == |s.k.tcbs| && s1.k.rq == s.k.rq && s1.k.tcbs[g] == s.k.tcbs[g]
    requires forall w :: Q(s1, WaitQ(w)) == Q(s, WaitQ(w)) || Q(s1, WaitQ(w)) == Q(s, WaitQ(w)) + [s.k.current]
    ensures LeftAlone(s, s1, g)
  {
    forall w
      ensures g !in Q(s1, WaitQ(w))
    {
      HeadIsNoStray(s, w, g);
    }
  }

  /** Continuation, control and pending flag do not concern the stray. */
  lemma SameQueuesLeaveStray(s: Sys, s1: Sys, s2: Sys, g: nat)
    requires Stray(s, g) && LeftAlone(s, s1, g)
    requires s2.port == s1.port && |s2.pcs| == |s1.pcs| && s2.sems == s1.sems && s2.mutexes == s1.mutexes && s2.queues == s1.queues
    requires s2.k.tcbs == s1.k.tcbs && s2.k.rq == s1.k.rq && s2.k.current == s1.k.current
    ensures LeftAlone(s, s2, g)
  {
    forall w
      ensures g !in Q(s2, WaitQ(w))
    {
      assert Q(s2, WaitQ(w)) == Q(s1, WaitQ(w));
    }
  }

  lemma GiveStepLeavesStray(s: Sys, st: Step, g: nat)
    requires Shape(s) && Stray(s, g) && Guard(s, st) && (st.SemGiveCall? || st.SemGiveIsr? || st.MutexUnlockCall?)
    ensures LeftAlone(s, Next(s, st).s, g)
  {
    if st.MutexUnlockCall? {
      UnlockLeavesStray(s, st.i, g);
    } else {
      GiveLeavesStray(s, st.i, g);
      SameQueuesLeaveStray(s, SemGiveCs(s, st.i).s, Next(s, st).s, g);
    }
  }

  lemma SendStepLeavesStray(s: Sys, st: Step, g: nat)
    requires Shape(s) && Stray(s, g) && Guard(s, st) && (st.TrySendCall? || st.SendCall? || st.SendIsr?)
    ensures LeftAlone(s, Next(s, st).s, g)
  {
    var s0 := if s.queues[st.i].Full() then s else AfterSend(s, st.i, st.item);
    StillLeavesStray(s, s, g);
    SendLeavesStray(s, st.i, st.item, g);
    SameQueuesLeaveStray(s, s0, Next(s, st).s, g);
  }

  lemma RecvStepLeavesStray(s: Sys, st: Step, g: nat)
    requires Shape(s) && Stray(s, g) && Guard(s, st) && (st.TryRecvCall? || st.RecvCall? || st.RecvIsr?)
    ensures LeftAlone(s, Next(s, st).s, g)
  {
    if s.queues[st.i].items == [] {
      StillLeavesStray(s, s, g);
      SameQueuesLeaveStray(s, s, Next(s, st).s, g);
    } else {
      RecvLeavesStray(s, st.i, g);
      SameQueuesLeaveStray(s, AfterRecv(s, st.i), Next(s, st).s, g);
    }
  }

  lemma TickLeavesStray(s: Sys, handlerPends: bool, g: nat)
    requires Shape(s) && Stray(s, g)
    ensures LeftAlone(s, TickNext(s, handlerPends).s, g)
  {
    WakeLoopEntries(AdvanceTick(s.k), 0, g);
    SameLocksLeaveStray(s, TickNext(s, handlerPends).s, g);
  }

  lemma RequeueLeavesStray(s: Sys, st: Step, g: nat)
    requires Shape(s) && Stray(s, g) && Guard(s, st) && (st.SchedEntry? || st.TaskYield? || st.TaskCreate?)
    ensures LeftAlone(s, Next(s, st).s, g)
  {
    if st.TaskCreate? {
      assert LowestUnused(s.k.tcbs, 0) != g;
    } else {
      MakeReadyEntries(s.k, s.k.current, g);
    }
    SameLocksLeaveStray(s, Next(s, st).s, g);
  }

  lemma ContinueLeavesStray(s: Sys, g: nat)
    requires Shape(s) && Stray(s, g) && Guard(s, Continue)
    ensures LeftAlone(s, ContinueNext(s).s, g)
  {
    var pc, s1 := s.pcs[s.k.current], ContinueNext(s).s;
    if pc.MustYield? {
      MakeReadyEntries(s.k, s.k.current, g);
      SameLocksLeaveStray(s, s1, g);
    } else if (pc.SendTry? || pc.SendRecheck?) && !s.queues[pc.i].Full() {
      SendLeavesStray(s, pc.i, pc.item, g);
      SameQueuesLeaveStray(s, AfterSend(s, pc.i, pc.item), s1, g);
    } else if (pc.RecvTry? || pc.RecvRecheck?) && s.queues[pc.i].items != [] {
      RecvLeavesStray(s, pc.i, g);
      SameQueuesLeaveStray(s, AfterRecv(s, pc.i), s1, g);
    } else {
      ParkLeavesStray(s, g);
    }
  }

  lemma ParkLeavesStray(s: Sys, g: nat)
    requires Shape(s) && Stray(s, g) && Guard(s, Continue) && !s.pcs[s.k.current].MustYield?
    requires var pc := s.pcs[s.k.current];
             && (pc.SendTry? || pc.SendRecheck? ==> s.queues[pc.i].Full())
             && (pc.RecvTry? || pc.RecvRecheck? ==> s.queues[pc.i].items == [])
    ensures LeftAlone(s, ContinueNext(s).s, g)
  {
    var pc := s.pcs[s.k.current];
    if pc.SemRecheck? {
      StillLeavesStray(s, SemRecheckNext(s, pc.i).s, g);
    } else if pc.MutexRecheck? {
      StillLeavesStray(s, MutexRecheckNext(s, pc.i).s, g);
    } else if pc.SendTry? || pc.RecvTry? {
      StillLeavesStray(s, s, g);
      SameQueuesLeaveStray(s, s, ContinueNext(s).s, g);
    } else {
      QueueParkLeavesStray(s, pc.i, if pc.SendRecheck? then pc.item else [], g);
    }
  }

  lemma QueueParkLeavesStray(s: Sys, i: nat, item: Item, g: nat)
    requires Shape(s) && Stray(s, g) && s.k.HasCurrent() && i < |s.queues|
    ensures s.queues[i].Full() ==> LeftAlone(s, SendRecheckNext(s, i, item).s, g)
    ensures s.queues[i].items == [] ==> LeftAlone(s, RecvRecheckNext(s, i).s, g)
  {
    if s.queues[i].Full() {
      StillLeavesStray(s, SendRecheckNext(s, i, item).s, g);
    }
    if s.queues[i].items == [] {
      StillLeavesStray(s, RecvRecheckNext(s, i).s, g);
    }
  }

  lemma QuietStepLeavesStray(s: Sys, st: Step, g: nat)
    requires Shape(s) && Stray(s, g) && Guard(s, st)
    requires st.Start? || st.LoopClear? || st.TaskSleep? || st.TaskDelete? || st.SetPolicy? || st.SetDefaultSlice?
             || st.SemTryTakeCall? || st.SemTakeCall? || st.MutexTryLockCall? || st.MutexLockCall?
    ensures LeftAlone(s, Next(s, st).s, g)
  {
    StillLeavesStray(s, Next(s, st).s, g);
  }

  lemma PickCounts(k: KState, c: nat, g: nat)
    requires c < |k.rq|
    ensures var p, k1 := FirstNonEmpty(k.rq, 0), PickNextReady(k).0;
            && |k1.rq| == |k.rq| && k1.tcbs == k.tcbs
            && multiset(k1.rq[c])[g] == multiset(k.rq[c])[g] - if c == p && k.rq[c][0] == g then 1 else 0
  {
    if c == FirstNonEmpty(k.rq, 0) {
      assert k.rq[c] == [k.rq[c][0]] + k.rq[c][1..];
    }
  }

  lemma DispatchKeepsStray(s: Sys, g: nat)
    requires Shape(s) && Stray(s, g) && Guard(s, Dispatch)
    ensures Stray(DispatchNext(s).s, g)
  {
    var s1, p := DispatchNext(s).s, FirstNonEmpty(s.k.rq, 0);
    if p < |s.k.rq| {
      assert s.k.rq[p][0] in Q(s, ReadyQ(p));
    }
    forall q
      ensures g in Q(s1, q) ==> g in Q(s, q)
    {
      if q.ReadyQ? && q.p < |s.k.rq| {
        PickCounts(s.k, q.p, g);
      }
    }
  }

  lemma DispatchAndStray(s: Sys, g: nat)
    requires Shape(s) && Stray(s, g) && Guard(s, Dispatch)
    ensures var s1 := DispatchNext(s).s;
            && Stray(s1, g) && s1.k.tcbs[g] == s.k.tcbs[g]
            && Entries(s1, g) == Entries(s, g) - if PopsStray(s, Dispatch, g) then 1 else 0
  {
    var p, c := FirstNonEmpty(s.k.rq, 0), s.k.tcbs[g].prio;
    DispatchKeepsStray(s, g);
    if p < |s.k.rq| {
      assert s.k.rq[p][0] in Q(s, ReadyQ(p));
    }
    if c < |s.k.rq| {
      PickCounts(s.k, c, g);
    }
  }

  lemma SwitchOutEntries(k: KState, oldSp: nat, g: nat)
    requires g < |k.tcbs| && k.current != g && (oldSp != 0 ==> k.HasCurrent())
    ensures SameEntries(k, SwitchOut(k, oldSp), g)
  {
  }

  /** The pick does not find a task that is queued nowhere. */
  lemma PickEntries(k: KState, g: nat)
    requires g < |k.tcbs| && g != k.IdleId() && forall p :: 0 <= p < |k.rq| ==> multiset(k.rq[p])[g] == 0
    ensures SameEntries(k, PickNextReady(k).0, g) && PickNextReady(k).1 != g
  {
    var p := FirstNonEmpty(k.rq, 0);
    if p < |k.rq| {
      assert k.rq[p] == [k.rq[p][0]] + k.rq[p][1..];
    }
  }

  /** On the preemptive port the stray is queued nowhere, so no switch finds it. */
  lemma PendSvLeavesStray(s: Sys, oldSp: nat, g: nat)
    requires Shape(s) && Stray(s, g) && Guard(s, PendSv(oldSp))
    ensures LeftAlone(s, PendSvNext(s, oldSp).s, g)
  {
    var s2 := PendSvNext(s, oldSp).s;
    SwitchOutEntries(s.k, oldSp, g);
    forall p | 0 <= p < |s.k.rq|
      ensures multiset(SwitchOut(s.k, oldSp).rq[p])[g] == 0
    {
      assert g !in Q(s, ReadyQ(p));
    }
    PickEntries(SwitchOut(s.k, oldSp), g);
    SameLocksLeaveStray(s, s2, g);
  }

  lemma SameLocksLeaveStray(s: Sys, s1: Sys, g: nat)
    requires Shape(s) && Stray(s, g) && SameEntries(s.k, s1.k, g) && s1.k.current != g && s1.port == s.port
    requires |s1.pcs| == |s.pcs| && s1.sems == s.sems && s1.mutexes == s.mutexes && s1.queues == s.queues
    ensures LeftAlone(s, s1, g)
  {
    forall w
      ensures g !in Q(s1, WaitQ(w))
    {
      HeadIsNoStray(s, w, g);
      assert Q(s1, WaitQ(w)) == Q(s, WaitQ(w));
    }
  }

  /** Only a dispatch that finds it at the head takes the stray out of its queue; nothing runs it, and
      nothing puts it back. */
  lemma StepAndStray(s: Sys, st: Step, g: nat)
    requires Stray(s, g) && Enabled(s, st)
    ensures var s1 := Next(s, st).s;
            && Stray(s1, g) && s1.k.tcbs[g] == s.k.tcbs[g]
            && Entries(s1, g) == Entries(s, g) - if PopsStray(s, st, g) then 1 else 0
  {
    if st.Dispatch? {
      DispatchAndStray(s, g);
    } else {
      if st.PendSv? {
        PendSvLeavesStray(s, st.oldSp, g);
      } else if st.Continue? {
        ContinueLeavesStray(s, g);
      } else if st.SemGiveCall? || st.SemGiveIsr? || st.MutexUnlockCall? {
        GiveStepLeavesStray(s, st, g);
      } else if st.Tick? {
        TickLeavesStray(s, st.handlerPends, g);
      } else if st.SchedEntry? || st.TaskYield? || st.TaskCreate? {
        RequeueLeavesStray(s, st, g);
      } else if st.TrySendCall? || st.SendCall? || st.SendIsr? {
        SendStepLeavesStray(s, st, g);
      } else if st.TryRecvCall? || st.RecvCall? || st.RecvIsr? {
        RecvStepLeavesStray(s, st, g);
      } else {
        QuietStepLeavesStray(s, st, g);
      }
      LeftAloneIsStray(s, Next(s, st).s, g);
    }
  }

  lemma {:induction false} RunAndStray(s: Sys, steps: seq<Step>, g: nat)
    requires Stray(s, g) && Entries(s, g) <= 1 && ValidRun(s, steps)
    ensures var s1 := Run(s, steps).s;
            && Stray(s1, g) && s1.k.tcbs[g] == s.k.tcbs[g]
            && Entries(s1, g) == if StrayPopped(s, steps, g) then 0 else Entries(s, g)
    decreases |steps|
  {
    if steps != [] {
      StepAndStray(s, steps[0], g);
      RunAndStray(Next(s, steps[0]).s, steps[1..], g);
    }
  }

  lemma CreatedStray(s: Sys, a: CreateArgs)
    requires Inv(s) && Shape(s) && s.port.Cooperative? && (UserCode(s) || s.ctl.Boot?)
    requires a.Acceptable() && LowestUnused(s.k.tcbs, 0) == s.k.IdleId() && a.Prio() < |s.k.rq|
    ensures var s1 := CreateNext(s, a).s; Stray(s1, s.k.IdleId()) && Entries(s1, s.k.IdleId()) == 1
  {
    var g, s1 := s.k.IdleId(), CreateNext(s, a).s;
    forall q
      ensures g in Q(s1, q) <==> q == ReadyQ(a.Prio())
    {
      CreateQueues(s, a, q);
    }
    CreateQueues(s, a, ReadyQ(a.Prio()));
    OccurrencesOfDistinct(s.k.rq[a.Prio()], g) by { assert QueueOk(s, ReadyQ(a.Prio())); }
  }

  lemma StrayInPlace(s: Sys, g: nat)
    requires Stray(s, g) && Entries(s, g) <= 1
    ensures InPlace(s, g) <==> Entries(s, g) == 1
  {
    var home := ReadyQ(s.k.tcbs[g].prio);
    assert HomeOf(s, g) == In(home) && multiset(Q(s, home))[g] == Entries(s, g);
    forall q | q != home
      ensures multiset(Q(s, q))[g] == 0
    {
      assert g !in Q(s, q);
    }
  }

  /** A task created in the idle slot, that is while every other slot is in use, over every cooperative run
      that follows: it stays READY and is never current; it is in place, once in the queue of its class, if
      and only if no dispatch has popped it; after that it is in no queue, for good. */
  lemma IdleSlotTaskIsLost(s: Sys, a: CreateArgs, steps: seq<Step>)
    requires Inv(s) && Shape(s) && s.port.Cooperative? && (UserCode(s) || s.ctl.Boot?)
    requires a.Acceptable() && LowestUnused(s.k.tcbs, 0) == s.k.IdleId() && a.Prio() < |s.k.rq|
    requires ValidRun(CreateNext(s, a).s, steps)
    ensures var g, s1 := s.k.IdleId(), CreateNext(s, a).s;
            var s2 := Run(s1, steps).s;
            && g < |s2.k.tcbs| == |s2.pcs| && s2.k.tcbs[g].state.Ready? && s2.k.current != g
            && (InPlace(s2, g) <==> !StrayPopped(s1, steps, g))
            && (StrayPopped(s1, steps, g) ==> forall q :: g !in Q(s2, q))
  {
    var g, s1 := s.k.IdleId(), CreateNext(s, a).s;
    var s2 := Run(s1, steps).s;
    CreatedStray(s, a);
    RunAndStray(s1, steps, g);
    StrayInPlace(s2, g);
    if StrayPopped(s1, steps, g) {
      forall q
        ensures g !in Q(s2, q)
      {
        assert q == ReadyQ(s2.k.tcbs[g].prio) ==> multiset(Q(s2, q))[g] == 0;
      }
    }
  }

  /** A task created in a class that does not exist, over every run on either port that follows: it stays
      READY, in no queue, and is never current, in the idle slot of the cooperative port too. */
  lemma BadClassTaskIsLost(s: Sys, a: CreateArgs, steps: seq<Step>, q: QueueId)
    requires Inv(s) && Shape(s) && (UserCode(s) || s.ctl.Boot?)
    requires a.Acceptable() && a.Prio() >= |s.k.rq| && LowestUnused(s.k.tcbs, 0) < |s.k.tcbs|
    requires s.port.Preemptive? ==> LowestUnused(s.k.tcbs, 0) != s.k.IdleId()
    requires ValidRun(CreateNext(s, a).s, steps)
    ensures var id, s2 := LowestUnused(s.k.tcbs, 0), Run(CreateNext(s, a).s, steps).s;
            id < |s2.k.tcbs| && s2.k.tcbs[id].state.Ready? && s2.k.current != id && id !in Q(s2, q)
  {
    var id, s1 := LowestUnused(s.k.tcbs, 0), CreateNext(s, a).s;
    forall r
      ensures id !in Q(s1, r)
    {
      CreateQueues(s, a, r);
    }
    assert s.k.HasCurrent() ==> s.ctl.Running?;
    RunAndStray(s1, steps, id);
  }

  // ------------------------------------------------------------------ an input that shows it

  /** Two slots, one class: task 0 current, the idle slot free or taken. */
  function Duo(first: TaskState, second: TaskState, rq: seq<nat>, pending: bool, ctl: Control): Sys {
    Sys(Cooperative,
        KState([Tcb(first, 0, 0, 0, 0, 0), Tcb(second, 0, 0, 0, 0, 0)], [rq], 0, 0, 1000, Priority, 5, pending),
        ctl, [User, User], [], [], [])
  }

  lemma DuoShape(first: TaskState, second: TaskState, rq: seq<nat>, pending: bool, ctl: Control)
    requires rq == [] || rq == [1]
    ensures Shape(Duo(first, second, rq, pending, ctl))
  {
    var s := Duo(first, second, rq, pending, ctl);
    assert forall q :: Q(s, q) == rq || Q(s, q) == [];
  }

  lemma DuoInv()
    ensures Inv(Duo(Ready, Unused, [], false, Running))
  {
    var s := Duo(Ready, Unused, [], false, Running);
    assert s.k.rq[0] == [];
    forall q
      ensures QueueOk(s, q)
    {
      assert Q(s, q) == [];
    }
    assert HomeOf(s, 0) == OnCpu && HomeOf(s, 1) == Nowhere;
    assert TaskOk(s, 0) && TaskOk(s, 1);
  }

  lemma DuoCreates(a: CreateArgs)
    requires a == CreateArgs(true, true, 64, Some(TaskAttr(0, 0)), 0)
    ensures Shape(Duo(Ready, Unused, [], false, Running))
    ensures CreateNext(Duo(Ready, Unused, [], false, Running), a).s == Duo(Ready, Ready, [1], false, Running)
  {
    var s := Duo(Ready, Unused, [], false, Running);
    DuoShape(Ready, Unused, [], false, Running);
    assert !s.k.tcbs[0].state.Unused? && s.k.tcbs[1].state.Unused?;
    assert LowestUnused(s.k.tcbs, 0) == 1;
    assert NewTcb(s.k, a) == Tcb(Ready, 0, 0, 0, 0, 0);
    assert s.k.rq[0] == [] && [] + [1] == [1];
    var k1 := CreateTask(s.k, a).0;
    assert k1.tcbs == [Tcb(Ready, 0, 0, 0, 0, 0), Tcb(Ready, 0, 0, 0, 0, 0)] && k1.rq == [[1]];
    assert s.pcs[1 := User] == [User, User];
  }

  lemma DuoDeletes()
    ensures Shape(Duo(Ready, Ready, [1], false, Running)) && Guard(Duo(Ready, Ready, [1], false, Running), TaskDelete)
    ensures Next(Duo(Ready, Ready, [1], false, Running), TaskDelete).s == Duo(Unused, Ready, [1], true, Hopping)
  {
    DuoShape(Ready, Ready, [1], false, Running);
    var s := Duo(Ready, Ready, [1], false, Running);
    assert DeleteCurrent(s.k).tcbs == Duo(Unused, Ready, [1], true, Hopping).k.tcbs;
  }

  lemma DuoGoesIdle()
    ensures Shape(Duo(Unused, Ready, [1], false, Picking))
    ensures Next(Duo(Unused, Ready, [1], false, Picking), Dispatch).s == Duo(Unused, Ready, [], false, LoopHead)
  {
    DuoShape(Unused, Ready, [1], false, Picking);
    var s := Duo(Unused, Ready, [1], false, Picking);
    assert s.k.rq[0] == [1] && FirstNonEmpty(s.k.rq, 0) == 0 && [1][1..] == [];
    assert PickNextReady(s.k).0.rq == [[]];
  }

  /** Task 0 creates a task, which gets the idle slot, and deletes itself: four steps later the scheduler is
      idle with that task READY and in no queue. */
  lemma LostAfterFourSteps(a: CreateArgs)
    requires a == CreateArgs(true, true, 64, Some(TaskAttr(0, 0)), 0)
    ensures Inv(Duo(Ready, Unused, [], false, Running)) && Shape(Duo(Ready, Unused, [], false, Running))
    ensures var s1 := CreateNext(Duo(Ready, Unused, [], false, Running), a).s;
            var steps := [TaskDelete] + ([SchedEntry] + ([LoopClear] + ([Dispatch] + [])));
            ValidRun(s1, steps) && Run(s1, steps).s == Duo(Unused, Ready, [], false, LoopHead)
  {
    DuoInv();
    DuoCreates(a);
    DuoDeletes();
    DuoGoesIdle();
    DuoShape(Unused, Ready, [1], true, Hopping);
    DuoShape(Unused, Ready, [1], true, LoopHead);
    RunCons(Duo(Unused, Ready, [1], false, Picking), Dispatch, [], Duo(Unused, Ready, [], false, LoopHead));
    RunCons(Duo(Unused, Ready, [1], true, LoopHead), LoopClear, [Dispatch] + [], Duo(Unused, Ready, [1], false, Picking));
    RunCons(Duo(Unused, Ready, [1], true, Hopping), SchedEntry, [LoopClear] + ([Dispatch] + []),
            Duo(Unused, Ready, [1], true, LoopHead));
    RunCons(Duo(Ready, Ready, [1], false, Running), TaskDelete, [SchedEntry] + ([LoopClear] + ([Dispatch] + [])),
            Duo(Unused, Ready, [1], true, Hopping));
  }
}
