/** Which steps change a task's record. */
module Records {
  import opened KernelSpec
  import opened PrimitivesSpec
  import opened KernelSystem
  import opened Placement
  import opened WakeUps

  /** The record of a task made ready. */
  function Readied(t: Tcb): Tcb { t.(state := Ready, sliceLeft := t.sliceCfg) }

  lemma {:induction false} WakeLoopRecords(k: KState, i: nat, j: nat)
    requires i <= |k.tcbs| && j < |k.tcbs|
    ensures WakeDue(k, i).tcbs[j] == if i <= j && IsDue(k.tcbs[j], k.tick) then Readied(k.tcbs[j]) else k.tcbs[j]
    decreases |k.tcbs| - i
  {
    if i < |k.tcbs| {
      WakeLoopRecords(if IsDue(k.tcbs[i], k.tick) then MakeReady(k, i) else k, i + 1, j);
    }
  }

  /** Task t is first in no waiter queue, so no wake-up of a primitive concerns it. */
  ghost predicate Bystander(s: Sys, t: nat) {
    && t < |s.k.tcbs|
    && forall w {:trigger Q(s, WaitQ(w))} :: Q(s, WaitQ(w)) != [] ==> Q(s, WaitQ(w))[0] != t
  }

  lemma UnparkedIsBystander(s: Sys, t: nat)
    requires Placed(s) && t < |s.k.tcbs| && !s.k.tcbs[t].state.Blocked?
    ensures Bystander(s, t)
  {
    forall w | Q(s, WaitQ(w)) != []
      ensures Q(s, WaitQ(w))[0] != t
    {
      HeadIsParked(s, w);
    }
  }

  /** The record is the same up to the saved stack pointer, unless the task itself leaves the CPU. */
  predicate RecordKept(s: Sys, s1: Sys, t: nat)
    requires t < |s.k.tcbs|
  {
    && |s1.k.tcbs| == |s.k.tcbs| && s1.k.tick == s.k.tick
    && (s1.k.tcbs[t].(sp := 0) == s.k.tcbs[t].(sp := 0) || (s.ctl.Running? && s.k.current == t && s1.ctl.Hopping?))
  }

  lemma WakeStepKeepsRecord(s: Sys, st: Step, t: nat)
    requires Shape(s) && Guard(s, st) && Bystander(s, t) && (st.SemGiveCall? || st.SemGiveIsr? || st.MutexUnlockCall?)
    ensures RecordKept(s, Next(s, st).s, t)
  {
    HeadIsATask(s, if st.MutexUnlockCall? then MutexWaiters(st.i) else SemWaiters(st.i));
    assert st.MutexUnlockCall? ==> Q(s, WaitQ(MutexWaiters(st.i))) == s.mutexes[st.i].waiters;
    assert !st.MutexUnlockCall? ==> Q(s, WaitQ(SemWaiters(st.i))) == s.sems[st.i].waiters;
  }

  lemma QueueOpKeepsRecord(s: Sys, i: nat, item: Item, t: nat)
    requires Shape(s) && Bystander(s, t) && i < |s.queues|
    ensures RecordKept(s, AfterSend(s, i, item), t)
    ensures s.queues[i].items != [] ==> RecordKept(s, AfterRecv(s, i), t)
  {
    HeadIsATask(s, Receivers(i));
    HeadIsATask(s, Senders(i));
    assert Q(s, WaitQ(Receivers(i))) == s.queues[i].receivers && Q(s, WaitQ(Senders(i))) == s.queues[i].senders;
  }

  lemma SendStepKeepsRecord(s: Sys, st: Step, t: nat)
    requires Shape(s) && Guard(s, st) && t < |s.k.tcbs| && (st.TrySendCall? || st.SendCall? || st.SendIsr?)
    requires RecordKept(s, AfterSend(s, st.i, st.item), t)
    ensures RecordKept(s, Next(s, st).s, t)
  {
  }

  lemma RecvStepKeepsRecord(s: Sys, st: Step, t: nat)
    requires Shape(s) && Guard(s, st) && t < |s.k.tcbs| && (st.TryRecvCall? || st.RecvCall? || st.RecvIsr?)
    requires s.queues[st.i].items != [] ==> RecordKept(s, AfterRecv(s, st.i), t)
    ensures RecordKept(s, Next(s, st).s, t)
  {
  }

  lemma ContinueKeepsRecord(s: Sys, t: nat)
    requires Shape(s) && Guard(s, Continue) && Bystander(s, t)
    ensures RecordKept(s, ContinueNext(s).s, t)
  {
    var pc := s.pcs[s.k.current];
    if pc.SendTry? || pc.SendRecheck? {
      QueueOpKeepsRecord(s, pc.i, pc.item, t);
      SendCallKeepsRecord(s, t);
    } else if pc.RecvTry? || pc.RecvRecheck? {
      QueueOpKeepsRecord(s, pc.i, [], t);
      RecvCallKeepsRecord(s, t);
    } else {
      LockCallKeepsRecord(s, t);
    }
  }

  lemma SendCallKeepsRecord(s: Sys, t: nat)
    requires Shape(s) && Guard(s, Continue) && t < |s.k.tcbs|
    requires var pc := s.pcs[s.k.current];
             (pc.SendTry? || pc.SendRecheck?) && RecordKept(s, AfterSend(s, pc.i, pc.item), t)
    ensures RecordKept(s, ContinueNext(s).s, t)
  {
  }

  lemma RecvCallKeepsRecord(s: Sys, t: nat)
    requires Shape(s) && Guard(s, Continue) && t < |s.k.tcbs|
    requires var pc := s.pcs[s.k.current];
             (pc.RecvTry? || pc.RecvRecheck?) && (s.queues[pc.i].items != [] ==> RecordKept(s, AfterRecv(s, pc.i), t))
    ensures RecordKept(s, ContinueNext(s).s, t)
  {
  }

  lemma LockCallKeepsRecord(s: Sys, t: nat)
    requires Shape(s) && Guard(s, Continue) && t < |s.k.tcbs|
    requires var pc := s.pcs[s.k.current]; pc.MustYield? || pc.SemRecheck? || pc.MutexRecheck?
    ensures RecordKept(s, ContinueNext(s).s, t)
  {
  }

  lemma QuietStepKeepsRecord(s: Sys, st: Step, t: nat)
    requires Shape(s) && Guard(s, st) && HopSafe(s) && t < |s.k.tcbs| && (st.TaskCreate? ==> LowestUnused(s.k.tcbs, 0) != t)
    requires st.Start? || st.LoopClear? || st.Dispatch? || st.SchedEntry? || st.PendSv? || st.TaskYield? || st.TaskSleep?
             || st.TaskDelete? || st.TaskCreate? || st.SetPolicy? || st.SetDefaultSlice? || st.SemTryTakeCall?
             || st.SemTakeCall? || st.MutexTryLockCall? || st.MutexLockCall?
    ensures RecordKept(s, Next(s, st).s, t)
  {
  }

  /** No step but a tick touches the record of a task that is neither parked nor leaving the CPU. */
  lemma StepKeepsRecord(s: Sys, st: Step, t: nat)
    requires Shape(s) && Guard(s, st) && HopSafe(s) && Bystander(s, t) && !st.Tick?
    requires st.TaskCreate? ==> LowestUnused(s.k.tcbs, 0) != t
    ensures RecordKept(s, Next(s, st).s, t)
  {
    if st.Continue? {
      ContinueKeepsRecord(s, t);
    } else if st.SemGiveCall? || st.SemGiveIsr? || st.MutexUnlockCall? {
      WakeStepKeepsRecord(s, st, t);
    } else if st.TrySendCall? || st.SendCall? || st.SendIsr? {
      QueueOpKeepsRecord(s, st.i, st.item, t);
      SendStepKeepsRecord(s, st, t);
    } else if st.TryRecvCall? || st.RecvCall? || st.RecvIsr? {
      QueueOpKeepsRecord(s, st.i, [], t);
      RecvStepKeepsRecord(s, st, t);
    } else {
      QuietStepKeepsRecord(s, st, t);
    }
  }

  lemma StepKeepsPort(s: Sys, st: Step)
    requires Shape(s) && Guard(s, st)
    ensures Next(s, st).s.port == s.port
  {
  }

  // ------------------------------------------------------------------ interrupts

  /** This tick or interrupt call makes task t ready. */
  predicate Wakes(s: Sys, st: Step, t: nat) {
    match st
    case Tick(_) => t < |s.k.tcbs| && IsDue(s.k.tcbs[t], AdvanceTick(s.k).tick)
    case SemGiveIsr(i) => i < |s.sems| && s.sems[i].waiters != [] && s.sems[i].waiters[0] == t
    case SendIsr(i, _) => i < |s.queues| && !s.queues[i].Full() && s.queues[i].receivers != [] && s.queues[i].receivers[0] == t
    case RecvIsr(i) => i < |s.queues| && s.queues[i].items != [] && s.queues[i].senders != [] && s.queues[i].senders[0] == t
    case _ => false
  }

  /** What an interrupt call other than the tick does to control and to the record of task t. */
  ghost predicate OnlyWakes(s: Sys, s1: Sys, t: nat, woken: bool)
    requires t < |s.k.tcbs|
  {
    && s1.port == s.port && s1.ctl == s.ctl && s1.k.current == s.k.current && s1.k.policy == s.k.policy
    && |s1.k.tcbs| == |s.k.tcbs| && s1.k.tcbs[t] == if woken then Readied(s.k.tcbs[t]) else s.k.tcbs[t]
  }

  lemma GiveIsrRecord(s: Sys, i: nat, t: nat)
    requires Shape(s) && Guard(s, SemGiveIsr(i)) && t < |s.k.tcbs|
    ensures OnlyWakes(s, Next(s, SemGiveIsr(i)).s, t, Wakes(s, SemGiveIsr(i), t))
  {
    HeadIsATask(s, SemWaiters(i));
  }

  lemma SendIsrRecord(s: Sys, i: nat, item: Item, t: nat)
    requires Shape(s) && Guard(s, SendIsr(i, item)) && t < |s.k.tcbs|
    ensures OnlyWakes(s, Next(s, SendIsr(i, item)).s, t, Wakes(s, SendIsr(i, item), t))
  {
    HeadIsATask(s, Receivers(i));
  }

  lemma RecvIsrRecord(s: Sys, i: nat, t: nat)
    requires Shape(s) && Guard(s, RecvIsr(i)) && t < |s.k.tcbs|
    ensures OnlyWakes(s, Next(s, RecvIsr(i)).s, t, Wakes(s, RecvIsr(i), t))
  {
    HeadIsATask(s, Senders(i));
  }

  lemma IsrRecord(s: Sys, st: Step, t: nat)
    requires Shape(s) && Guard(s, st) && t < |s.k.tcbs| && (st.SemGiveIsr? || st.SendIsr? || st.RecvIsr?)
    ensures OnlyWakes(s, Next(s, st).s, t, Wakes(s, st, t))
  {
    if st.SemGiveIsr? {
      GiveIsrRecord(s, st.i, t);
    } else if st.SendIsr? {
      SendIsrRecord(s, st.i, st.item, t);
    } else {
      RecvIsrRecord(s, st.i, t);
    }
  }
}
