/** Message queues lose no wake-up: how many woken tasks are still on their way, and why that
    covers every item or free slot a parked task could use. */
module WakeUps {
  import opened PrimitivesSpec
  import opened KernelSystem
  import opened Placement

  predicate RetriesRecv(pc: Pc, i: nat) {
    (pc.RecvTry? || pc.RecvRecheck?) && pc.i == i && pc.woken
  }

  predicate RetriesSend(pc: Pc, i: nat) {
    (pc.SendTry? || pc.SendRecheck?) && pc.i == i && pc.woken
  }

  /** Receivers of queue i that were woken and have neither dequeued nor parked again. */
  ghost function WokenReceivers(s: Sys, i: nat): set<nat> {
    set t: nat | t < |s.pcs| && RetriesRecv(s.pcs[t], i)
  }

  ghost function WokenSenders(s: Sys, i: nat): set<nat> {
    set t: nat | t < |s.pcs| && RetriesSend(s.pcs[t], i)
  }

  /** While receivers are parked, each item is matched by a woken receiver; dually for senders. */
  ghost predicate MsgOk(s: Sys, i: nat)
    requires i < |s.queues|
  {
    var q := s.queues[i];
    && q.capacity > 0 && |q.items| <= q.capacity
    && (q.receivers != [] ==> |q.items| <= |WokenReceivers(s, i)|)
    && (q.senders != [] ==> q.capacity - |q.items| <= |WokenSenders(s, i)|)
  }

  ghost predicate MsgsOk(s: Sys) {
    forall i :: 0 <= i < |s.queues| ==> MsgOk(s, i)
  }

  /** A step that changes no queue and no task's retry status. */
  ghost predicate SameRetries(s: Sys, s1: Sys) {
    && |s1.pcs| == |s.pcs|
    && forall t, i :: 0 <= t < |s.pcs| ==>
         RetriesRecv(s1.pcs[t], i) == RetriesRecv(s.pcs[t], i) && RetriesSend(s1.pcs[t], i) == RetriesSend(s.pcs[t], i)
  }

  lemma SameRetriesKeepMsgs(s: Sys, s1: Sys)
    requires MsgsOk(s) && SameRetries(s, s1) && s1.queues == s.queues
    ensures MsgsOk(s1)
  {
    forall i | 0 <= i < |s1.queues|
      ensures MsgOk(s1, i)
    {
      assert MsgOk(s, i);
      assert WokenReceivers(s1, i) == WokenReceivers(s, i);
      assert WokenSenders(s1, i) == WokenSenders(s, i);
    }
  }

  /** The woken sets after the current task moves on to pc. */
  lemma AtRetries(s: Sys, pc: Pc, i: nat)
    requires s.k.HasCurrent() && |s.pcs| == |s.k.tcbs|
    ensures WokenReceivers(At(s, pc), i) == WokenReceivers(s, i) - {s.k.current} + if RetriesRecv(pc, i) then {s.k.current} else {}
    ensures WokenSenders(At(s, pc), i) == WokenSenders(s, i) - {s.k.current} + if RetriesSend(pc, i) then {s.k.current} else {}
  {
  }

  /** The head of a waiter queue is parked exactly there. */
  lemma HeadIsParked(s: Sys, w: WaitId)
    requires Placed(s) && Q(s, WaitQ(w)) != []
    ensures Q(s, WaitQ(w))[0] < |s.k.tcbs|
    ensures s.pcs[Q(s, WaitQ(w))[0]].IsParked() && s.pcs[Q(s, WaitQ(w))[0]].Place() == w
    ensures s.k.tcbs[Q(s, WaitQ(w))[0]].state.Blocked?
  {
    var t := Q(s, WaitQ(w))[0];
    assert t in Q(s, WaitQ(w)) && QueueOk(s, WaitQ(w));
  }

  lemma AfterSendRetries(s: Sys, i: nat, item: Item, j: nat)
    requires Placed(s) && Shape(s) && i < |s.queues|
    ensures WokenReceivers(AfterSend(s, i, item), j)
            == WokenReceivers(s, j) + if j == i && s.queues[i].receivers != [] then {s.queues[i].receivers[0]} else {}
    ensures WokenSenders(AfterSend(s, i, item), j) == WokenSenders(s, j)
    ensures s.queues[i].receivers != [] ==> s.queues[i].receivers[0] !in WokenReceivers(s, i)
  {
    if s.queues[i].receivers != [] {
      HeadIsParked(s, Receivers(i));
    }
  }

  lemma AfterRecvRetries(s: Sys, i: nat, j: nat)
    requires Placed(s) && Shape(s) && i < |s.queues| && s.queues[i].items != []
    ensures WokenSenders(AfterRecv(s, i), j)
            == WokenSenders(s, j) + if j == i && s.queues[i].senders != [] then {s.queues[i].senders[0]} else {}
    ensures WokenReceivers(AfterRecv(s, i), j) == WokenReceivers(s, j)
    ensures s.queues[i].senders != [] ==> s.queues[i].senders[0] !in WokenSenders(s, i)
  {
    if s.queues[i].senders != [] {
      HeadIsParked(s, Senders(i));
    }
  }

  /** A send, whoever makes it, keeps the balance. */
  lemma AfterSendKeepsMsgs(s: Sys, i: nat, item: Item)
    requires Placed(s) && Shape(s) && MsgsOk(s) && i < |s.queues| && !s.queues[i].Full()
    ensures MsgsOk(AfterSend(s, i, item))
    ensures s.queues[i].senders != [] ==>
              s.queues[i].capacity - |s.queues[i].items| - 1 < |WokenSenders(AfterSend(s, i, item), i)|
  {
    var s1 := AfterSend(s, i, item);
    forall j | 0 <= j < |s1.queues|
      ensures MsgOk(s1, j)
    {
      assert MsgOk(s, j);
      AfterSendRetries(s, i, item, j);
    }
    assert MsgOk(s, i);
    AfterSendRetries(s, i, item, i);
  }

  lemma AfterRecvKeepsMsgs(s: Sys, i: nat)
    requires Placed(s) && Shape(s) && MsgsOk(s) && i < |s.queues| && s.queues[i].items != []
    ensures MsgsOk(AfterRecv(s, i))
    ensures s.queues[i].receivers != [] ==> |s.queues[i].items| - 1 < |WokenReceivers(AfterRecv(s, i), i)|
  {
    var s1 := AfterRecv(s, i);
    forall j | 0 <= j < |s1.queues|
      ensures MsgOk(s1, j)
    {
      assert MsgOk(s, j);
      AfterRecvRetries(s, i, j);
    }
    assert MsgOk(s, i);
    AfterRecvRetries(s, i, i);
  }

  lemma SizeWithout(a: set<nat>, x: nat)
    ensures |a - {x}| == |a| - if x in a then 1 else 0
  {
    if x in a {
      assert a == (a - {x}) + {x};
    } else {
      assert a - {x} == a;
    }
  }

  /** Leaving a retry of queue i is paid for by slack in the balance of that queue. */
  lemma LeaveRetryKeepsMsgs(s: Sys, i: nat, pc: Pc)
    requires s.k.HasCurrent() && |s.pcs| == |s.k.tcbs| && i < |s.queues| && MsgsOk(s)
    requires var q := s.queues[i];
             && (q.receivers != [] && RetriesRecv(s.pcs[s.k.current], i) ==> |q.items| < |WokenReceivers(s, i)|)
             && (q.senders != [] && RetriesSend(s.pcs[s.k.current], i) ==> q.capacity - |q.items| < |WokenSenders(s, i)|)
    requires forall j :: !RetriesRecv(pc, j) && !RetriesSend(pc, j)
    requires forall j :: RetriesRecv(s.pcs[s.k.current], j) || RetriesSend(s.pcs[s.k.current], j) ==> j == i
    ensures MsgsOk(At(s, pc))
  {
    var c := s.k.current;
    forall j | 0 <= j < |s.queues|
      ensures MsgOk(At(s, pc), j)
    {
      assert MsgOk(s, j);
      AtRetries(s, pc, j);
      SizeWithout(WokenReceivers(s, j), c);
      SizeWithout(WokenSenders(s, j), c);
    }
  }

  // ------------------------------------------------------------------ the steps

  /** A send by the running task, on its fast path, at a retry or at the re-check. */
  lemma TaskSendKeepsMsgs(s: Sys, i: nat, item: Item, pc: Pc)
    requires Placed(s) && Shape(s) && MsgsOk(s) && s.ctl.Running? && i < |s.queues| && !s.queues[i].Full()
    requires pc.User? || pc.MustYield?
    requires var c := s.pcs[s.k.current]; c.User? || ((c.SendTry? || c.SendRecheck?) && c.i == i)
    ensures MsgsOk(At(AfterSend(s, i, item), pc))
  {
    var c := s.k.current;
    AfterSendKeepsMsgs(s, i, item);
    if s.queues[i].receivers != [] {
      HeadIsParked(s, Receivers(i));
    }
    LeaveRetryKeepsMsgs(AfterSend(s, i, item), i, pc);
  }

  lemma TaskRecvKeepsMsgs(s: Sys, i: nat, pc: Pc)
    requires Placed(s) && Shape(s) && MsgsOk(s) && s.ctl.Running? && i < |s.queues| && s.queues[i].items != []
    requires pc.User? || pc.MustYield?
    requires var c := s.pcs[s.k.current]; c.User? || ((c.RecvTry? || c.RecvRecheck?) && c.i == i)
    ensures MsgsOk(At(AfterRecv(s, i), pc))
  {
    var c := s.k.current;
    AfterRecvKeepsMsgs(s, i);
    if s.queues[i].senders != [] {
      HeadIsParked(s, Senders(i));
    }
    LeaveRetryKeepsMsgs(AfterRecv(s, i), i, pc);
  }

  /** A woken sender that finds the queue full parks again: no free slot is left unmatched. */
  lemma ParkSenderKeepsMsgs(s: Sys, i: nat, item: Item, woken: bool)
    requires Placed(s) && Shape(s) && MsgsOk(s) && s.ctl.Running? && i < |s.queues| && s.queues[i].Full()
    requires s.pcs[s.k.current] == SendRecheck(i, item, woken)
    ensures MsgsOk(SendRecheckNext(s, i, item).s)
  {
    var s0, s1 := At(s, SendParked(i, item)), SendRecheckNext(s, i, item).s;
    assert woken ==> s.k.current in WokenSenders(s, i);
    LeaveRetryKeepsMsgs(s, i, SendParked(i, item));
    forall j | 0 <= j < |s1.queues|
      ensures MsgOk(s1, j)
    {
      assert MsgOk(s0, j);
      assert WokenReceivers(s1, j) == WokenReceivers(s0, j) && WokenSenders(s1, j) == WokenSenders(s0, j);
    }
  }

  /** A woken receiver that finds the queue empty parks again: no item is left unmatched. */
  lemma ParkReceiverKeepsMsgs(s: Sys, i: nat, woken: bool)
    requires Placed(s) && Shape(s) && MsgsOk(s) && s.ctl.Running? && i < |s.queues| && s.queues[i].items == []
    requires s.pcs[s.k.current] == RecvRecheck(i, woken)
    ensures MsgsOk(RecvRecheckNext(s, i).s)
  {
    var s0, s1 := At(s, RecvParked(i)), RecvRecheckNext(s, i).s;
    assert woken ==> s.k.current in WokenReceivers(s, i);
    LeaveRetryKeepsMsgs(s, i, RecvParked(i));
    forall j | 0 <= j < |s1.queues|
      ensures MsgOk(s1, j)
    {
      assert MsgOk(s0, j);
      assert WokenReceivers(s1, j) == WokenReceivers(s0, j) && WokenSenders(s1, j) == WokenSenders(s0, j);
    }
  }

  lemma SendAttemptKeepsMsgs(s: Sys, i: nat, item: Item, woken: bool)
    requires Placed(s) && Shape(s) && MsgsOk(s) && s.ctl.Running? && i < |s.queues|
    requires var c := s.pcs[s.k.current]; if woken then c == SendTry(i, item, true) else c.User? || c == SendTry(i, item, false)
    ensures MsgsOk(SendAttempt(s, i, item, woken).s)
  {
    if s.queues[i].Full() {
      SameRetriesKeepMsgs(s, SendAttempt(s, i, item, woken).s);
    } else {
      TaskSendKeepsMsgs(s, i, item, AfterWake(s.queues[i].receivers != []));
    }
  }

  lemma RecvAttemptKeepsMsgs(s: Sys, i: nat, woken: bool)
    requires Placed(s) && Shape(s) && MsgsOk(s) && s.ctl.Running? && i < |s.queues|
    requires var c := s.pcs[s.k.current]; if woken then c == RecvTry(i, true) else c.User? || c == RecvTry(i, false)
    ensures MsgsOk(RecvAttempt(s, i, woken).s)
  {
    if s.queues[i].items == [] {
      SameRetriesKeepMsgs(s, RecvAttempt(s, i, woken).s);
    } else {
      TaskRecvKeepsMsgs(s, i, AfterWake(s.queues[i].senders != []));
    }
  }

  lemma ContinueKeepsMsgs(s: Sys)
    requires Placed(s) && Shape(s) && MsgsOk(s) && Guard(s, Continue)
    ensures MsgsOk(ContinueNext(s).s)
  {
    var pc := s.pcs[s.k.current];
    if pc.SendTry? {
      SendAttemptKeepsMsgs(s, pc.i, pc.item, pc.woken);
    } else if pc.RecvTry? {
      RecvAttemptKeepsMsgs(s, pc.i, pc.woken);
    } else if pc.SendRecheck? {
      if s.queues[pc.i].Full() {
        ParkSenderKeepsMsgs(s, pc.i, pc.item, pc.woken);
      } else {
        TaskSendKeepsMsgs(s, pc.i, pc.item, User);
      }
    } else if pc.RecvRecheck? {
      if s.queues[pc.i].items == [] {
        ParkReceiverKeepsMsgs(s, pc.i, pc.woken);
      } else {
        TaskRecvKeepsMsgs(s, pc.i, User);
      }
    } else {
      SameRetriesKeepMsgs(s, ContinueNext(s).s);
    }
  }

  /** A semaphore give or mutex handoff wakes no message-queue task. */
  lemma OtherWakeKeepsMsgs(s: Sys, s1: Sys, w: WaitId, pc: Pc)
    requires Placed(s) && MsgsOk(s) && s1.queues == s.queues && (w.SemWaiters? || w.MutexWaiters?)
    requires Q(s, WaitQ(w)) != [] ==> Q(s, WaitQ(w))[0] < |s.pcs|
    requires pc.User? || pc.MustYield?
    requires s1.pcs == WakePcs(s, w)
             || (s.ctl.Running? && s.pcs[s.k.current].User? && s1.pcs == WakePcs(s, w)[s.k.current := pc])
    ensures MsgsOk(s1)
  {
    if Q(s, WaitQ(w)) != [] {
      HeadIsParked(s, w);
    }
    SameRetriesKeepMsgs(s, s1);
  }

  lemma QueueCallKeepsMsgs(s: Sys, st: Step)
    requires Placed(s) && Shape(s) && MsgsOk(s) && Guard(s, st)
    requires st.SendCall? || st.RecvCall? || st.TrySendCall? || st.TryRecvCall?
    ensures MsgsOk(Next(s, st).s)
  {
    if st.SendCall? {
      SendAttemptKeepsMsgs(s, st.i, st.item, false);
    } else if st.RecvCall? {
      RecvAttemptKeepsMsgs(s, st.i, false);
    } else if st.TrySendCall? {
      if !s.queues[st.i].Full() {
        TaskSendKeepsMsgs(s, st.i, st.item, AfterWake(s.queues[st.i].receivers != []));
      }
    } else if s.queues[st.i].items != [] {
      TaskRecvKeepsMsgs(s, st.i, AfterWake(s.queues[st.i].senders != []));
    }
  }

  lemma QueueIsrKeepsMsgs(s: Sys, st: Step)
    requires Placed(s) && Shape(s) && MsgsOk(s) && Guard(s, st) && (st.SendIsr? || st.RecvIsr?)
    ensures MsgsOk(Next(s, st).s)
  {
    if st.SendIsr? {
      if !s.queues[st.i].Full() {
        AfterSendKeepsMsgs(s, st.i, st.item);
        SameRetriesKeepMsgs(AfterSend(s, st.i, st.item), Next(s, st).s);
      }
    } else if s.queues[st.i].items != [] {
      AfterRecvKeepsMsgs(s, st.i);
      SameRetriesKeepMsgs(AfterRecv(s, st.i), Next(s, st).s);
    }
  }

  lemma OtherWakeStepKeepsMsgs(s: Sys, st: Step)
    requires Placed(s) && Shape(s) && MsgsOk(s) && Guard(s, st)
    requires st.SemGiveCall? || st.SemGiveIsr? || st.MutexUnlockCall?
    ensures MsgsOk(Next(s, st).s)
  {
    if st.MutexUnlockCall? {
      HeadIsATask(s, MutexWaiters(st.i));
      if Next(s, st).s != s {
        OtherWakeKeepsMsgs(s, Next(s, st).s, MutexWaiters(st.i), MustYield);
      }
    } else {
      HeadIsATask(s, SemWaiters(st.i));
      OtherWakeKeepsMsgs(s, Next(s, st).s, SemWaiters(st.i), AfterWake(s.sems[st.i].waiters != []));
    }
  }

  lemma QuietStepKeepsMsgs(s: Sys, st: Step)
    requires Placed(s) && Shape(s) && MsgsOk(s) && Guard(s, st)
    requires st.Start? || st.LoopClear? || st.Dispatch? || st.SchedEntry? || st.PendSv? || st.TaskYield? || st.TaskSleep?
             || st.TaskDelete? || st.TaskCreate? || st.SetPolicy? || st.SetDefaultSlice? || st.SemTryTakeCall?
             || st.SemTakeCall? || st.MutexTryLockCall? || st.MutexLockCall? || st.Tick?
    ensures MsgsOk(Next(s, st).s)
  {
    SameRetriesKeepMsgs(s, Next(s, st).s);
  }

  /** Every step keeps the wake-up balance of every message queue. */
  lemma StepKeepsMsgs(s: Sys, st: Step)
    requires Placed(s) && Shape(s) && MsgsOk(s) && Guard(s, st)
    ensures MsgsOk(Next(s, st).s)
  {
    if st.Continue? {
      ContinueKeepsMsgs(s);
    } else if st.SendCall? || st.RecvCall? || st.TrySendCall? || st.TryRecvCall? {
      QueueCallKeepsMsgs(s, st);
    } else if st.SendIsr? || st.RecvIsr? {
      QueueIsrKeepsMsgs(s, st);
    } else if st.SemGiveCall? || st.SemGiveIsr? || st.MutexUnlockCall? {
      OtherWakeStepKeepsMsgs(s, st);
    } else {
      QuietStepKeepsMsgs(s, st);
    }
  }
}
