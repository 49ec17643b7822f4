/** Every task is in exactly one place: the placement invariant and its preservation. */
module Placement {
  import opened Sequences
  import opened KernelSpec
  import opened PrimitivesSpec
  import opened KernelSystem

  datatype Home = Nowhere | OnCpu | In(q: QueueId)

  /** Where a task belongs, judged from its record and its continuation alone. */
  function HomeOf(s: Sys, t: nat): Home
    requires t < |s.k.tcbs| == |s.pcs|
  {
    match s.k.tcbs[t].state
    case Unused => Nowhere
    case Sleep => Nowhere
    case Blocked => if s.pcs[t].IsParked() then In(WaitQ(s.pcs[t].Place())) else Nowhere
    case Ready => if s.ctl.Running? && s.k.current == t then OnCpu else In(ReadyQ(s.k.tcbs[t].prio))
  }

  /** A queue holds only tasks that belong there, each once. */
  ghost predicate QueueOk(s: Sys, q: QueueId)
    requires |s.k.tcbs| == |s.pcs|
  {
    && NoDup(Q(s, q))
    && (forall t :: t in Q(s, q) ==> t < |s.k.tcbs| && HomeOf(s, t) == In(q))
  }

  /** Each queue holds exactly the tasks that belong there, each once. */
  ghost predicate QueuesOk(s: Sys)
    requires |s.k.tcbs| == |s.pcs|
  {
    && (forall q {:trigger Q(s, q)} :: QueueOk(s, q))
    && (forall t :: 0 <= t < |s.k.tcbs| && HomeOf(s, t).In? ==> t in Q(s, HomeOf(s, t).q))
  }

  /** Record and continuation of one task agree. */
  predicate TaskOk(s: Sys, t: nat)
    requires t < |s.k.tcbs| == |s.pcs|
  {
    var r := s.k.tcbs[t];
    && (r.state.Blocked? <==> s.pcs[t].IsParked())
    && (r.state.Sleep? || r.state.Unused? ==> s.pcs[t].User?)
    && (!r.state.Unused? ==> t < s.k.IdleId() && r.prio < |s.k.rq|)
    && r.sliceLeft <= r.sliceCfg
  }

  ghost predicate Placed(s: Sys) {
    && 2 <= |s.k.tcbs| <= 255
    && |s.pcs| == |s.k.tcbs|
    && -1 <= s.k.current < |s.k.tcbs|
    && (s.ctl.Running? ==> s.k.HasCurrent() && s.k.tcbs[s.k.current].state.Ready?)
    && (s.ctl.Hopping? ==> s.k.HasCurrent())
    && (s.ctl.Boot? ==> s.k.current == -1)
    && (forall t {:trigger s.k.tcbs[t]} {:trigger s.pcs[t]} {:trigger TaskOk(s, t)} :: 0 <= t < |s.k.tcbs| ==> TaskOk(s, t))
    && QueuesOk(s)
  }

  lemma PlacedShape(s: Sys)
    requires Placed(s)
    ensures Shape(s)
  {
  }

  // ------------------------------------------------------------------ one task moves

  /** Queue contents after task t left home `from` (at the head of it, if a queue) for home `to`
      (at the tail of it, if a queue). */
  ghost predicate Moved(s: Sys, s1: Sys, t: nat, from: Home, to: Home) {
    forall q :: Q(s1, q) == if from == In(q) then (if Q(s, q) == [] then [] else Q(s, q)[1..])
                            else if to == In(q) then Q(s, q) + [t] else Q(s, q)
  }

  lemma MoveKeepsQueues(s: Sys, s1: Sys, t: nat, from: Home, to: Home)
    requires t < |s.k.tcbs| == |s.pcs| == |s1.k.tcbs| == |s1.pcs|
    requires QueuesOk(s)
    requires from != to && HomeOf(s, t) == from && HomeOf(s1, t) == to
    requires forall u :: 0 <= u < |s.k.tcbs| && u != t ==> HomeOf(s1, u) == HomeOf(s, u)
    requires from.In? ==> Q(s, from.q) != [] && Q(s, from.q)[0] == t
    requires Moved(s, s1, t, from, to)
    ensures QueuesOk(s1)
  {
    forall q
      ensures QueueOk(s1, q)
    {
      assert QueueOk(s, q);
      var a, b := Q(s, q), Q(s1, q);
      if to == In(q) && from != In(q) {
        assert t !in a;
        assert forall i :: 0 <= i < |a| ==> a[i] in a;
        assert b == a + [t];
      } else if from == In(q) {
        assert b == a[1..];
        forall u | u in b
          ensures u < |s1.k.tcbs| && HomeOf(s1, u) == In(q)
        {
          assert u in a && u != t;
        }
      } else {
        assert b == a;
        assert t !in a;
      }
    }
    forall u | 0 <= u < |s1.k.tcbs| && HomeOf(s1, u).In?
      ensures u in Q(s1, HomeOf(s1, u).q)
    {
      var q := HomeOf(s1, u).q;
      if u != t {
        assert u in Q(s, q);
      }
    }
  }

  /** A queue that does not hold task t has a free slot, so neither ring can drop a push. */
  lemma Room(s: Sys, q: QueueId, t: nat)
    requires t < |s.k.tcbs| == |s.pcs| && QueuesOk(s)
    requires t !in Q(s, q)
    ensures |Q(s, q)| < |s.k.tcbs|
  {
    assert QueueOk(s, q);
    var a := Q(s, q) + [t];
    assert NoDup(a);
    Pigeonhole(a, |s.k.tcbs|);
  }

  /** Task t, at home `from`, gets the READY record r and is appended to its class. */
  lemma ReadyKeepsPlaced(s: Sys, s1: Sys, t: nat, from: Home, r: Tcb)
    requires Placed(s) && t < s.k.IdleId() && HomeOf(s, t) == from
    requires r.state.Ready? && r.prio < |s.k.rq| && r.sliceLeft <= r.sliceCfg
    requires from.In? ==> from.q.WaitQ? && Q(s, from.q)[0] == t
    requires |s1.pcs| == |s.pcs| && s1.k.tcbs == s.k.tcbs[t := r] && s1.k.rq == RqPush(s.k, r.prio, t).rq
    requires s1.k.current == s.k.current && !s1.pcs[t].IsParked()
    requires if from == OnCpu then s1.ctl == Hopping || s1.ctl == LoopHead else s1.ctl == s.ctl
    requires forall u :: 0 <= u < |s.k.tcbs| && u != t ==> s1.pcs[u] == s.pcs[u]
    requires forall w :: Q(s1, WaitQ(w)) == if from == In(WaitQ(w)) then Q(s, WaitQ(w))[1..] else Q(s, WaitQ(w))
    ensures Placed(s1)
    ensures |s.k.rq[r.prio]| < |s.k.tcbs|
  {
    assert t !in Q(s, ReadyQ(r.prio)) by { assert QueueOk(s, ReadyQ(r.prio)); }
    Room(s, ReadyQ(r.prio), t);
    forall u | 0 <= u < |s1.k.tcbs|
      ensures TaskOk(s1, u)
    {
      assert TaskOk(s, u);
    }
    ReadyMoves(s, s1, t, from, r.prio);
    MoveKeepsQueues(s, s1, t, from, In(ReadyQ(r.prio)));
  }

  /** The queues after task t joined class p from the head of a waiter queue or from outside all queues. */
  lemma ReadyMoves(s: Sys, s1: Sys, t: nat, from: Home, p: nat)
    requires p < |s.k.rq| && s1.k.rq == s.k.rq[p := s.k.rq[p] + [t]] && (from.In? ==> from.q.WaitQ? && Q(s, from.q) != [])
    requires forall w :: Q(s1, WaitQ(w)) == if from == In(WaitQ(w)) then Q(s, WaitQ(w))[1..] else Q(s, WaitQ(w))
    ensures Moved(s, s1, t, from, In(ReadyQ(p)))
  {
    forall q
      ensures Q(s1, q) == if from == In(q) then (if Q(s, q) == [] then [] else Q(s, q)[1..])
                          else if In(ReadyQ(p)) == In(q) then Q(s, q) + [t] else Q(s, q)
    {
      match q
      case ReadyQ(c) =>
      case WaitQ(w) =>
    }
  }

  /** The running task leaves the CPU for a home that is not a ready queue: asleep, deleted or parked. */
  lemma LeaveKeepsPlaced(s: Sys, s1: Sys, to: Home)
    requires Placed(s) && s.ctl.Running? && s1.ctl.Hopping?
    requires |s1.pcs| == |s.pcs| == |s1.k.tcbs| && s1.k.rq == s.k.rq && s1.k.current == s.k.current
    requires TaskOk(s1, s.k.current) && HomeOf(s1, s.k.current) == to
    requires to == Nowhere || (to.In? && to.q.WaitQ?)
    requires forall u :: 0 <= u < |s.k.tcbs| && u != s.k.current ==> s1.pcs[u] == s.pcs[u] && s1.k.tcbs[u] == s.k.tcbs[u]
    requires forall w :: Q(s1, WaitQ(w)) == if to == In(WaitQ(w)) then WaitPush(Q(s, WaitQ(w)), s.k.current, |s.k.tcbs|)
                                            else Q(s, WaitQ(w))
    ensures Placed(s1)
    ensures to.In? ==> |Q(s, to.q)| < |s.k.tcbs|
  {
    var t := s.k.current;
    if to.In? {
      assert t !in Q(s, to.q) by { assert QueueOk(s, to.q); }
      Room(s, to.q, t);
    }
    forall u | 0 <= u < |s1.k.tcbs|
      ensures TaskOk(s1, u)
    {
      assert TaskOk(s, u);
    }
    MoveKeepsQueues(s, s1, t, OnCpu, to);
  }

  /** The head of class p takes the CPU. */
  lemma TakeCpuKeepsPlaced(s: Sys, s1: Sys, p: nat)
    requires Placed(s) && !s.ctl.Running? && p < |s.k.rq| && s.k.rq[p] != []
    requires s1 == s.(k := s1.k, ctl := Running)
    requires s1.k.tcbs == s.k.tcbs && s1.k.current == s.k.rq[p][0] && s1.k.rq == s.k.rq[p := s.k.rq[p][1..]]
    ensures Placed(s1)
    ensures s1.k.current < s.k.IdleId() && s.k.tcbs[s1.k.current].prio == p
  {
    var t := s.k.rq[p][0];
    assert t in Q(s, ReadyQ(p)) && QueueOk(s, ReadyQ(p));
    forall u | 0 <= u < |s1.k.tcbs|
      ensures TaskOk(s1, u)
    {
      assert TaskOk(s, u);
    }
    MoveKeepsQueues(s, s1, t, In(ReadyQ(p)), OnCpu);
  }

  /** No task changes its place. */
  lemma StillKeepsPlaced(s: Sys, s1: Sys)
    requires Placed(s) && |s1.pcs| == |s.pcs| == |s1.k.tcbs| && |s1.k.rq| == |s.k.rq|
    requires (s1.ctl == s.ctl && s1.k.current == s.k.current)
             || (!s.ctl.Running? && (s1.ctl.LoopHead? || s1.ctl.Picking?) && -1 <= s1.k.current < |s1.k.tcbs|)
    requires forall q :: Q(s1, q) == Q(s, q)
    requires forall u :: 0 <= u < |s.k.tcbs| ==>
               TaskOk(s1, u) && s1.k.tcbs[u].state == s.k.tcbs[u].state && s1.k.tcbs[u].prio == s.k.tcbs[u].prio
               && (s.pcs[u].IsParked() ==> s1.pcs[u] == s.pcs[u])
    ensures Placed(s1)
  {
    assert forall u :: 0 <= u < |s.k.tcbs| ==> TaskOk(s, u) && HomeOf(s1, u) == HomeOf(s, u);
    forall q
      ensures QueueOk(s1, q)
    {
      assert QueueOk(s, q);
    }
  }

  // ------------------------------------------------------------------ the effects of the steps

  /** Moving on to another point of the program that is not a parking place. */
  lemma AtKeepsPlaced(s: Sys, pc: Pc)
    requires Placed(s) && s.k.HasCurrent() && s.k.tcbs[s.k.current].state.Ready? && !pc.IsParked()
    ensures Placed(At(s, pc))
  {
    StillKeepsPlaced(s, At(s, pc));
  }

  lemma PendKeepsPlaced(s: Sys, request: bool)
    requires Placed(s)
    ensures Placed(Pend(s, request))
  {
    StillKeepsPlaced(s, Pend(s, request));
  }

  /** Waking the head of a waiter queue. */
  lemma WakeKeepsPlaced(s: Sys, s1: Sys, w: WaitId)
    requires Placed(s) && Q(s, WaitQ(w)) != [] && Q(s, WaitQ(w))[0] < |s.k.tcbs|
    requires s1.k == MakeReady(s.k, Q(s, WaitQ(w))[0]) && s1.pcs == WakePcs(s, w) && s1.ctl == s.ctl
    requires forall v :: Q(s1, WaitQ(v)) == if v == w then Q(s, WaitQ(v))[1..] else Q(s, WaitQ(v))
    ensures Placed(s1)
    ensures |s.k.rq| == |s1.k.rq|
  {
    var t := Q(s, WaitQ(w))[0];
    assert t in Q(s, WaitQ(w)) && QueueOk(s, WaitQ(w));
    assert TaskOk(s, t);
    var r := s.k.tcbs[t];
    ReadyKeepsPlaced(s, s1, t, In(WaitQ(w)), r.(state := Ready, sliceLeft := r.sliceCfg));
  }

  lemma SemGiveCsKeepsPlaced(s: Sys, i: nat)
    requires Placed(s) && Shape(s) && i < |s.sems|
    ensures Placed(SemGiveCs(s, i).s)
  {
    var s1 := SemGiveCs(s, i).s;
    if s.sems[i].waiters != [] {
      HeadIsATask(s, SemWaiters(i));
      WakeKeepsPlaced(s, s1, SemWaiters(i));
    } else {
      StillKeepsPlaced(s, s1);
    }
  }

  lemma AfterSendKeepsPlaced(s: Sys, i: nat, item: Item)
    requires Placed(s) && Shape(s) && i < |s.queues|
    ensures Placed(AfterSend(s, i, item))
  {
    var s1 := AfterSend(s, i, item);
    if s.queues[i].receivers != [] {
      HeadIsATask(s, Receivers(i));
      WakeKeepsPlaced(s, s1, Receivers(i));
    } else {
      StillKeepsPlaced(s, s1);
    }
  }

  lemma AfterRecvKeepsPlaced(s: Sys, i: nat)
    requires Placed(s) && Shape(s) && i < |s.queues| && s.queues[i].items != []
    ensures Placed(AfterRecv(s, i))
  {
    var s1 := AfterRecv(s, i);
    if s.queues[i].senders != [] {
      HeadIsATask(s, Senders(i));
      WakeKeepsPlaced(s, s1, Senders(i));
    } else {
      StillKeepsPlaced(s, s1);
    }
  }

  lemma YieldKeepsPlaced(s: Sys)
    requires Placed(s) && Shape(s) && s.ctl.Running? && !s.pcs[s.k.current].IsParked()
    ensures Placed(YieldNext(s).s)
  {
    var c := s.k.current;
    var r := s.k.tcbs[c];
    assert TaskOk(s, c);
    ReadyKeepsPlaced(s, YieldNext(s).s, c, OnCpu, r.(sliceLeft := r.sliceCfg));
  }

  /** The tick's wake loop moves each due sleeper into its class. */
  lemma {:induction false} WakeLoopKeepsPlaced(s: Sys, i: nat)
    requires Placed(s) && i <= |s.k.tcbs|
    ensures Placed(s.(k := WakeDue(s.k, i)))
    decreases |s.k.tcbs| - i
  {
    if i < |s.k.tcbs| {
      if IsDue(s.k.tcbs[i], s.k.tick) {
        var s1 := s.(k := MakeReady(s.k, i));
        assert TaskOk(s, i);
        var r := s.k.tcbs[i];
        ReadyKeepsPlaced(s, s1, i, Nowhere, r.(state := Ready, sliceLeft := r.sliceCfg));
        WakeLoopKeepsPlaced(s1, i + 1);
      } else {
        WakeLoopKeepsPlaced(s, i + 1);
      }
    }
  }

  lemma TickKeepsPlaced(s: Sys, handlerPends: bool)
    requires Placed(s) && Shape(s)
    ensures Placed(TickNext(s, handlerPends).s)
  {
    var s1 := s.(k := AdvanceTick(s.k));
    StillKeepsPlaced(s, s1);
    WakeLoopKeepsPlaced(s1, 0);
    var s2 := s1.(k := WakeDue(s1.k, 0));
    StillKeepsPlaced(s2, TickNext(s, handlerPends).s);
  }

  /** Dispatch of the cooperative loop. */
  lemma DispatchKeepsPlaced(s: Sys)
    requires Placed(s) && s.ctl.Picking?
    ensures Placed(DispatchNext(s).s)
  {
    var p := FirstNonEmpty(s.k.rq, 0);
    if p < |s.k.rq| {
      var s1 := s.(k := s.k.(rq := s.k.rq[p := s.k.rq[p][1..]], current := s.k.rq[p][0]), ctl := Running);
      TakeCpuKeepsPlaced(s, s1, p);
    } else {
      StillKeepsPlaced(s, DispatchNext(s).s);
    }
  }

  /** The state between the two halves of hrt__schedule: the outgoing task is requeued if it was running. */
  function SwitchedOut(s: Sys, oldSp: nat): Sys
    requires oldSp != 0 ==> s.k.HasCurrent()
  {
    s.(k := SwitchOut(s.k, oldSp), ctl := LoopHead)
  }

  lemma SwitchOutKeepsPlaced(s: Sys, oldSp: nat)
    requires Placed(s) && Shape(s) && HopSafe(s) && Guard(s, PendSv(oldSp))
    requires s.ctl.LoopHead? ==> s.k.current == -1 || s.k.current == s.k.IdleId()
    ensures Placed(SwitchedOut(s, oldSp))
  {
    var c := s.k.current;
    if s.ctl.Running? {
      ReadyKeepsPlaced(s, SwitchedOut(s, oldSp), c, OnCpu, s.k.tcbs[c].(sp := oldSp));
    } else {
      StillKeepsPlaced(s, SwitchedOut(s, oldSp));
    }
  }

  /** PendSV: the best queued task takes the CPU, or the idle task if there is none. */
  lemma PendSvKeepsPlaced(s: Sys, oldSp: nat)
    requires Placed(s) && Shape(s) && HopSafe(s) && Guard(s, PendSv(oldSp))
    requires s.ctl.LoopHead? ==> s.k.current == -1 || s.k.current == s.k.IdleId()
    ensures Placed(PendSvNext(s, oldSp).s)
  {
    var s1, s2 := SwitchedOut(s, oldSp), PendSvNext(s, oldSp).s;
    SwitchOutKeepsPlaced(s, oldSp);
    var p := FirstNonEmpty(s1.k.rq, 0);
    if p < |s1.k.rq| {
      assert s1.k.rq[p][0] in Q(s1, ReadyQ(p)) && TaskOk(s1, s1.k.rq[p][0]);
      TakeCpuKeepsPlaced(s1, s2, p);
    } else {
      StillKeepsPlaced(s1, s2);
    }
  }

  lemma CreateKeepsPlaced(s: Sys, a: CreateArgs)
    requires Placed(s) && Shape(s) && Guard(s, TaskCreate(a))
    ensures Placed(CreateNext(s, a).s)
  {
    var id := LowestUnused(s.k.tcbs, 0);
    if a.Acceptable() && id < |s.k.tcbs| {
      ReadyKeepsPlaced(s, CreateNext(s, a).s, id, Nowhere, NewTcb(s.k, a));
    }
  }

  lemma UnlockKeepsPlaced(s: Sys, i: nat)
    requires Placed(s) && Shape(s) && Guard(s, MutexUnlockCall(i))
    ensures Placed(MutexUnlockNext(s, i).s)
  {
    var m := s.mutexes[i];
    if m.locked && m.owner == s.k.current {
      HeadIsATask(s, MutexWaiters(i));
      var (k1, m1, _) := MutexUnlock(s.k, m);
      var s1 := s.(k := k1, mutexes := s.mutexes[i := m1], pcs := WakePcs(s, MutexWaiters(i)));
      if m.waiters != [] {
        WakeKeepsPlaced(s, s1, MutexWaiters(i));
        assert m.waiters[0] in Q(s, WaitQ(MutexWaiters(i)));
        AtKeepsPlaced(s1, MustYield);
      } else {
        StillKeepsPlaced(s, s1);
      }
    }
  }

  lemma SendAttemptKeepsPlaced(s: Sys, i: nat, item: Item, woken: bool)
    requires Placed(s) && Shape(s) && s.ctl.Running? && i < |s.queues|
    ensures Placed(SendAttempt(s, i, item, woken).s)
  {
    if s.queues[i].Full() {
      AtKeepsPlaced(s, SendRecheck(i, item, woken));
    } else {
      AfterSendKeepsPlaced(s, i, item);
      AtKeepsPlaced(AfterSend(s, i, item), AfterWake(s.queues[i].receivers != []));
    }
  }

  lemma RecvAttemptKeepsPlaced(s: Sys, i: nat, woken: bool)
    requires Placed(s) && Shape(s) && s.ctl.Running? && i < |s.queues|
    ensures Placed(RecvAttempt(s, i, woken).s)
  {
    if s.queues[i].items == [] {
      AtKeepsPlaced(s, RecvRecheck(i, woken));
    } else {
      AfterRecvKeepsPlaced(s, i);
      AtKeepsPlaced(AfterRecv(s, i), AfterWake(s.queues[i].senders != []));
    }
  }

  lemma SemRecheckKeepsPlaced(s: Sys, i: nat)
    requires Placed(s) && Shape(s) && s.ctl.Running? && i < |s.sems|
    ensures Placed(SemRecheckNext(s, i).s)
  {
    var s1 := SemRecheckNext(s, i).s;
    if s.sems[i].count > 0 {
      StillKeepsPlaced(s, s1);
    } else {
      LeaveKeepsPlaced(s, s1, In(WaitQ(SemWaiters(i))));
    }
  }

  lemma MutexRecheckKeepsPlaced(s: Sys, i: nat)
    requires Placed(s) && Shape(s) && s.ctl.Running? && i < |s.mutexes|
    ensures Placed(MutexRecheckNext(s, i).s)
  {
    var s1 := MutexRecheckNext(s, i).s;
    if s1.ctl.Hopping? {
      LeaveKeepsPlaced(s, s1, In(WaitQ(MutexWaiters(i))));
    } else {
      StillKeepsPlaced(s, s1);
    }
  }

  lemma SendRecheckKeepsPlaced(s: Sys, i: nat, item: Item)
    requires Placed(s) && Shape(s) && s.ctl.Running? && i < |s.queues|
    ensures Placed(SendRecheckNext(s, i, item).s)
  {
    if s.queues[i].Full() {
      LeaveKeepsPlaced(s, SendRecheckNext(s, i, item).s, In(WaitQ(Senders(i))));
    } else {
      AfterSendKeepsPlaced(s, i, item);
      AtKeepsPlaced(AfterSend(s, i, item), User);
    }
  }

  lemma RecvRecheckKeepsPlaced(s: Sys, i: nat)
    requires Placed(s) && Shape(s) && s.ctl.Running? && i < |s.queues|
    ensures Placed(RecvRecheckNext(s, i).s)
  {
    if s.queues[i].items == [] {
      LeaveKeepsPlaced(s, RecvRecheckNext(s, i).s, In(WaitQ(Receivers(i))));
    } else {
      AfterRecvKeepsPlaced(s, i);
      AtKeepsPlaced(AfterRecv(s, i), User);
    }
  }

  lemma ContinueKeepsPlaced(s: Sys)
    requires Placed(s) && Shape(s) && Guard(s, Continue)
    ensures Placed(ContinueNext(s).s)
  {
    var pc := s.pcs[s.k.current];
    if pc.MustYield? {
      YieldKeepsPlaced(s);
    } else if pc.SemRecheck? {
      SemRecheckKeepsPlaced(s, pc.i);
    } else if pc.MutexRecheck? {
      MutexRecheckKeepsPlaced(s, pc.i);
    } else if pc.SendTry? {
      SendAttemptKeepsPlaced(s, pc.i, pc.item, pc.woken);
    } else if pc.SendRecheck? {
      SendRecheckKeepsPlaced(s, pc.i, pc.item);
    } else if pc.RecvTry? {
      RecvAttemptKeepsPlaced(s, pc.i, pc.woken);
    } else {
      RecvRecheckKeepsPlaced(s, pc.i);
    }
  }

  /** Steps that move no task: loop control, settings, and primitive calls that neither wake nor park. */
  lemma QuietStepKeepsPlaced(s: Sys, st: Step)
    requires Placed(s) && Shape(s) && HopSafe(s) && Guard(s, st)
    requires st.Start? || st.LoopClear? || st.SchedEntry? || st.SetPolicy? || st.SetDefaultSlice?
             || st.SemTryTakeCall? || st.SemTakeCall? || st.MutexTryLockCall? || st.MutexLockCall?
    ensures Placed(Next(s, st).s)
  {
    StillKeepsPlaced(s, Next(s, st).s);
  }

  lemma LeaveStepKeepsPlaced(s: Sys, st: Step)
    requires Placed(s) && Shape(s) && Guard(s, st) && (st.TaskSleep? || st.TaskDelete?)
    ensures Placed(Next(s, st).s)
  {
    LeaveKeepsPlaced(s, Next(s, st).s, Nowhere);
  }

  lemma GiveStepKeepsPlaced(s: Sys, st: Step)
    requires Placed(s) && Shape(s) && Guard(s, st) && (st.SemGiveCall? || st.SemGiveIsr?)
    ensures Placed(Next(s, st).s)
  {
    SemGiveCsKeepsPlaced(s, st.i);
    if st.SemGiveCall? {
      AtKeepsPlaced(SemGiveCs(s, st.i).s, AfterWake(s.sems[st.i].waiters != []));
    } else {
      PendKeepsPlaced(SemGiveCs(s, st.i).s, s.sems[st.i].waiters != []);
    }
  }

  lemma SendStepKeepsPlaced(s: Sys, st: Step)
    requires Placed(s) && Shape(s) && Guard(s, st) && (st.TrySendCall? || st.SendCall? || st.SendIsr?)
    ensures Placed(Next(s, st).s)
  {
    if st.SendCall? {
      SendAttemptKeepsPlaced(s, st.i, st.item, false);
    } else if !s.queues[st.i].Full() {
      AfterSendKeepsPlaced(s, st.i, st.item);
      if st.TrySendCall? {
        AtKeepsPlaced(AfterSend(s, st.i, st.item), AfterWake(s.queues[st.i].receivers != []));
      } else {
        PendKeepsPlaced(AfterSend(s, st.i, st.item), s.queues[st.i].receivers != []);
      }
    }
  }

  lemma RecvStepKeepsPlaced(s: Sys, st: Step)
    requires Placed(s) && Shape(s) && Guard(s, st) && (st.TryRecvCall? || st.RecvCall? || st.RecvIsr?)
    ensures Placed(Next(s, st).s)
  {
    if st.RecvCall? {
      RecvAttemptKeepsPlaced(s, st.i, false);
    } else if s.queues[st.i].items != [] {
      AfterRecvKeepsPlaced(s, st.i);
      if st.TryRecvCall? {
        AtKeepsPlaced(AfterRecv(s, st.i), AfterWake(s.queues[st.i].senders != []));
      } else {
        PendKeepsPlaced(AfterRecv(s, st.i), s.queues[st.i].senders != []);
      }
    }
  }

  /** Every step keeps every task in exactly one place. */
  lemma StepKeepsPlaced(s: Sys, st: Step)
    requires Placed(s) && Shape(s) && HopSafe(s) && Guard(s, st)
    requires s.port.Preemptive? && s.ctl.LoopHead? ==> s.k.current == -1 || s.k.current == s.k.IdleId()
    ensures Placed(Next(s, st).s)
  {
    if st.Dispatch? { DispatchKeepsPlaced(s); }
    else if st.PendSv? { PendSvKeepsPlaced(s, st.oldSp); }
    else if st.TaskYield? { YieldKeepsPlaced(s); }
    else if st.TaskSleep? || st.TaskDelete? { LeaveStepKeepsPlaced(s, st); }
    else if st.TaskCreate? { CreateKeepsPlaced(s, st.args); }
    else if st.MutexUnlockCall? { UnlockKeepsPlaced(s, st.i); }
    else if st.Continue? { ContinueKeepsPlaced(s); }
    else if st.Tick? { TickKeepsPlaced(s, st.handlerPends); }
    else if st.SemGiveCall? || st.SemGiveIsr? { GiveStepKeepsPlaced(s, st); }
    else if st.TrySendCall? || st.SendCall? || st.SendIsr? { SendStepKeepsPlaced(s, st); }
    else if st.TryRecvCall? || st.RecvCall? || st.RecvIsr? { RecvStepKeepsPlaced(s, st); }
    else { QuietStepKeepsPlaced(s, st); }
  }
}
