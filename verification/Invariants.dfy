/** The invariant of every run on either port, and what it says. */
module Invariants {
  import opened Sequences
  import opened KernelSpec
  import opened PrimitivesSpec
  import opened KernelSystem
  import opened Placement
  import opened WakeUps

  /** A token is stored only while nobody waits. */
  ghost predicate SemsOk(s: Sys) {
    forall i :: 0 <= i < |s.sems| ==>
      s.sems[i].count <= s.sems[i].max && (s.sems[i].waiters != [] ==> s.sems[i].count == 0)
  }

  /** Locked exactly while owned; a contested mutex is locked, and never by one of its waiters. */
  predicate MutexOk(m: Mutex, slots: nat) {
    && (m.locked <==> m.owner != NO_OWNER)
    && (m.locked ==> 0 <= m.owner < slots)
    && (m.waiters != [] ==> m.locked)
    && (forall t :: t in m.waiters ==> t != m.owner)
  }

  ghost predicate MutexesOk(s: Sys) {
    forall i :: 0 <= i < |s.mutexes| ==> MutexOk(s.mutexes[i], |s.k.tcbs|)
  }

  /** Some task is waiting for the CPU. */
  ghost predicate SomeQueued(k: KState) {
    exists p :: 0 <= p < |k.rq| && k.rq[p] != []
  }

  /** A switch is requested whenever the scheduler has control and somebody is queued. */
  ghost predicate PendOk(s: Sys) {
    && (s.ctl.LoopHead? && SomeQueued(s.k) ==> s.k.pending)
    && (s.ctl.Hopping? ==> s.k.pending)
  }

  /** On the preemptive port the scheduler has control only through the idle task. */
  predicate PortOk(s: Sys) {
    s.port.Preemptive? ==> !s.ctl.Picking? && (s.ctl.LoopHead? ==> s.k.current == -1 || s.k.current == s.k.IdleId())
  }

  ghost predicate Inv(s: Sys) {
    Placed(s) && HopSafe(s) && MsgsOk(s) && SemsOk(s) && MutexesOk(s) && PendOk(s) && PortOk(s)
  }

  // ------------------------------------------------------------------ steps

  lemma StepKeepsSems(s: Sys, st: Step)
    requires Shape(s) && SemsOk(s) && Guard(s, st)
    ensures SemsOk(Next(s, st).s)
  {
    if st.Continue? {
      ContinueKeepsSems(s);
    }
  }

  lemma ContinueKeepsSems(s: Sys)
    requires Shape(s) && SemsOk(s) && Guard(s, Continue)
    ensures SemsOk(ContinueNext(s).s)
  {
  }

  lemma UnlockKeepsMutexes(s: Sys, i: nat)
    requires Placed(s) && Shape(s) && MutexesOk(s) && Guard(s, MutexUnlockCall(i))
    ensures MutexesOk(MutexUnlockNext(s, i).s)
  {
    var m := s.mutexes[i];
    if m.waiters != [] {
      HeadIsATask(s, MutexWaiters(i));
      assert QueueOk(s, WaitQ(MutexWaiters(i))) && Q(s, WaitQ(MutexWaiters(i))) == m.waiters;
      assert MutexOk(m, |s.k.tcbs|);
    }
  }

  lemma ContinueKeepsMutexes(s: Sys)
    requires Shape(s) && MutexesOk(s) && Guard(s, Continue)
    ensures MutexesOk(ContinueNext(s).s)
  {
    var s1 := ContinueNext(s).s;
    assert |s1.k.tcbs| == |s.k.tcbs|;
    forall i | 0 <= i < |s1.mutexes|
      ensures MutexOk(s1.mutexes[i], |s.k.tcbs|)
    {
      assert MutexOk(s.mutexes[i], |s.k.tcbs|);
    }
  }

  /** Only lock and unlock calls touch a mutex, and no step changes the number of slots. */
  lemma MutexFrame(s: Sys, st: Step)
    requires Shape(s) && Guard(s, st)
    requires !st.MutexTryLockCall? && !st.MutexLockCall? && !st.MutexUnlockCall? && !st.Continue?
    ensures Next(s, st).s.mutexes == s.mutexes && |Next(s, st).s.k.tcbs| == |s.k.tcbs|
  {
  }

  lemma StepKeepsMutexes(s: Sys, st: Step)
    requires Placed(s) && Shape(s) && MutexesOk(s) && Guard(s, st)
    ensures MutexesOk(Next(s, st).s)
  {
    if st.MutexUnlockCall? {
      UnlockKeepsMutexes(s, st.i);
    } else if st.Continue? {
      ContinueKeepsMutexes(s);
    } else if st.MutexTryLockCall? || st.MutexLockCall? {
      assert MutexOk(s.mutexes[st.i], |s.k.tcbs|);
    } else {
      MutexFrame(s, st);
    }
  }

  lemma {:induction false} NobodyDue(k: KState, i: nat)
    requires i <= |k.tcbs| && forall j :: i <= j < |k.tcbs| ==> !IsDue(k.tcbs[j], k.tick)
    ensures WakeDue(k, i) == k
    decreases |k.tcbs| - i
  {
    if i < |k.tcbs| {
      NobodyDue(k, i + 1);
    }
  }

  lemma {:induction false} WakeLoopFrame(k: KState, i: nat)
    requires i <= |k.tcbs|
    ensures WakeDue(k, i) == k.(tcbs := WakeDue(k, i).tcbs, rq := WakeDue(k, i).rq)
    decreases |k.tcbs| - i
  {
    if i < |k.tcbs| {
      WakeLoopFrame(if IsDue(k.tcbs[i], k.tick) then MakeReady(k, i) else k, i + 1);
    }
  }

  lemma TickKeepsPend(s: Sys, handlerPends: bool)
    requires Shape(s) && PendOk(s) && PortOk(s)
    ensures PendOk(TickNext(s, handlerPends).s) && PortOk(TickNext(s, handlerPends).s)
  {
    var k1 := AdvanceTick(s.k);
    WakeLoopFrame(k1, 0);
    if !AnyDue(k1) {
      NobodyDue(k1, 0);
    }
  }

  /** A ready queue never holds the idle slot, so the pick names it only when nobody is queued. */
  lemma PickIsATask(s: Sys)
    requires Placed(s)
    ensures FirstNonEmpty(s.k.rq, 0) < |s.k.rq| ==> s.k.rq[FirstNonEmpty(s.k.rq, 0)][0] < s.k.IdleId()
    ensures SomeQueued(s.k) <==> FirstNonEmpty(s.k.rq, 0) < |s.k.rq|
  {
    var p := FirstNonEmpty(s.k.rq, 0);
    if p < |s.k.rq| {
      assert s.k.rq[p][0] in Q(s, ReadyQ(p)) && QueueOk(s, ReadyQ(p));
    }
  }

  lemma PendSvKeepsPend(s: Sys, oldSp: nat)
    requires Placed(s) && Shape(s) && HopSafe(s) && PortOk(s) && Guard(s, PendSv(oldSp))
    ensures PendOk(PendSvNext(s, oldSp).s) && PortOk(PendSvNext(s, oldSp).s)
  {
    SwitchOutKeepsPlaced(s, oldSp);
    PickIsATask(SwitchedOut(s, oldSp));
  }

  lemma QuietStepKeepsPend(s: Sys, st: Step)
    requires Shape(s) && HopSafe(s) && PendOk(s) && PortOk(s) && Guard(s, st)
    requires (s.ctl.Running? ==> s.k.current != s.k.IdleId()) && (s.ctl.Boot? ==> s.k.current == -1)
    requires !st.Tick? && !st.PendSv? && !st.Dispatch?
    ensures PendOk(Next(s, st).s) && PortOk(Next(s, st).s)
  {
    if st.Continue? {
      ContinueKeepsPend(s);
    }
  }

  lemma ContinueKeepsPend(s: Sys)
    requires Shape(s) && HopSafe(s) && PendOk(s) && PortOk(s) && Guard(s, Continue)
    requires s.k.current != s.k.IdleId()
    ensures PendOk(ContinueNext(s).s) && PortOk(ContinueNext(s).s)
  {
  }

  lemma StepKeepsPend(s: Sys, st: Step)
    requires Placed(s) && Shape(s) && HopSafe(s) && PendOk(s) && PortOk(s) && Guard(s, st)
    ensures PendOk(Next(s, st).s) && PortOk(Next(s, st).s)
  {
    if st.Tick? {
      TickKeepsPend(s, st.handlerPends);
    } else if st.PendSv? {
      PendSvKeepsPend(s, st.oldSp);
    } else if st.Dispatch? {
      PickIsATask(s);
    } else {
      assert s.ctl.Running? ==> TaskOk(s, s.k.current);
      QuietStepKeepsPend(s, st);
    }
  }

  /** Every enabled step preserves the invariant. */
  lemma StepKeepsInv(s: Sys, st: Step)
    requires Inv(s) && Enabled(s, st)
    ensures Inv(Next(s, st).s)
  {
    StepKeepsPlaced(s, st);
    StepKeepsMsgs(s, st);
    StepKeepsSems(s, st);
    StepKeepsMutexes(s, st);
    StepKeepsPend(s, st);
  }

  /** The system right after hrt_init and the init calls of its primitives. */
  function Booted(port: Port, tasks: nat, classes: nat, cfg: Option<Config>, pending: bool,
                  tokens: seq<(nat, uint8)>, mutexes: nat, capacities: seq<nat>): Sys
  {
    Sys(port, Init(tasks, classes, cfg, pending), Boot, seq(tasks, t => User),
        seq(|tokens|, i requires 0 <= i < |tokens| => SemInit(tokens[i].0, tokens[i].1)),
        seq(mutexes, i => MutexInit()),
        seq(|capacities|, i requires 0 <= i < |capacities| => MsgQ(capacities[i], [], [], [])))
  }

  /** It is an initial system, whatever the arguments, so the theorems about runs apply to it. */
  lemma BootedIsInitial(port: Port, tasks: nat, classes: nat, cfg: Option<Config>, pending: bool,
                        tokens: seq<(nat, uint8)>, mutexes: nat, capacities: seq<nat>)
    requires 2 <= tasks <= 255 && forall i :: 0 <= i < |capacities| ==> capacities[i] > 0
    ensures InitialSys(Booted(port, tasks, classes, cfg, pending, tokens, mutexes, capacities))
  {
    var s := Booted(port, tasks, classes, cfg, pending, tokens, mutexes, capacities);
    forall q
      ensures Q(s, q) == []
    {
      match q
      case ReadyQ(p) =>
      case WaitQ(w) =>
    }
  }

  lemma InitInv(s: Sys)
    requires InitialSys(s)
    ensures Inv(s)
  {
    forall q
      ensures QueueOk(s, q)
    {
      assert Q(s, q) == [];
    }
    assert forall i :: 0 <= i < |s.mutexes| ==> Q(s, WaitQ(MutexWaiters(i))) == s.mutexes[i].waiters;
    assert forall i :: 0 <= i < |s.sems| ==> Q(s, WaitQ(SemWaiters(i))) == s.sems[i].waiters;
    assert forall i :: 0 <= i < |s.queues| ==> Q(s, WaitQ(Senders(i))) == s.queues[i].senders;
    assert forall i :: 0 <= i < |s.queues| ==> Q(s, WaitQ(Receivers(i))) == s.queues[i].receivers;
  }

  // ------------------------------------------------------------------ runs

  /** The invariant holds after every run of enabled steps of tasks, scheduler, ticks and interrupt calls. */
  lemma {:induction false} RunKeepsInv(s: Sys, steps: seq<Step>)
    requires Inv(s) && ValidRun(s, steps)
    ensures Inv(Run(s, steps).s)
    decreases |steps|
  {
    if steps != [] {
      StepKeepsInv(s, steps[0]);
      RunKeepsInv(Next(s, steps[0]).s, steps[1..]);
    }
  }

  /** States some run of a freshly initialised system reaches. */
  ghost predicate Reachable(s: Sys) {
    exists s0, steps :: InitialSys(s0) && ValidRun(s0, steps) && Run(s0, steps).s == s
  }

  lemma ReachableInv(s: Sys)
    requires Reachable(s)
    ensures Inv(s)
  {
    var s0, steps :| InitialSys(s0) && ValidRun(s0, steps) && Run(s0, steps).s == s;
    InitInv(s0);
    RunKeepsInv(s0, steps);
  }

  // ------------------------------------------------------------------ what the invariant says

  lemma {:induction false} OccurrencesOfDistinct(a: seq<nat>, t: nat)
    requires NoDup(a)
    ensures multiset(a)[t] == if t in a then 1 else 0
  {
    if a != [] {
      assert a == [a[0]] + a[1..];
      OccurrencesOfDistinct(a[1..], t);
    }
  }

  /** Placement: at any time a task is running, or queued once in the ready queue of its own class
      and nowhere else, or parked once in one waiter queue and nowhere else, or in no queue at all
      (asleep or unused). No queue is ever full, so no push is ever dropped. Nobody has more slice left
      than configured. */
  lemma ExactlyOnePlace(s: Sys, t: nat, q: QueueId)
    requires Reachable(s) && t < |s.k.tcbs|
    ensures |s.pcs| == |s.k.tcbs|
    ensures multiset(Q(s, q))[t] == if HomeOf(s, t) == In(q) then 1 else 0
    ensures match s.k.tcbs[t].state
            case Ready => HomeOf(s, t) == if s.ctl.Running? && s.k.current == t then OnCpu else In(ReadyQ(s.k.tcbs[t].prio))
            case Blocked => HomeOf(s, t).In? && HomeOf(s, t).q.WaitQ? && t in Q(s, HomeOf(s, t).q)
            case Sleep => HomeOf(s, t) == Nowhere
            case Unused => HomeOf(s, t) == Nowhere
    ensures |Q(s, q)| < |s.k.tcbs|
    ensures s.k.tcbs[t].sliceLeft <= s.k.tcbs[t].sliceCfg
  {
    ReachableInv(s);
    assert QueueOk(s, q) && TaskOk(s, t);
    OccurrencesOfDistinct(Q(s, q), t);
    var idle := s.k.IdleId();
    assert TaskOk(s, idle) && idle !in Q(s, q);
    Room(s, q, idle);
  }

  /** The scheduler is never stuck: when it has control and a task is queued, a switch is pending. */
  lemma NeverStuck(s: Sys, t: nat)
    requires Reachable(s) && t < |s.k.tcbs| && s.ctl.LoopHead? && s.k.tcbs[t].state.Ready?
    ensures s.k.pending
  {
    ReachableInv(s);
    assert HomeOf(s, t).In? && TaskOk(s, t);
    assert t in s.k.rq[s.k.tcbs[t].prio];
  }

  /** No lost wake-up: while a receiver is parked on queue i, every item in it is matched by a receiver
      that was woken and is READY; dually every free slot while a sender is parked. */
  lemma WokenTasksCoverQueue(s: Sys, i: nat)
    requires Reachable(s) && i < |s.queues|
    ensures s.queues[i].receivers != [] ==> |s.queues[i].items| <= |WokenReceivers(s, i)|
    ensures s.queues[i].senders != [] ==> s.queues[i].capacity - |s.queues[i].items| <= |WokenSenders(s, i)|
    ensures s.queues[i].receivers != [] && s.queues[i].senders != [] ==>
              s.queues[i].capacity <= |WokenReceivers(s, i)| + |WokenSenders(s, i)|
    ensures forall t :: t in WokenReceivers(s, i) || t in WokenSenders(s, i) ==>
              t < |s.k.tcbs| && s.k.tcbs[t].state.Ready?
  {
    ReachableInv(s);
    assert MsgOk(s, i);
  }

  /** In a state with no runnable task, parked receivers mean an empty queue, parked senders a full
      one, and parked takers an empty semaphore: nobody sleeps on something it could have. */
  lemma QuiescentMeansNothingToTake(s: Sys, i: nat)
    requires Reachable(s) && forall t :: 0 <= t < |s.k.tcbs| ==> !s.k.tcbs[t].state.Ready?
    ensures i < |s.queues| && s.queues[i].receivers != [] ==> s.queues[i].items == []
    ensures i < |s.queues| && s.queues[i].senders != [] ==> s.queues[i].Full()
    ensures i < |s.sems| && s.sems[i].waiters != [] ==> s.sems[i].count == 0
    ensures i < |s.mutexes| && s.mutexes[i].waiters != [] ==> s.mutexes[i].locked
  {
    ReachableInv(s);
    if i < |s.queues| {
      WokenTasksCoverQueue(s, i);
      assert WokenReceivers(s, i) == {} && WokenSenders(s, i) == {};
    }
    if i < |s.mutexes| {
      assert MutexOk(s.mutexes[i], |s.k.tcbs|);
    }
  }

  /** The pick names a task of the best class among all queued tasks. */
  lemma PickIsBest(s: Sys, t: nat)
    requires Placed(s) && !s.ctl.Running? && t < |s.k.tcbs| && s.k.tcbs[t].state.Ready?
    ensures var p := FirstNonEmpty(s.k.rq, 0);
            p < |s.k.rq| && p <= s.k.tcbs[t].prio && s.k.rq[p][0] < s.k.IdleId()
            && s.k.tcbs[s.k.rq[p][0]].prio == p && s.k.tcbs[s.k.rq[p][0]].state.Ready?
  {
    var p := FirstNonEmpty(s.k.rq, 0);
    assert HomeOf(s, t).In? && t in Q(s, HomeOf(s, t).q);
    assert s.k.rq[p][0] in Q(s, ReadyQ(p)) && QueueOk(s, ReadyQ(p));
  }

  /** Dispatch, on either port: the task that gets the CPU has the best priority of all READY tasks,
      and nobody gets it only if no task is READY. */
  lemma BestTaskRuns(s: Sys, st: Step, t: nat)
    requires Reachable(s) && Enabled(s, st) && (st.Dispatch? || st.PendSv?) && t < |s.k.tcbs|
    ensures var s1 := Next(s, st).s;
            t < |s1.k.tcbs| && (s1.k.tcbs[t].state.Ready? ==>
              s1.ctl.Running? && s1.k.HasCurrent() && s1.k.tcbs[s1.k.current].state.Ready?
              && s1.k.tcbs[s1.k.current].prio <= s1.k.tcbs[t].prio)
  {
    ReachableInv(s);
    var s0 := if st.Dispatch? then s else SwitchedOut(s, st.oldSp);
    if st.PendSv? {
      SwitchOutKeepsPlaced(s, st.oldSp);
    }
    if s0.k.tcbs[t].state.Ready? {
      PickIsBest(s0, t);
    }
  }
}
