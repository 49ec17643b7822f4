/** When a better task waits although the running one could be preempted: the wake-ups and creations that
    request no switch. */
module Promptness {
  import opened KernelSpec
  import opened PrimitivesSpec
  import opened KernelSystem
  import opened Placement
  import opened WakeUps
  import opened Invariants
  import opened Records
  import opened Preemption

  /** A task of a better class than the running one is queued. */
  ghost predicate Overdue(s: Sys) {
    && s.ctl.Running? && s.k.HasCurrent()
    && exists c :: 0 <= c < |s.k.rq| && c < s.k.tcbs[s.k.current].prio && s.k.rq[c] != []
  }

  /** In other words, some READY task is better than the running one. */
  lemma OverdueMeansBetterReady(s: Sys)
    requires Placed(s) && s.ctl.Running?
    ensures Overdue(s) <==>
            exists t :: 0 <= t < |s.k.tcbs| && s.k.tcbs[t].state.Ready? && s.k.tcbs[t].prio < s.k.tcbs[s.k.current].prio
  {
    if Overdue(s) {
      var c :| 0 <= c < |s.k.rq| && c < s.k.tcbs[s.k.current].prio && s.k.rq[c] != [];
      var t := s.k.rq[c][0];
      assert t in Q(s, ReadyQ(c)) && QueueOk(s, ReadyQ(c));
    }
    if t :| 0 <= t < |s.k.tcbs| && s.k.tcbs[t].state.Ready? && s.k.tcbs[t].prio < s.k.tcbs[s.k.current].prio {
      assert HomeOf(s, t) == In(ReadyQ(s.k.tcbs[t].prio)) && TaskOk(s, t);
      assert t in Q(s, ReadyQ(s.k.tcbs[t].prio));
    }
  }

  /** Then a switch is requested, or the running task is about to yield. */
  ghost predicate Prompt(s: Sys) {
    Overdue(s) ==> s.k.pending || (s.k.current < |s.pcs| && s.pcs[s.k.current].MustYield?)
  }

  /** The class of the task that step st of the running task makes ready without a request or a yield: the
      re-checks of blocking send and receive, and creation. */
  function SilentClass(s: Sys, st: Step): Option<nat>
    requires s.k.HasCurrent() && |s.pcs| == |s.k.tcbs|
  {
    var pc := s.pcs[s.k.current];
    if st.TaskCreate? && st.args.Acceptable() && LowestUnused(s.k.tcbs, 0) < |s.k.tcbs| then Some(st.args.Prio())
    else if st.Continue? && pc.SendRecheck? && pc.i < |s.queues| && !s.queues[pc.i].Full()
      then HeadClass(s, s.queues[pc.i].receivers)
    else if st.Continue? && pc.RecvRecheck? && pc.i < |s.queues| && s.queues[pc.i].items != []
      then HeadClass(s, s.queues[pc.i].senders)
    else None
  }

  function HeadClass(s: Sys, waiters: seq<nat>): Option<nat> {
    if waiters != [] && waiters[0] < |s.k.tcbs| then Some(s.k.tcbs[waiters[0]].prio) else None
  }

  /** This step silently makes ready a task of a better class than the running one. */
  predicate SilentWake(s: Sys, st: Step) {
    && s.ctl.Running? && s.k.HasCurrent() && |s.pcs| == |s.k.tcbs| && !s.k.pending
    && SilentClass(s, st).Some? && SilentClass(s, st).value < s.k.tcbs[s.k.current].prio
  }

  // ------------------------------------------------------------------ steps

  /** Ready queues and current task stay, requests and yields are not withdrawn. */
  lemma StillPrompt(s: Sys, s1: Sys)
    requires Prompt(s) && s1.k.rq == s.k.rq
    requires s1.ctl.Running? && s1.k.HasCurrent() ==>
               && s.ctl.Running? && s.k.HasCurrent() && s1.k.current == s.k.current
               && s1.k.tcbs[s1.k.current].prio == s.k.tcbs[s.k.current].prio
               && (s.k.pending ==> s1.k.pending) && |s.pcs| == |s1.pcs|
               && (s.k.current < |s.pcs| && s.pcs[s.k.current].MustYield? ==> s1.pcs[s.k.current].MustYield?)
    ensures Prompt(s1)
  {
  }

  /** A task joins class p with no request and no yield. */
  lemma JoinPrompt(s: Sys, s1: Sys, p: nat, id: nat)
    requires Prompt(s) && s.ctl.Running? && s.k.HasCurrent() && s1.ctl.Running? && s1.k.current == s.k.current
    requires |s1.k.tcbs| == |s.k.tcbs| && s1.k.tcbs[s.k.current].prio == s.k.tcbs[s.k.current].prio
    requires p < |s.k.rq| && s1.k.rq == s.k.rq[p := s.k.rq[p] + [id]] && s1.k.pending == s.k.pending
    requires |s.pcs| == |s1.pcs| == |s.k.tcbs| && !s.pcs[s.k.current].MustYield? && !s1.pcs[s.k.current].MustYield?
    ensures Prompt(s1) <==> s.k.pending || p >= s.k.tcbs[s.k.current].prio
  {
    if p < s.k.tcbs[s.k.current].prio {
      assert s1.k.rq[p] != [];
    } else {
      assert forall c :: 0 <= c < |s.k.rq| && c < s.k.tcbs[s.k.current].prio ==> s1.k.rq[c] == s.k.rq[c];
    }
  }

  /** A parked task made ready joins its class. */
  lemma WokenJoins(s: Sys, w: WaitId)
    requires Placed(s) && Shape(s) && Q(s, WaitQ(w)) != []
    ensures var h := Q(s, WaitQ(w))[0];
            h < |s.k.tcbs| && s.k.tcbs[h].prio < |s.k.rq|
            && MakeReady(s.k, h).rq == s.k.rq[s.k.tcbs[h].prio := s.k.rq[s.k.tcbs[h].prio] + [h]]
  {
    HeadIsParked(s, w);
    var h := Q(s, WaitQ(w))[0];
    assert TaskOk(s, h);
    var q := ReadyQ(s.k.tcbs[h].prio);
    assert QueueOk(s, q);
    Room(s, q, h);
  }

  lemma SendRecheckPrompt(s: Sys, i: nat, item: Item)
    requires Placed(s) && Shape(s) && Prompt(s) && s.ctl.Running? && i < |s.queues|
    requires s.pcs[s.k.current].SendRecheck? && s.pcs[s.k.current].i == i
    ensures Prompt(SendRecheckNext(s, i, item).s) <==> !SilentWake(s, Continue)
  {
    var s1, q := SendRecheckNext(s, i, item).s, s.queues[i];
    HeadIsATask(s, Receivers(i));
    if q.Full() || q.receivers == [] {
      StillPrompt(s, s1);
    } else {
      WokenJoins(s, Receivers(i));
      JoinPrompt(s, s1, s.k.tcbs[q.receivers[0]].prio, q.receivers[0]);
    }
  }

  lemma RecvRecheckPrompt(s: Sys, i: nat)
    requires Placed(s) && Shape(s) && Prompt(s) && s.ctl.Running? && i < |s.queues|
    requires s.pcs[s.k.current].RecvRecheck? && s.pcs[s.k.current].i == i
    ensures Prompt(RecvRecheckNext(s, i).s) <==> !SilentWake(s, Continue)
  {
    var s1, q := RecvRecheckNext(s, i).s, s.queues[i];
    HeadIsATask(s, Senders(i));
    if q.items == [] || q.senders == [] {
      StillPrompt(s, s1);
    } else {
      WokenJoins(s, Senders(i));
      JoinPrompt(s, s1, s.k.tcbs[q.senders[0]].prio, q.senders[0]);
    }
  }

  lemma CreatePrompt(s: Sys, a: CreateArgs)
    requires Placed(s) && Shape(s) && Prompt(s) && Guard(s, TaskCreate(a))
    ensures Prompt(CreateNext(s, a).s) <==> !SilentWake(s, TaskCreate(a))
  {
    var id, s1 := LowestUnused(s.k.tcbs, 0), CreateNext(s, a).s;
    if !a.Acceptable() || id == |s.k.tcbs| {
      StillPrompt(s, s1);
    } else if s.ctl.Running? {
      var q := ReadyQ(a.Prio());
      assert TaskOk(s, id) && QueueOk(s, q) && HomeOf(s, id) == Nowhere;
      Room(s, q, id);
      JoinPrompt(s, s1, a.Prio(), id);
    }
  }

  lemma TickPrompt(s: Sys, handlerPends: bool)
    requires Shape(s) && Prompt(s)
    ensures Prompt(TickNext(s, handlerPends).s)
  {
    var k1 := AdvanceTick(s.k);
    WakeLoopFrame(k1, 0);
    if !AnyDue(k1) {
      NobodyDue(k1, 0);
      StillPrompt(s, TickNext(s, handlerPends).s);
    }
  }

  /** After a switch the best task runs. */
  lemma PendSvPrompt(s: Sys, oldSp: nat)
    requires Inv(s) && Enabled(s, PendSv(oldSp))
    ensures Prompt(PendSvNext(s, oldSp).s)
  {
    var s1, s2 := SwitchedOut(s, oldSp), PendSvNext(s, oldSp).s;
    SwitchOutKeepsPlaced(s, oldSp);
    var p := FirstNonEmpty(s1.k.rq, 0);
    if p < |s1.k.rq| {
      var t := s1.k.rq[p][0];
      assert t in Q(s1, ReadyQ(p)) && QueueOk(s1, ReadyQ(p));
      assert s2.k.tcbs[s2.k.current].prio == p;
      assert forall c :: 0 <= c < p ==> s2.k.rq[c] == [];
    }
  }

  /** A wake-up in a task's call is followed by a yield, one in an interrupt call by a request. */
  lemma GiveStepPrompt(s: Sys, st: Step)
    requires Shape(s) && Prompt(s) && Guard(s, st) && (st.SemGiveCall? || st.SemGiveIsr? || st.MutexUnlockCall?)
    ensures Prompt(Next(s, st).s)
  {
    HeadIsATask(s, if st.MutexUnlockCall? then MutexWaiters(st.i) else SemWaiters(st.i));
    if !Next(s, st).s.k.pending && (st.SemGiveIsr? || !Next(s, st).s.pcs[s.k.current].MustYield?) {
      StillPrompt(s, Next(s, st).s);
    }
  }

  lemma SendStepPrompt(s: Sys, st: Step)
    requires Shape(s) && Prompt(s) && Guard(s, st) && (st.TrySendCall? || st.SendCall? || st.SendIsr?)
    ensures Prompt(Next(s, st).s)
  {
    HeadIsATask(s, Receivers(st.i));
    if s.queues[st.i].Full() || s.queues[st.i].receivers == [] {
      StillPrompt(s, Next(s, st).s);
    }
  }

  lemma RecvStepPrompt(s: Sys, st: Step)
    requires Shape(s) && Prompt(s) && Guard(s, st) && (st.TryRecvCall? || st.RecvCall? || st.RecvIsr?)
    ensures Prompt(Next(s, st).s)
  {
    HeadIsATask(s, Senders(st.i));
    if s.queues[st.i].items == [] || s.queues[st.i].senders == [] {
      StillPrompt(s, Next(s, st).s);
    }
  }

  lemma TryAgainPrompt(s: Sys)
    requires Shape(s) && Prompt(s) && Guard(s, Continue)
    requires var pc := s.pcs[s.k.current]; pc.SendTry? || pc.RecvTry? || pc.SemRecheck? || pc.MutexRecheck?
    ensures Prompt(ContinueNext(s).s)
  {
    var pc := s.pcs[s.k.current];
    if pc.SendTry? {
      HeadIsATask(s, Receivers(pc.i));
      if s.queues[pc.i].Full() || s.queues[pc.i].receivers == [] {
        StillPrompt(s, ContinueNext(s).s);
      }
    } else if pc.RecvTry? {
      HeadIsATask(s, Senders(pc.i));
      if s.queues[pc.i].items == [] || s.queues[pc.i].senders == [] {
        StillPrompt(s, ContinueNext(s).s);
      }
    } else {
      StillPrompt(s, ContinueNext(s).s);
    }
  }

  lemma QuietStepPrompt(s: Sys, st: Step)
    requires Shape(s) && Prompt(s) && Guard(s, st)
    requires st.Start? || st.TaskSleep? || st.TaskDelete? || st.SetPolicy? || st.SetDefaultSlice?
             || st.SemTryTakeCall? || st.SemTakeCall? || st.MutexTryLockCall? || st.MutexLockCall?
    ensures Prompt(Next(s, st).s)
  {
    StillPrompt(s, Next(s, st).s);
  }

  lemma ContinuePrompt(s: Sys)
    requires Inv(s) && Prompt(s) && Enabled(s, Continue) && s.port.Preemptive?
    ensures Prompt(ContinueNext(s).s) <==> !SilentWake(s, Continue)
  {
    var pc := s.pcs[s.k.current];
    PreemptiveHopSafeIff(s, Continue);
    if pc.SendRecheck? {
      SendRecheckPrompt(s, pc.i, pc.item);
    } else if pc.RecvRecheck? {
      RecvRecheckPrompt(s, pc.i);
    } else {
      TryAgainPrompt(s);
    }
  }

  /** From a prompt state a step leads to one where a better READY task waits without a request or a yield
      if and only if it is a re-check or a creation that makes that task ready itself. */
  lemma StepPromptIff(s: Sys, st: Step)
    requires Inv(s) && Prompt(s) && Enabled(s, st) && s.port.Preemptive?
    ensures Prompt(Next(s, st).s) <==> !SilentWake(s, st)
  {
    if st.Continue? {
      ContinuePrompt(s);
    } else if st.TaskCreate? {
      CreatePrompt(s, st.args);
    } else if st.PendSv? {
      PendSvPrompt(s, st.oldSp);
    } else if st.Tick? {
      TickPrompt(s, st.handlerPends);
    } else if st.SemGiveCall? || st.SemGiveIsr? || st.MutexUnlockCall? {
      GiveStepPrompt(s, st);
    } else if st.TrySendCall? || st.SendCall? || st.SendIsr? {
      SendStepPrompt(s, st);
    } else if st.TryRecvCall? || st.RecvCall? || st.RecvIsr? {
      RecvStepPrompt(s, st);
    } else if st.TaskYield? {
      PreemptiveHopSafeIff(s, st);
    } else {
      QuietStepPrompt(s, st);
    }
  }

  // ------------------------------------------------------------------ runs

  /** Every state of the run is prompt. */
  ghost predicate AlwaysPrompt(s: Sys, steps: seq<Step>)
    requires ValidRun(s, steps)
    decreases |steps|
  {
    Prompt(s) && (steps == [] || AlwaysPrompt(Next(s, steps[0]).s, steps[1..]))
  }

  /** No step of the run is a silent wake-up of a better task. */
  ghost predicate NeverSilent(s: Sys, steps: seq<Step>)
    requires ValidRun(s, steps)
    decreases |steps|
  {
    steps == [] || (!SilentWake(s, steps[0]) && NeverSilent(Next(s, steps[0]).s, steps[1..]))
  }

  /** Prompt preemption: over any run on the preemptive port a better READY task always has a switch or a
      yield coming if and only if no re-check and no creation of the run makes one ready silently. */
  lemma {:induction false} PromptIff(s: Sys, steps: seq<Step>)
    requires Inv(s) && Prompt(s) && ValidRun(s, steps) && s.port.Preemptive?
    ensures AlwaysPrompt(s, steps) <==> NeverSilent(s, steps)
    decreases |steps|
  {
    if steps != [] {
      StepPromptIff(s, steps[0]);
      if !SilentWake(s, steps[0]) {
        StepKeepsInv(s, steps[0]);
        StepKeepsPort(s, steps[0]);
        PromptIff(Next(s, steps[0]).s, steps[1..]);
      }
    }
  }

  // ------------------------------------------------------------------ an input that shows it

  /** A task of class 1 runs; the other two slots are free. */
  function Trio(): Sys {
    Sys(Preemptive,
        KState([Tcb(Ready, 1, 0, 0, 0, 0), Tcb(Unused, 0, 0, 0, 0, 0), Tcb(Unused, 0, 0, 0, 0, 0)], [[], []],
               0, 0, 1000, Priority, 5, false),
        Running, [User, User, User], [], [], [])
  }

  lemma TrioInv()
    ensures Inv(Trio()) && Shape(Trio()) && Prompt(Trio())
  {
    var s := Trio();
    assert s.k.rq[0] == [] && s.k.rq[1] == [];
    forall q
      ensures QueueOk(s, q)
    {
      assert Q(s, q) == [];
    }
    assert HomeOf(s, 0) == OnCpu && HomeOf(s, 1) == Nowhere && HomeOf(s, 2) == Nowhere;
    assert TaskOk(s, 0) && TaskOk(s, 1) && TaskOk(s, 2);
    assert Placed(s);
    PlacedShape(s);
  }

  /** It creates a task of class 0: that task is READY and better, and nothing requests a switch. */
  lemma CreatedTaskWaits(a: CreateArgs)
    requires a == CreateArgs(true, true, 64, Some(TaskAttr(0, 0)), 0)
    ensures Inv(Trio()) && Enabled(Trio(), TaskCreate(a))
    ensures var s1 := Next(Trio(), TaskCreate(a)).s;
            s1.k.tcbs[1].state.Ready? && s1.k.tcbs[1].prio == 0 && s1.k.current == 0 && !s1.k.pending && !Prompt(s1)
  {
    var s := Trio();
    TrioInv();
    assert !s.k.tcbs[0].state.Unused? && s.k.tcbs[1].state.Unused?;
    assert LowestUnused(s.k.tcbs, 0) == 1;
    StepPromptIff(s, TaskCreate(a));
  }
}
