/** What each call must do: when it succeeds, what it then changes, and what it leaves as it was. */
module Calls {
  import opened KernelSpec
  import opened PrimitivesSpec
  import opened KernelSystem
  import opened Placement
  import opened WakeUps
  import opened Invariants
  import opened Records
  import opened Timing
  import opened Rotation
  import opened Frames
  import opened Slices

  /** Where a woken task goes on: a taker and a locker return from their call, a sender and a receiver retry. */
  lemma WokenGoesOn(s: Sys, w: WaitId)
    requires Placed(s) && Shape(s)
    ensures var q := Q(s, WaitQ(w));
            q != [] ==>
              && q[0] < |s.pcs|
              && (w.SemWaiters? || w.MutexWaiters? ==> WakePcs(s, w) == s.pcs[q[0] := User])
              && (w.Receivers? ==> WakePcs(s, w) == s.pcs[q[0] := RecvTry(w.i, true)])
              && (w.Senders? ==> exists item :: s.pcs[q[0]] == SendParked(w.i, item)
                                                && WakePcs(s, w) == s.pcs[q[0] := SendTry(w.i, item, true)])
  {
    if Q(s, WaitQ(w)) != [] {
      HeadIsParked(s, w);
    }
  }

  // ------------------------------------------------------------------ mutex

  /** try_lock and the fast path of lock acquire the mutex if and only if it is free, and a failure changes no
      mutex. */
  lemma LockCallIff(s: Sys, st: Step, i: nat)
    requires Shape(s) && Guard(s, st) && (st == MutexTryLockCall(i) || st == MutexLockCall(i))
    ensures var o, m := Next(s, st), s.mutexes[i];
            && (o.evs == [MutexGained(i, s.k.current)] <==> !m.locked) && (o.evs == [] <==> m.locked)
            && (!m.locked ==> o.s == s.(mutexes := s.mutexes[i := Mutex(true, s.k.current, m.waiters)]))
            && (m.locked ==> o.s == if st.MutexTryLockCall? then s else s.(pcs := s.pcs[s.k.current := MutexRecheck(i)]))
  {
    assert s.mutexes[i := s.mutexes[i]] == s.mutexes;
  }

  /** The re-check of lock acquires a free mutex, refuses its owner, and parks everybody else. */
  lemma LockRecheckIff(s: Sys, i: nat)
    requires Inv(s) && Shape(s) && Guard(s, Continue) && s.pcs[s.k.current] == MutexRecheck(i)
    ensures var o, m, c := ContinueNext(s), s.mutexes[i], s.k.current;
            && (o.evs == [MutexGained(i, c)] <==> !m.locked)
            && (!m.locked ==> o.s.mutexes == s.mutexes[i := Mutex(true, c, m.waiters)] && o.s.pcs[c] == User && o.s.k == s.k)
            && (m.locked && m.owner == c ==> o.s == s.(pcs := s.pcs[c := User]))
            && (m.locked && m.owner != c ==>
                  o.s.ctl.Hopping? && o.s.pcs[c] == MutexParked(i) && o.s.mutexes[i] == Mutex(true, m.owner, m.waiters + [c]))
  {
    var c := s.k.current;
    assert TaskOk(s, c) && HomeOf(s, c) == OnCpu;
    assert c !in Q(s, WaitQ(MutexWaiters(i))) by { assert QueueOk(s, WaitQ(MutexWaiters(i))); }
    Room(s, WaitQ(MutexWaiters(i)), c);
  }

  /** Unlock succeeds if and only if the caller owns the mutex. Then the mutex is free if nobody waited, else
      owned by the first waiter, who is READY; otherwise nothing changes. */
  lemma UnlockIff(s: Sys, i: nat)
    requires Inv(s) && Shape(s) && Guard(s, MutexUnlockCall(i))
    ensures var o, m, c := Next(s, MutexUnlockCall(i)), s.mutexes[i], s.k.current;
            && (MutexDropped(i, c) in o.evs <==> m.locked && m.owner == c)
            && (!(m.locked && m.owner == c) ==> o == Out(s, []))
            && (m.locked && m.owner == c && m.waiters == [] ==>
                  o.s == s.(mutexes := s.mutexes[i := Mutex(false, NO_OWNER, [])]))
            && (m.locked && m.owner == c && m.waiters != [] ==>
                  && o.s.mutexes == s.mutexes[i := Mutex(true, m.waiters[0], m.waiters[1..])]
                  && m.waiters[0] < |o.s.k.tcbs| == |s.pcs| && o.s.pcs == s.pcs[m.waiters[0] := User][c := MustYield]
                  && o.s.k.tcbs[m.waiters[0]].state.Ready?)
  {
    var m, c, o := s.mutexes[i], s.k.current, Next(s, MutexUnlockCall(i));
    HeadIsATask(s, MutexWaiters(i));
    WokenGoesOn(s, MutexWaiters(i));
    if m.locked && m.owner == c {
      assert o.evs[0] == MutexDropped(i, c);
    }
  }

  // ------------------------------------------------------------------ semaphore

  /** try_take and the fast path of take get a token if and only if one is stored. */
  lemma TakeCallIff(s: Sys, st: Step, i: nat)
    requires Shape(s) && Guard(s, st) && (st == SemTryTakeCall(i) || st == SemTakeCall(i))
    ensures var o, m := Next(s, st), s.sems[i];
            && (o.evs == [SemTaken(i)] <==> m.count > 0) && (o.evs == [] <==> m.count == 0)
            && (m.count > 0 ==> o.s == s.(sems := s.sems[i := Sem(m.count - 1, m.max, m.waiters)]))
            && (m.count == 0 ==> o.s == if st.SemTryTakeCall? then s else s.(pcs := s.pcs[s.k.current := SemRecheck(i)]))
  {
    assert s.sems[i := s.sems[i]] == s.sems;
  }

  /** The re-check of take gets a token if one is stored, and parks otherwise. */
  lemma TakeRecheckIff(s: Sys, i: nat)
    requires Inv(s) && Shape(s) && Guard(s, Continue) && s.pcs[s.k.current] == SemRecheck(i)
    ensures var o, m, c := ContinueNext(s), s.sems[i], s.k.current;
            && (o.evs == [SemTaken(i)] <==> m.count > 0)
            && (m.count > 0 ==> o.s.sems == s.sems[i := Sem(m.count - 1, m.max, m.waiters)] && o.s.pcs[c] == User && o.s.k == s.k)
            && (m.count == 0 ==>
                  o.s.ctl.Hopping? && o.s.pcs[c] == SemParked(i) && o.s.sems[i] == Sem(0, m.max, m.waiters + [c]))
  {
    var c := s.k.current;
    assert TaskOk(s, c) && HomeOf(s, c) == OnCpu;
    assert c !in Q(s, WaitQ(SemWaiters(i))) by { assert QueueOk(s, WaitQ(SemWaiters(i))); }
    Room(s, WaitQ(SemWaiters(i)), c);
  }

  /** A give is lost if and only if nobody waits and the store is full; otherwise it adds one token, or hands it
      to the first waiter, who is READY, and leaves the store alone. */
  lemma GiveIff(s: Sys, i: nat)
    requires Inv(s) && Shape(s) && i < |s.sems|
    ensures var o, m := SemGiveCs(s, i), s.sems[i];
            && (SemLost(i) in o.evs <==> m.waiters == [] && m.count == m.max)
            && o.s.sems == s.sems[i := if m.waiters != [] then Sem(m.count, m.max, m.waiters[1..])
                                       else if m.count == m.max then m else Sem(m.count + 1, m.max, [])]
            && (m.waiters != [] ==> m.waiters[0] < |o.s.k.tcbs| == |s.pcs| && o.s.k.tcbs[m.waiters[0]].state.Ready?
                                    && o.s.pcs == s.pcs[m.waiters[0] := User])
            && (m.waiters == [] ==> o.s.k == s.k && o.s.pcs == s.pcs)
  {
    HeadIsATask(s, SemWaiters(i));
    WokenGoesOn(s, SemWaiters(i));
    assert s.sems[i].count <= s.sems[i].max;
    var m, evs := s.sems[i], SemGiveCs(s, i).evs;
    if m.waiters == [] && m.count >= m.max {
      assert evs[|evs| - 1] == SemLost(i);
    }
  }

  // ------------------------------------------------------------------ message queue

  /** The item is appended, the first receiver leaves its queue READY, and nothing else changes in any queue. */
  ghost predicate Sent(s: Sys, s1: Sys, i: nat, item: Item)
    requires i < |s.queues|
  {
    var q := s.queues[i];
    && s1.queues == s.queues[i := MsgQ(q.capacity, q.items + [item], Rest(q.receivers), q.senders)]
    && (q.receivers != [] ==> q.receivers[0] < |s1.k.tcbs| && s1.k.tcbs[q.receivers[0]].state.Ready?)
    && (q.receivers == [] ==> s1.k == s.k && s1.pcs == s.pcs)
    && (q.receivers != [] ==> q.receivers[0] < |s.pcs| && s1.pcs == WakePcs(s, Receivers(i)))
  }

  ghost predicate Received(s: Sys, s1: Sys, i: nat)
    requires i < |s.queues| && s.queues[i].items != []
  {
    var q := s.queues[i];
    && s1.queues == s.queues[i := MsgQ(q.capacity, q.items[1..], q.receivers, Rest(q.senders))]
    && (q.senders != [] ==> q.senders[0] < |s1.k.tcbs| && s1.k.tcbs[q.senders[0]].state.Ready?)
    && (q.senders == [] ==> s1.k == s.k && s1.pcs == s.pcs)
    && (q.senders != [] ==> q.senders[0] < |s.pcs| && s1.pcs == WakePcs(s, Senders(i)))
  }

  lemma AfterSendIsSent(s: Sys, i: nat, item: Item)
    requires Shape(s) && i < |s.queues|
    ensures Sent(s, AfterSend(s, i, item), i, item)
  {
    HeadIsATask(s, Receivers(i));
  }

  lemma AfterRecvIsReceived(s: Sys, i: nat)
    requires Shape(s) && i < |s.queues| && s.queues[i].items != []
    ensures Received(s, AfterRecv(s, i), i)
  {
    HeadIsATask(s, Senders(i));
  }

  /** try_send, its interrupt form and the fast path of send enqueue if and only if there is room. The caller
      then yields, and the interrupt form requests a switch, if and only if a receiver was woken. A failure
      changes nothing but, for send, the caller's place in its call. */
  lemma SendIff(s: Sys, st: Step)
    requires Shape(s) && Guard(s, st) && (st.TrySendCall? || st.SendCall? || st.SendIsr?)
    ensures var o, q, c := Next(s, st), s.queues[st.i], s.k.current;
            && ((exists who :: Enqueued(st.i, st.item, who) in o.evs) <==> |q.items| < q.capacity)
            && (|q.items| >= q.capacity && !st.SendCall? ==> o.s == s)
            && (|q.items| >= q.capacity && st.SendCall? ==> o.s == s.(pcs := s.pcs[c := SendRecheck(st.i, st.item, false)]))
            && (|q.items| < q.capacity ==> o.s == (if st.SendIsr? then Pend(AfterSend(s, st.i, st.item), q.receivers != [])
                                      else At(AfterSend(s, st.i, st.item), if q.receivers != [] then MustYield else User)))
  {
    var o := Next(s, st);
    HeadIsATask(s, Receivers(st.i));
    if !s.queues[st.i].Full() {
      var who := if st.SendIsr? then Isr else if st.SendCall? then Blocking(s.k.current) else Trying(s.k.current);
      assert o.evs[if st.SendCall? then 1 else 0] == Enqueued(st.i, st.item, who);
    }
  }

  /** Likewise try_recv, its interrupt form and the fast path of recv, if and only if an item is stored. */
  lemma RecvIff(s: Sys, st: Step)
    requires Shape(s) && Guard(s, st) && (st.TryRecvCall? || st.RecvCall? || st.RecvIsr?)
    ensures var o, q, c := Next(s, st), s.queues[st.i], s.k.current;
            && (q.items != [] ==> exists who :: Dequeued(st.i, q.items[0], who) in o.evs)
            && (q.items == [] && !st.RecvCall? ==> o.s == s)
            && (q.items == [] && st.RecvCall? ==> o.s == s.(pcs := s.pcs[c := RecvRecheck(st.i, false)]))
            && (q.items != [] ==> o.s == (if st.RecvIsr? then Pend(AfterRecv(s, st.i), q.senders != [])
                                          else At(AfterRecv(s, st.i), if q.senders != [] then MustYield else User)))
  {
    var o := Next(s, st);
    HeadIsATask(s, Senders(st.i));
    if s.queues[st.i].items != [] {
      var who := if st.RecvIsr? then Isr else if st.RecvCall? then Blocking(s.k.current) else Trying(s.k.current);
      assert o.evs[if st.RecvCall? then 1 else 0] == Dequeued(st.i, s.queues[st.i].items[0], who);
    }
  }

  /** A later turn of a blocking send: its first attempt is like the fast path; its re-check sends if there is
      room, without a yield, and parks the caller otherwise. */
  lemma SendAgainIff(s: Sys, i: nat, item: Item)
    requires Inv(s) && Shape(s) && Guard(s, Continue)
    requires var pc := s.pcs[s.k.current]; (pc.SendTry? || pc.SendRecheck?) && pc.i == i && pc.item == item
    ensures var o, q, c, pc := ContinueNext(s), s.queues[i], s.k.current, s.pcs[s.k.current];
            && (|q.items| < q.capacity ==>
                  && o.evs == SendEvents(s, i, item, Blocking(c))
                  && o.s == At(AfterSend(s, i, item), if pc.SendTry? && q.receivers != [] then MustYield else User))
            && (|q.items| >= q.capacity && pc.SendTry? ==> o.s == s.(pcs := s.pcs[c := SendRecheck(i, item, pc.woken)]))
            && (|q.items| >= q.capacity && pc.SendRecheck? ==>
                  && o.s.ctl.Hopping? && o.s.pcs == s.pcs[c := SendParked(i, item)]
                  && o.s.queues == s.queues[i := q.(senders := q.senders + [c])])
  {
    var c := s.k.current;
    assert TaskOk(s, c) && HomeOf(s, c) == OnCpu;
    assert c !in Q(s, WaitQ(Senders(i))) by { assert QueueOk(s, WaitQ(Senders(i))); }
    Room(s, WaitQ(Senders(i)), c);
  }

  lemma RecvAgainIff(s: Sys, i: nat)
    requires Inv(s) && Shape(s) && Guard(s, Continue)
    requires var pc := s.pcs[s.k.current]; (pc.RecvTry? || pc.RecvRecheck?) && pc.i == i
    ensures var o, q, c, pc := ContinueNext(s), s.queues[i], s.k.current, s.pcs[s.k.current];
            && (q.items != [] ==>
                  && o.evs == RecvEvents(s, i, Blocking(c))
                  && o.s == At(AfterRecv(s, i), if pc.RecvTry? && q.senders != [] then MustYield else User))
            && (q.items == [] && pc.RecvTry? ==> o.s == s.(pcs := s.pcs[c := RecvRecheck(i, pc.woken)]))
            && (q.items == [] && pc.RecvRecheck? ==>
                  && o.s.ctl.Hopping? && o.s.pcs == s.pcs[c := RecvParked(i)]
                  && o.s.queues == s.queues[i := q.(receivers := q.receivers + [c])])
  {
    var c := s.k.current;
    assert TaskOk(s, c) && HomeOf(s, c) == OnCpu;
    assert c !in Q(s, WaitQ(Receivers(i))) by { assert QueueOk(s, WaitQ(Receivers(i))); }
    Room(s, WaitQ(Receivers(i)), c);
  }

  // ------------------------------------------------------------------ leaving the CPU

  /** hrt_sleep changes state and deadline of the caller, requests a switch, and nothing else. */
  lemma SleepChangesTwoFields(s: Sys, ms: uint32)
    requires Shape(s) && Guard(s, TaskSleep(ms))
    ensures var c := s.k.current; var s1, r := Next(s, TaskSleep(ms)).s, s.k.tcbs[c];
            && s1 == s.(k := s1.k, ctl := Hopping) && s1.k == s.k.(tcbs := s1.k.tcbs, pending := true)
            && s1.k.tcbs == s.k.tcbs[c := Tcb(TaskState.Sleep, r.prio, r.sliceCfg, r.sliceLeft,
                                             (s.k.tick + MsToTicks(ms, s.k.tickHz)) % TWO32, r.sp)]
  {
  }

  /** Parking changes the state of the caller, requests a switch, and nothing else in the kernel. */
  lemma ParkChangesOneField(s: Sys)
    requires Shape(s) && Guard(s, Continue) && ContinueNext(s).s.ctl.Hopping? && !s.pcs[s.k.current].MustYield?
    ensures var c := s.k.current; var s1, r := ContinueNext(s).s, s.k.tcbs[c];
            s1.k == s.k.(pending := true, tcbs := s.k.tcbs[c := Tcb(Blocked, r.prio, r.sliceCfg, r.sliceLeft, r.wakeTick, r.sp)])
  {
  }

  /** A yield refreshes the caller's slice to the configured one, queues it at the tail of its class, requests
      a switch, and nothing else. */
  lemma YieldRefreshes(s: Sys, st: Step)
    requires Inv(s) && Shape(s) && Guard(s, st)
    requires st.TaskYield? || (st.Continue? && s.pcs[s.k.current].MustYield?)
    ensures var c := s.k.current; var s1, r := Next(s, st).s, s.k.tcbs[c];
            && s1 == s.(k := s1.k, ctl := Hopping, pcs := s.pcs[c := User]) && r.prio < |s.k.rq|
            && s1.k == s.k.(pending := true, rq := s.k.rq[r.prio := s.k.rq[r.prio] + [c]],
                            tcbs := s.k.tcbs[c := Tcb(Ready, r.prio, r.sliceCfg, r.sliceCfg, r.wakeTick, r.sp)])
  {
    var c := s.k.current;
    assert TaskOk(s, c) && HomeOf(s, c) == OnCpu;
    var q := ReadyQ(s.k.tcbs[c].prio);
    assert c !in Q(s, q) by { assert QueueOk(s, q); }
    Room(s, q, c);
  }

  /** A yield restores the whole quantum. Over any run that follows, until the task blocks or yields again, it
      draws its expiry request at exactly the tick of its configured count that finds it current. */
  lemma FullQuantumAfterYield(s: Sys, st: Step, steps: seq<Step>)
    requires Inv(s) && Enabled(s, st) && (st.TaskYield? || (st.Continue? && s.pcs[s.k.current].MustYield?))
    requires ValidRun(Next(s, st).s, steps)
    requires StaysReady(Next(s, st).s, steps, s.k.current) && NoHopBy(Next(s, st).s, steps, s.k.current)
    ensures var c, s1 := s.k.current, Next(s, st).s;
            var cfg, charges := s.k.tcbs[c].sliceCfg, Charges(s1, steps, c);
            && c < |Run(s1, steps).s.k.tcbs| && Run(s1, steps).s.k.tcbs[c].sliceLeft == cfg - charges
            && ExpiriesOf(s1, steps, c) == if 0 < cfg == charges then 1 else 0
  {
    YieldRefreshes(s, st);
    StepKeepsInv(s, st);
    ReadySliceLedger(Next(s, st).s, steps, s.k.current);
  }

  lemma {:induction false} NoTickNoCharge(s: Sys, steps: seq<Step>, t: nat)
    requires ValidRun(s, steps) && Ticks(steps) == 0
    ensures Charges(s, steps, t) == 0
    decreases |steps|
  {
    if steps != [] {
      NoTickNoCharge(Next(s, steps[0]).s, steps[1..], t);
    }
  }

  /** In particular, a task that yields, is dispatched again before any tick, and then keeps the CPU draws its
      expiry request at exactly its sliceCfg-th tick. */
  lemma ExpiryAfterYield(s: Sys, st: Step, wait: seq<Step>, steps: seq<Step>)
    requires Inv(s) && Enabled(s, st) && (st.TaskYield? || (st.Continue? && s.pcs[s.k.current].MustYield?))
    requires ValidRun(Next(s, st).s, wait) && Ticks(wait) == 0
    requires StaysReady(Next(s, st).s, wait, s.k.current) && NoHopBy(Next(s, st).s, wait, s.k.current)
    requires var s2 := Run(Next(s, st).s, wait).s; ValidRun(s2, steps) && StaysOn(s2, steps, s.k.current)
    ensures var s2, cfg, n := Run(Next(s, st).s, wait).s, s.k.tcbs[s.k.current].sliceCfg, Ticks(steps);
            Expiries(s2, steps) == if 0 < cfg <= n then 1 else 0
  {
    var s1 := Next(s, st).s;
    StepKeepsInv(s, st);
    FullQuantumAfterYield(s, st, wait);
    NoTickNoCharge(s1, wait, s.k.current);
    RunKeepsInv(s1, wait);
    SliceExpiresOnce(Run(s1, wait).s, steps, s.k.current);
  }

  /** hrt_task_delete frees the caller's slot, keeps the rest of its record, and requests a switch. */
  lemma DeleteFreesSlot(s: Sys)
    requires Inv(s) && Shape(s) && Guard(s, TaskDelete)
    ensures var c := s.k.current; var s1, r := Next(s, TaskDelete).s, s.k.tcbs[c];
            && s1 == s.(k := s1.k, ctl := Hopping)
            && s1.k == s.k.(pending := true, tcbs := s.k.tcbs[c := Tcb(Unused, r.prio, r.sliceCfg, r.sliceLeft, r.wakeTick, r.sp)])
  {
    assert TaskOk(s, s.k.current);
  }

  lemma FreeSlotStep(s: Sys, st: Step, t: nat)
    requires Inv(s) && Enabled(s, st) && t < |s.k.tcbs| && s.k.tcbs[t].state.Unused? && !TakesSlot(s, st, t)
    ensures t < |Next(s, st).s.k.tcbs| && Next(s, st).s.k.tcbs[t].state.Unused?
  {
    if st.Tick? {
      WakeLoopRecords(AdvanceTick(s.k), 0, t);
      WakeLoopFrame(AdvanceTick(s.k), 0);
    } else if st.TaskCreate? && LowestUnused(s.k.tcbs, 0) == t {
      assert !st.args.Acceptable();
    } else {
      UnparkedIsBystander(s, t);
      StepKeepsRecord(s, st, t);
    }
  }

  /** Over any run in which no creation takes it, a free slot stays free: in no queue, never on the CPU. So a
      deleted task does not come back. */
  lemma {:induction false} FreeSlotStaysFree(s: Sys, steps: seq<Step>, t: nat)
    requires Inv(s) && ValidRun(s, steps) && t < |s.k.tcbs| && s.k.tcbs[t].state.Unused? && NeverTaken(s, steps, t)
    ensures var s1 := Run(s, steps).s;
            && t < |s1.k.tcbs| && s1.k.tcbs[t].state.Unused? && !(s1.ctl.Running? && s1.k.current == t)
            && forall q :: t !in Q(s1, q)
    decreases |steps|
  {
    if steps == [] {
      forall q
        ensures t !in Q(s, q)
      {
        assert QueueOk(s, q);
      }
    } else {
      FreeSlotStep(s, steps[0], t);
      StepKeepsInv(s, steps[0]);
      FreeSlotStaysFree(Next(s, steps[0]).s, steps[1..], t);
    }
  }

  /** While slot t is free, the next acceptable creation succeeds and gets an id of at most t. */
  lemma FreeSlotIsReused(k: KState, a: CreateArgs, t: nat)
    requires t < |k.tcbs| && k.tcbs[t].state.Unused? && a.hasEntry && a.hasStack && a.words >= 64
    ensures 0 <= CreateTask(k, a).1 <= t && k.tcbs[CreateTask(k, a).1].state.Unused?
  {
  }

  /** A creation is refused if and only if the entry or the stack is missing, the stack has fewer than 64 words,
      or no slot is free; a refusal changes nothing. */
  lemma CreateRefusedIff(k: KState, a: CreateArgs)
    ensures CreateTask(k, a).1 == -1 <==>
            !a.hasEntry || !a.hasStack || a.words < 64 || forall t :: 0 <= t < |k.tcbs| ==> !k.tcbs[t].state.Unused?
    ensures CreateTask(k, a).1 == -1 ==> CreateTask(k, a).0 == k
  {
  }
}
