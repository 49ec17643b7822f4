/** Time slices of tasks that are switched out and in; on the preemptive port switching does not refresh them. */
module Slices {
  import opened KernelSpec
  import opened KernelSystem
  import opened Placement
  import opened Invariants
  import opened Records
  import opened Timing
  import opened Rotation

  /** Task t is READY in every state of the run. */
  ghost predicate StaysReady(s: Sys, steps: seq<Step>, t: nat)
    requires ValidRun(s, steps)
    decreases |steps|
  {
    t < |s.k.tcbs| && s.k.tcbs[t].state.Ready? && (steps == [] || StaysReady(Next(s, steps[0]).s, steps[1..], t))
  }

  /** This step is a tick that finds task t on the CPU and charges its slice. */
  predicate ChargedAt(s: Sys, st: Step, t: nat) {
    st.Tick? && s.k.current == t && SliceCharged(WakeDue(AdvanceTick(s.k), 0))
  }

  /** The ticks of a run that charge task t, and those at which its slice runs out. */
  ghost function Charges(s: Sys, steps: seq<Step>, t: nat): nat
    requires ValidRun(s, steps)
    decreases |steps|
  {
    if steps == [] then 0
    else (if ChargedAt(s, steps[0], t) then 1 else 0) + Charges(Next(s, steps[0]).s, steps[1..], t)
  }

  ghost function ExpiriesOf(s: Sys, steps: seq<Step>, t: nat): nat
    requires ValidRun(s, steps)
    decreases |steps|
  {
    if steps == [] then 0
    else (if s.k.current == t && ExpiresAt(s, steps[0]) then 1 else 0) + ExpiriesOf(Next(s, steps[0]).s, steps[1..], t)
  }

  lemma HopKeepsCurrent(s: Sys, st: Step)
    requires Shape(s) && Guard(s, st) && !st.Tick?
    ensures Next(s, st).s.ctl.Hopping? ==> Next(s, st).s.k.current == s.k.current
  {
    if st.Continue? {
      ContinueKeepsCurrent(s);
    }
  }

  lemma ContinueKeepsCurrent(s: Sys)
    requires Shape(s) && Guard(s, Continue)
    ensures ContinueNext(s).s.k.current == s.k.current
  {
  }

  lemma TickChargesSlice(s: Sys, handlerPends: bool, t: nat)
    requires Shape(s) && t < |s.k.tcbs| && s.k.tcbs[t].state.Ready?
    ensures var s1, charged := TickNext(s, handlerPends).s, ChargedAt(s, Tick(handlerPends), t);
            && s1.port == s.port && t < |s1.k.tcbs|
            && s1.k.tcbs[t].sliceLeft == s.k.tcbs[t].sliceLeft - (if charged then 1 else 0)
            && (s.k.current == t && ExpiresAt(s, Tick(handlerPends)) <==> charged && s.k.tcbs[t].sliceLeft == 1)
  {
    WakeLoopRecords(AdvanceTick(s.k), 0, t);
    WakeLoopFrame(AdvanceTick(s.k), 0);
  }

  /** Task t starts no hop in the run: it does not yield. */
  ghost predicate NoHopBy(s: Sys, steps: seq<Step>, t: nat)
    requires ValidRun(s, steps)
    decreases |steps|
  {
    steps == [] || (!HopsBy(s, steps[0], t) && NoHopBy(Next(s, steps[0]).s, steps[1..], t))
  }

  ghost predicate HopsBy(s: Sys, st: Step, t: nat)
    requires Shape(s) && Guard(s, st)
  {
    s.ctl.Running? && s.k.current == t && Next(s, st).s.ctl.Hopping?
  }

  /** No step but a tick, and no step but a hop of its own, changes the slice of a task that stays READY: not
      even being switched out and in. */
  lemma OtherStepKeepsSlice(s: Sys, st: Step, t: nat)
    requires Inv(s) && Enabled(s, st) && !st.Tick? && !HopsBy(s, st, t) && t < |s.k.tcbs| && t < |Next(s, st).s.k.tcbs|
    requires s.k.tcbs[t].state.Ready?
    ensures Next(s, st).s.k.tcbs[t].sliceLeft == s.k.tcbs[t].sliceLeft
  {
    UnparkedIsBystander(s, t);
    StepKeepsRecord(s, st, t);
  }

  /** The slice of a task that stays READY and does not yield, over any run on either port, however often it is
      switched out and in: every tick that finds it current with slice left takes one off, and it draws one
      expiry request if such ticks have used it up, and none otherwise. */
  lemma {:induction false} ReadySliceLedger(s: Sys, steps: seq<Step>, t: nat)
    requires Inv(s) && ValidRun(s, steps) && StaysReady(s, steps, t) && NoHopBy(s, steps, t)
    ensures var left, charges := s.k.tcbs[t].sliceLeft, Charges(s, steps, t);
            && t < |Run(s, steps).s.k.tcbs| && Run(s, steps).s.k.tcbs[t].sliceLeft == left - charges
            && ExpiriesOf(s, steps, t) == if 0 < left == charges then 1 else 0
    decreases |steps|
  {
    if steps != [] {
      var st, s1 := steps[0], Next(s, steps[0]).s;
      StepKeepsInv(s, st);
      ReadySliceLedger(s1, steps[1..], t);
      if st.Tick? {
        TickChargesSlice(s, st.handlerPends, t);
      } else {
        OtherStepKeepsSlice(s, st, t);
      }
    }
  }

  /** On the preemptive port a task that stays READY starts no hop. */
  lemma {:induction false} ReadyMeansNoHop(s: Sys, steps: seq<Step>, t: nat)
    requires Inv(s) && ValidRun(s, steps) && s.port.Preemptive? && StaysReady(s, steps, t)
    ensures NoHopBy(s, steps, t)
    decreases |steps|
  {
    if steps != [] {
      StepKeepsPort(s, steps[0]);
      if !steps[0].Tick? {
        HopKeepsCurrent(s, steps[0]);
      }
      StepKeepsInv(s, steps[0]);
      ReadyMeansNoHop(Next(s, steps[0]).s, steps[1..], t);
    }
  }

  /** The preemptive port: no condition but that the task stays READY. */
  lemma SliceLedger(s: Sys, steps: seq<Step>, t: nat)
    requires Inv(s) && ValidRun(s, steps) && s.port.Preemptive? && StaysReady(s, steps, t)
    ensures var left, charges := s.k.tcbs[t].sliceLeft, Charges(s, steps, t);
            && t < |Run(s, steps).s.k.tcbs| && Run(s, steps).s.k.tcbs[t].sliceLeft == left - charges
            && ExpiriesOf(s, steps, t) == if 0 < left == charges then 1 else 0
  {
    ReadyMeansNoHop(s, steps, t);
    ReadySliceLedger(s, steps, t);
  }

  /** So a task whose slice has run out draws no further expiry request while it stays READY. */
  lemma SpentSliceStaysSpent(s: Sys, steps: seq<Step>, t: nat)
    requires Inv(s) && ValidRun(s, steps) && s.port.Preemptive? && StaysReady(s, steps, t) && s.k.tcbs[t].sliceLeft == 0
    ensures t < |Run(s, steps).s.k.tcbs| && Run(s, steps).s.k.tcbs[t].sliceLeft == 0 && ExpiriesOf(s, steps, t) == 0
  {
    SliceLedger(s, steps, t);
  }

  /** A switch requested for any other reason still rotates: whatever its slice, a running task keeps the CPU
      if and only if no task of its class or a better one is queued. */
  lemma SwitchRotatesIff(s: Sys, oldSp: nat)
    requires Inv(s) && Enabled(s, PendSv(oldSp)) && s.ctl.Running?
    ensures Next(s, PendSv(oldSp)).s.k.current == s.k.current <==>
            forall p :: 0 <= p < |s.k.rq| && p <= s.k.tcbs[s.k.current].prio ==> s.k.rq[p] == []
  {
    var c, k1 := s.k.current, SwitchOut(s.k, oldSp);
    var b, p := s.k.tcbs[c].prio, FirstNonEmpty(k1.rq, 0);
    assert TaskOk(s, c) && QueueOk(s, ReadyQ(b)) && c !in Q(s, ReadyQ(b));
    Room(s, ReadyQ(b), c);
    assert k1.rq == s.k.rq[b := s.k.rq[b] + [c]] && k1.rq[b] != [] && p <= b;
    assert forall q :: 0 <= q < p ==> s.k.rq[q] == k1.rq[q] == [];
    if p < b {
      assert k1.rq[p] == s.k.rq[p] && s.k.rq[p][0] in Q(s, ReadyQ(p)) && QueueOk(s, ReadyQ(p));
    } else if s.k.rq[b] != [] {
      assert k1.rq[b][0] == s.k.rq[b][0] && s.k.rq[b][0] in s.k.rq[b];
    } else {
      assert k1.rq[b] == [c];
    }
  }

  // ------------------------------------------------------------------ an input that shows it

  /** Two tasks of one class with slices of one tick, a and b of them left; task cur runs, the other is queued. */
  function Pair(a: uint16, b: uint16, cur: nat, tick: uint32, pending: bool): Sys
    requires cur < 2
  {
    Sys(Preemptive, PairKernel(a, b, cur, tick, pending), Running, [User, User, User], [], [], [])
  }

  function PairKernel(a: uint16, b: uint16, cur: nat, tick: uint32, pending: bool): KState
    requires cur < 2
  {
    KState([Tcb(Ready, 0, 1, a, 0, 7), Tcb(Ready, 0, 1, b, 0, 7), Tcb(Unused, 0, 0, 0, 0, 0)], [[1 - cur]],
           cur, tick, 1000, PriorityRoundRobin, 5, pending)
  }

  lemma PairInv(a: uint16, b: uint16, cur: nat, tick: uint32, pending: bool)
    requires cur < 2 && a <= 1 && b <= 1
    ensures Inv(Pair(a, b, cur, tick, pending)) && Shape(Pair(a, b, cur, tick, pending))
  {
    var s := Pair(a, b, cur, tick, pending);
    forall q
      ensures Q(s, q) == if q == ReadyQ(0) then [1 - cur] else []
    {
      match q
      case ReadyQ(p) =>
      case WaitQ(w) =>
    }
    assert HomeOf(s, cur) == OnCpu && HomeOf(s, 1 - cur) == In(ReadyQ(0)) && HomeOf(s, 2) == Nowhere;
    forall q
      ensures QueueOk(s, q)
    {
    }
    assert TaskOk(s, 0) && TaskOk(s, 1) && TaskOk(s, 2);
    assert Placed(s);
    PlacedShape(s);
  }

  lemma PairKernelTick(a: uint16, b: uint16, cur: nat, tick: uint32)
    requires cur < 2 && a <= 1 && b <= 1
    ensures TickIsr(PairKernel(a, b, cur, tick, false))
            == PairKernel(if cur == 0 then 0 else a, if cur == 1 then 0 else b, cur, (tick + 1) % TWO32,
                          (if cur == 0 then a else b) == 1)
  {
    var k1 := AdvanceTick(PairKernel(a, b, cur, tick, false));
    assert forall j :: 0 <= j < |k1.tcbs| ==> !IsDue(k1.tcbs[j], k1.tick);
    NobodyDue(k1, 0);
    assert ChargeSlice(k1).tcbs == PairKernel(if cur == 0 then 0 else a, if cur == 1 then 0 else b, cur, 0, false).tcbs;
  }

  /** A tick takes one off the running task's slice, if any is left, and requests a switch at the last one. */
  lemma PairTick(a: uint16, b: uint16, cur: nat, tick: uint32)
    requires cur < 2 && a <= 1 && b <= 1
    ensures Enabled(Pair(a, b, cur, tick, false), Tick(false))
    ensures Next(Pair(a, b, cur, tick, false), Tick(false)).s
            == Pair(if cur == 0 then 0 else a, if cur == 1 then 0 else b, cur, (tick + 1) % TWO32,
                    (if cur == 0 then a else b) == 1)
  {
    PairInv(a, b, cur, tick, false);
    PairKernelTick(a, b, cur, tick);
  }

  /** A switch hands the CPU over and leaves both slices as they are. */
  lemma PairSwitch(a: uint16, b: uint16, cur: nat, tick: uint32)
    requires cur < 2 && a <= 1 && b <= 1
    ensures Enabled(Pair(a, b, cur, tick, true), PendSv(7))
    ensures Next(Pair(a, b, cur, tick, true), PendSv(7)).s == Pair(a, b, 1 - cur, tick, false)
  {
    var s := Pair(a, b, cur, tick, true);
    PairInv(a, b, cur, tick, true);
    var k1 := SwitchOut(s.k, 7);
    assert [1 - cur] + [cur] == [1 - cur, cur];
    assert s.k.rq[0] == [1 - cur] && k1.tcbs == s.k.tcbs && k1.rq == [[1 - cur, cur]];
    assert FirstNonEmpty(k1.rq, 0) == 0 && [1 - cur, cur][1..] == [cur];
    assert PickNextReady(k1).0.rq == [[cur]] && PickNextReady(k1).1 == 1 - cur;
  }

  /** The run of these steps from s is possible and leads to s1. */
  ghost predicate Leads(s: Sys, steps: seq<Step>, s1: Sys) {
    ValidRun(s, steps) && Run(s, steps).s == s1
  }

  lemma LeadsFirst(s: Sys, st: Step, s1: Sys, rest: seq<Step>, s2: Sys)
    requires Enabled(s, st) && Next(s, st).s == s1 && Leads(s1, rest, s2)
    ensures Leads(s, [st] + rest, s2)
  {
    RunCons(s, st, rest, s1);
  }

  /** A task with slice left hands over at the next tick. */
  lemma PairTurn(a: uint16, b: uint16, cur: nat, tick: uint32, rest: seq<Step>, end: Sys)
    requires cur < 2 && a <= 1 && b <= 1 && (if cur == 0 then a else b) == 1
    requires Leads(Pair(if cur == 0 then 0 else a, if cur == 1 then 0 else b, 1 - cur, (tick + 1) % TWO32, false), rest, end)
    ensures Leads(Pair(a, b, cur, tick, false), [Tick(false)] + ([PendSv(7)] + rest), end)
  {
    var a1, b1, t1 := if cur == 0 then 0 else a, if cur == 1 then 0 else b, (tick + 1) % TWO32;
    PairTick(a, b, cur, tick);
    PairSwitch(a1, b1, cur, t1);
    LeadsFirst(Pair(a1, b1, cur, t1, true), PendSv(7), Pair(a1, b1, 1 - cur, t1, false), rest, end);
    LeadsFirst(Pair(a, b, cur, tick, false), Tick(false), Pair(a1, b1, cur, t1, true), [PendSv(7)] + rest, end);
  }

  /** No number of ticks makes a spent pair hand over: one task keeps the CPU, the other waits READY. */
  lemma {:induction false} SpentPairIsStuck(cur: nat, tick: uint32, n: nat) returns (ticks: seq<Step>)
    requires cur < 2
    ensures ticks == seq(n, i => Tick(false))
    ensures Leads(Pair(0, 0, cur, tick, false), ticks, Pair(0, 0, cur, Later(tick, n), false))
    decreases n
  {
    ticks := [];
    if n > 0 {
      var t1 := (tick + 1) % TWO32;
      PairTick(0, 0, cur, tick);
      var rest := SpentPairIsStuck(cur, t1, n - 1);
      LeadsFirst(Pair(0, 0, cur, tick, false), Tick(false), Pair(0, 0, cur, t1, false), rest,
                 Pair(0, 0, cur, Later(t1, n - 1), false));
      ticks := [Tick(false)] + rest;
    }
  }

  /** Both slices full: each task hands over once, at the end of its slice, and then no number n of further
      ticks brings another handoff. */
  lemma TwoHandoffsOnly(tick: uint32, n: nat) returns (ticks: seq<Step>)
    ensures ticks == seq(n, i => Tick(false))
    ensures Leads(Pair(1, 1, 0, tick, false), [Tick(false)] + ([PendSv(7)] + ([Tick(false)] + ([PendSv(7)] + ticks))),
                  Pair(0, 0, 0, Later(tick, n + 2), false))
  {
    var t1 := (tick + 1) % TWO32;
    var t2 := (t1 + 1) % TWO32;
    assert Later(tick, n + 2) == Later(t1, n + 1) == Later(t2, n);
    ticks := SpentPairIsStuck(0, t2, n);
    PairTurn(0, 1, 1, t1, ticks, Pair(0, 0, 0, Later(t2, n), false));
    PairTurn(1, 1, 0, tick, [Tick(false)] + ([PendSv(7)] + ticks), Pair(0, 0, 0, Later(t2, n), false));
  }
}
