/** What a doubled entry does to a lock: the pick does not look at the state of the task it pops, so a task that
    has since parked is run, and its lock call returns as if it had been handed the mutex. */
module Doubled {
  import opened KernelSpec
  import opened PrimitivesSpec
  import opened KernelSystem
  import opened Placement
  import opened Invariants

  /** These steps, each possible in its state, lead from s to s1; none is ruled out. */
  ghost predicate Possible(s: Sys, steps: seq<Step>, s1: Sys)
    decreases |steps|
  {
    if steps == [] then s == s1
    else Shape(s) && Guard(s, steps[0]) && Possible(Next(s, steps[0]).s, steps[1..], s1)
  }

  lemma PossibleFirst(s: Sys, st: Step, s1: Sys, rest: seq<Step>, s2: Sys)
    requires Shape(s) && Guard(s, st) && Next(s, st).s == s1 && Possible(s1, rest, s2)
    ensures Possible(s, [st] + rest, s2)
  {
    assert ([st] + rest)[1..] == rest;
  }

  /** Task 0, with a slice of one tick, is current; task 1 sleeps and owns the mutex. */
  function Kernel0(state: TaskState, left: uint16, rq: seq<nat>, tick: uint32, pending: bool): KState {
    KState([Tcb(state, 0, 1, left, 0, 0), Tcb(Sleep, 0, 1, 1, 1000, 0), Tcb(Unused, 0, 0, 0, 0, 0)], [rq],
           0, tick, 1000, RoundRobin, 5, pending)
  }

  function Case(k: KState, ctl: Control, pc: Pc, waiters: seq<nat>): Sys {
    Sys(Cooperative, k, ctl, [pc, User, User], [], [Mutex(true, 1, waiters)], [])
  }

  lemma CaseShape(state: TaskState, left: uint16, rq: seq<nat>, tick: uint32, pending: bool, ctl: Control, pc: Pc,
                  waiters: seq<nat>)
    requires forall t :: t in rq || t in waiters ==> t == 0
    ensures Shape(Case(Kernel0(state, left, rq, tick, pending), ctl, pc, waiters))
  {
    var s := Case(Kernel0(state, left, rq, tick, pending), ctl, pc, waiters);
    forall q
      ensures Q(s, q) == rq || Q(s, q) == waiters || Q(s, q) == []
    {
      match q
      case ReadyQ(p) =>
      case WaitQ(w) =>
    }
  }

  lemma CaseInv()
    ensures Inv(Case(Kernel0(Ready, 1, [], 0, false), Running, User, []))
  {
    var s := Case(Kernel0(Ready, 1, [], 0, false), Running, User, []);
    forall q
      ensures Q(s, q) == []
    {
      match q
      case ReadyQ(p) =>
      case WaitQ(w) =>
    }
    assert HomeOf(s, 0) == OnCpu && HomeOf(s, 1) == Nowhere && HomeOf(s, 2) == Nowhere;
    assert forall q :: QueueOk(s, q);
    assert TaskOk(s, 0) && TaskOk(s, 1) && TaskOk(s, 2);
    assert s.k.rq[0] == [];
    assert MutexOk(s.mutexes[0], 3);
  }

  lemma KernelSteps()
    ensures YieldCurrent(Kernel0(Ready, 1, [], 0, false)) == Kernel0(Ready, 1, [0], 0, true)
    ensures TickIsr(Kernel0(Ready, 1, [0], 0, true)) == Kernel0(Ready, 0, [0], 1, true)
    ensures OnSchedulerEntry(Kernel0(Ready, 0, [0], 1, true)) == Kernel0(Ready, 1, [0, 0], 1, true)
  {
    var k0, k1, k2 := Kernel0(Ready, 1, [], 0, false), Kernel0(Ready, 1, [0], 0, true), Kernel0(Ready, 0, [0], 1, true);
    assert k0.rq[0] == [] && [] + [0] == [0];
    assert YieldCurrent(k0).tcbs == k1.tcbs && YieldCurrent(k0).rq == k1.rq;
    var k := AdvanceTick(k1);
    assert forall j :: 0 <= j < |k.tcbs| ==> !IsDue(k.tcbs[j], k.tick);
    NobodyDue(k, 0);
    assert TickIsr(k1).tcbs == k2.tcbs;
    assert k2.rq[0] == [0] && [0] + [0] == [0, 0];
    assert OnSchedulerEntry(k2).tcbs == Kernel0(Ready, 1, [], 1, true).tcbs && OnSchedulerEntry(k2).rq == [[0, 0]];
  }

  /** Yield, a tick in the window, the entry: task 0 is queued twice. */
  lemma QueuedTwice(rest: seq<Step>, end: Sys)
    requires Possible(Case(Kernel0(Ready, 1, [0, 0], 1, true), LoopHead, User, []), rest, end)
    ensures Possible(Case(Kernel0(Ready, 1, [], 0, false), Running, User, []),
                     [TaskYield] + ([Tick(true)] + ([SchedEntry] + rest)), end)
  {
    KernelSteps();
    CaseShape(Ready, 1, [], 0, false, Running, User, []);
    CaseShape(Ready, 1, [0], 0, true, Hopping, User, []);
    CaseShape(Ready, 0, [0], 1, true, Hopping, User, []);
    var s0 := Case(Kernel0(Ready, 1, [], 0, false), Running, User, []);
    var s1 := Case(Kernel0(Ready, 1, [0], 0, true), Hopping, User, []);
    var s2 := Case(Kernel0(Ready, 0, [0], 1, true), Hopping, User, []);
    assert Next(s0, TaskYield).s == s1 by { assert Next(s0, TaskYield).s.pcs == s1.pcs; }
    PossibleFirst(s2, SchedEntry, Case(Kernel0(Ready, 1, [0, 0], 1, true), LoopHead, User, []), rest, end);
    PossibleFirst(s1, Tick(true), s2, [SchedEntry] + rest, end);
    PossibleFirst(s0, TaskYield, s1, [Tick(true)] + ([SchedEntry] + rest), end);
  }

  /** One turn of the scheduler loop dispatches task 0, whatever its state. */
  lemma Dispatches(state: TaskState, others: seq<nat>, pc: Pc, waiters: seq<nat>, rest: seq<Step>, end: Sys)
    requires forall t :: t in others || t in waiters ==> t == 0
    requires Possible(Case(Kernel0(state, 1, others, 1, false), Running, pc, waiters), rest, end)
    ensures Possible(Case(Kernel0(state, 1, [0] + others, 1, true), LoopHead, pc, waiters),
                     [LoopClear] + ([Dispatch] + rest), end)
  {
    CaseShape(state, 1, [0] + others, 1, true, LoopHead, pc, waiters);
    CaseShape(state, 1, [0] + others, 1, false, Picking, pc, waiters);
    var k := Kernel0(state, 1, [0] + others, 1, false);
    assert k.rq[0] == [0] + others && FirstNonEmpty(k.rq, 0) == 0 && ([0] + others)[1..] == others;
    assert PickNextReady(k).0.rq == [others] && PickNextReady(k).1 == 0;
    var s1 := Case(k, Picking, pc, waiters);
    PossibleFirst(s1, Dispatch, Case(Kernel0(state, 1, others, 1, false), Running, pc, waiters), rest, end);
    PossibleFirst(Case(Kernel0(state, 1, [0] + others, 1, true), LoopHead, pc, waiters), LoopClear, s1, [Dispatch] + rest, end);
  }

  lemma LockFails()
    ensures var s := Case(Kernel0(Ready, 1, [0], 1, false), Running, User, []);
            && Shape(s) && Guard(s, MutexLockCall(0))
            && Next(s, MutexLockCall(0)).s == Case(Kernel0(Ready, 1, [0], 1, false), Running, MutexRecheck(0), [])
  {
    var s := Case(Kernel0(Ready, 1, [0], 1, false), Running, User, []);
    CaseShape(Ready, 1, [0], 1, false, Running, User, []);
    assert s.pcs[0 := MutexRecheck(0)] == [MutexRecheck(0), User, User];
  }

  lemma RecheckParks()
    ensures var s := Case(Kernel0(Ready, 1, [0], 1, false), Running, MutexRecheck(0), []);
            && Shape(s) && Guard(s, Continue)
            && Next(s, Continue).s == Case(Kernel0(Blocked, 1, [0], 1, true), Hopping, MutexParked(0), [0])
  {
    var k := Kernel0(Ready, 1, [0], 1, false);
    var s := Case(k, Running, MutexRecheck(0), []);
    CaseShape(Ready, 1, [0], 1, false, Running, MutexRecheck(0), []);
    assert BlockCurrent(k).tcbs == Kernel0(Blocked, 1, [0], 1, true).tcbs;
    assert WaitPush([], 0, 3) == [0];
    assert MutexLockOrPark(k, Mutex(true, 1, [])) == (Kernel0(Blocked, 1, [0], 1, true), Mutex(true, 1, [0]), Parked);
    assert s.pcs[0 := MutexParked(0)] == [MutexParked(0), User, User];
    assert s.mutexes[0 := Mutex(true, 1, [0])] == [Mutex(true, 1, [0])];
  }

  /** Task 0 finds the mutex locked, parks and leaves; its second entry stays in the ready queue. */
  lemma Parks(rest: seq<Step>, end: Sys)
    requires Possible(Case(Kernel0(Blocked, 1, [0], 1, true), LoopHead, MutexParked(0), [0]), rest, end)
    ensures Possible(Case(Kernel0(Ready, 1, [0], 1, false), Running, User, []),
                     [MutexLockCall(0)] + ([Continue] + ([SchedEntry] + rest)), end)
  {
    LockFails();
    RecheckParks();
    CaseShape(Blocked, 1, [0], 1, true, Hopping, MutexParked(0), [0]);
    var s1 := Case(Kernel0(Ready, 1, [0], 1, false), Running, MutexRecheck(0), []);
    var s2 := Case(Kernel0(Blocked, 1, [0], 1, true), Hopping, MutexParked(0), [0]);
    PossibleFirst(s2, SchedEntry, s2.(ctl := LoopHead), rest, end);
    PossibleFirst(s1, Continue, s2, [SchedEntry] + rest, end);
    PossibleFirst(Case(Kernel0(Ready, 1, [0], 1, false), Running, User, []), MutexLockCall(0), s1,
                  [Continue] + ([SchedEntry] + rest), end);
  }

  /** From a state that satisfies the invariant: after the doubled entry task 0 locks, parks, and is dispatched
      again by its second entry while it is still BLOCKED in the waiter queue and task 1 still owns the mutex.
      In the code hrt_mutex_lock now returns success to task 0. */
  lemma LockReturnsWithoutOwnership() returns (steps: seq<Step>)
    ensures Inv(Case(Kernel0(Ready, 1, [], 0, false), Running, User, []))
    ensures Possible(Case(Kernel0(Ready, 1, [], 0, false), Running, User, []), steps,
                     Case(Kernel0(Blocked, 1, [], 1, false), Running, MutexParked(0), [0]))
  {
    CaseInv();
    var end := Case(Kernel0(Blocked, 1, [], 1, false), Running, MutexParked(0), [0]);
    assert [0] + [0] == [0, 0] && [0] + [] == [0];
    var last := [LoopClear] + ([Dispatch] + []);
    Dispatches(Blocked, [], MutexParked(0), [0], [], end);
    var park := [MutexLockCall(0)] + ([Continue] + ([SchedEntry] + last));
    Parks(last, end);
    var first := [LoopClear] + ([Dispatch] + park);
    Dispatches(Ready, [0], User, [], park, end);
    QueuedTwice(first, end);
    steps := [TaskYield] + ([Tick(true)] + ([SchedEntry] + first));
  }
}
