/** What one tick does, how long a sleep lasts, and how ticks relate to milliseconds. */
module Timing {
  import opened Sequences
  import opened KernelSpec
  import opened KernelSystem
  import opened Placement
  import opened Invariants
  import opened FifoLaw
  import opened Records

  // ------------------------------------------------------------------ one tick

  /** The tick counter n ticks later. */
  function Later(tick: uint32, n: nat): uint32
    decreases n
  {
    if n == 0 then tick else Later((tick + 1) % TWO32, n - 1)
  }

  lemma {:induction false} LaterIsModular(tick: uint32, n: nat)
    ensures Later(tick, n) == (tick + n) % TWO32
    decreases n
  {
    if n > 0 {
      LaterIsModular((tick + 1) % TWO32, n - 1);
      WrapOnce(tick, n - 1);
    }
  }

  lemma WrapOnce(tick: uint32, n: nat)
    ensures ((tick + 1) % TWO32 + n) % TWO32 == (tick + 1 + n) % TWO32
  {
    if tick == TWO32 - 1 {
      assert (TWO32 + n) % TWO32 == n % TWO32;
    }
  }

  /** The due sleepers of class p in slots from i on, in slot order. */
  function DueIds(k: KState, p: nat, i: nat): (r: seq<nat>)
    requires i <= |k.tcbs|
    ensures forall j: nat :: j in r <==> i <= j < |k.tcbs| && IsDue(k.tcbs[j], k.tick) && k.tcbs[j].prio == p
    ensures forall a, b :: 0 <= a < b < |r| ==> r[a] < r[b]
    decreases |k.tcbs| - i
  {
    if i == |k.tcbs| then []
    else if IsDue(k.tcbs[i], k.tick) && k.tcbs[i].prio == p then
      var rest := DueIds(k, p, i + 1);
      assert forall a :: 0 <= a < |rest| ==> rest[a] in rest;
      [i] + rest
    else DueIds(k, p, i + 1)
  }

  lemma {:induction false} DueEventsPushDueIds(k: KState, p: nat, i: nat)
    requires i <= |k.tcbs|
    ensures Pushes(DueEvents(k, i), ReadyQ(p)) == DueIds(k, p, i) && Pops(DueEvents(k, i), ReadyQ(p)) == []
    decreases |k.tcbs| - i
  {
    if i < |k.tcbs| {
      DueEventsPushDueIds(k, p, i + 1);
      var e := Pushed(ReadyQ(k.tcbs[i].prio), i);
      var first := if IsDue(k.tcbs[i], k.tick) then [e] else [];
      FlatMapConcat(first, DueEvents(k, i + 1), PushOf(ReadyQ(p)));
      FlatMapConcat(first, DueEvents(k, i + 1), PopOf(ReadyQ(p)));
      FlatMapOne(e, PushOf(ReadyQ(p)));
      FlatMapOne(e, PopOf(ReadyQ(p)));
    }
  }

  lemma WakeLoopQueues(s: Sys, p: nat)
    requires Placed(s) && p < |s.k.rq|
    ensures WakeDue(s.k, 0).rq[p] == s.k.rq[p] + DueIds(s.k, p, 0)
  {
    var o := Out(s.(k := WakeDue(s.k, 0)), DueEvents(s.k, 0));
    assert Fifo(s, o, ReadyQ(p)) by { WakeLoopFifo(s, 0); }
    DueEventsPushDueIds(s.k, p, 0);
    assert [] + Q(o.s, ReadyQ(p)) == Q(o.s, ReadyQ(p));
  }

  /** Some task slept before and is READY after. */
  ghost predicate SomeWoke(k: KState, k1: KState)
    requires |k1.tcbs| == |k.tcbs|
  {
    exists t :: 0 <= t < |k.tcbs| && k.tcbs[t].state.Sleep? && k1.tcbs[t].state.Ready?
  }

  /** The current task was READY with one tick of its slice left, under a slicing policy, and has none now; or
      the tick itself woke it with a slice of one tick. */
  predicate LastTickOfSlice(k: KState, k1: KState)
    requires |k1.tcbs| == |k.tcbs|
  {
    && 0 <= k.current < |k.tcbs| && k.policy != Priority && k1.tcbs[k.current].state.Ready? && k1.tcbs[k.current].sliceLeft == 0
    && (if k.tcbs[k.current].state.Ready? then k.tcbs[k.current].sliceLeft == 1 else k.tcbs[k.current].sliceCfg == 1)
  }

  lemma AnyDueMeansWoke(k: KState)
    ensures |TickIsr(k).tcbs| == |k.tcbs| && (AnyDue(AdvanceTick(k)) <==> SomeWoke(k, TickIsr(k)))
  {
    var k1 := AdvanceTick(k);
    forall t | 0 <= t < |k.tcbs|
      ensures k.tcbs[t].state.Sleep? && TickIsr(k).tcbs[t].state.Ready? <==> IsDue(k1.tcbs[t], k1.tick)
    {
      WakeLoopRecords(k1, 0, t);
    }
  }

  lemma ExpiryMeansLastTick(k: KState)
    requires forall t :: 0 <= t < |k.tcbs| ==> k.tcbs[t].sliceLeft <= k.tcbs[t].sliceCfg
    ensures |TickIsr(k).tcbs| == |k.tcbs| && (SliceExpires(WakeDue(AdvanceTick(k), 0)) <==> LastTickOfSlice(k, TickIsr(k)))
  {
    WakeLoopFrame(AdvanceTick(k), 0);
    if k.HasCurrent() {
      WakeLoopRecords(AdvanceTick(k), 0, k.current);
    }
  }

  /** One tick advances the counter modulo 2^32; appends to each class exactly its due sleepers, in
      slot order; changes no record but theirs and the charged slice of the current task; touches no
      waiter queue; and requests a switch exactly if somebody woke or the current slice ran out. */
  lemma TickSpec(s: Sys, t: nat, p: nat)
    requires Placed(s) && t < |s.k.tcbs| && p < |s.k.rq|
    ensures var k, k1 := AdvanceTick(s.k), TickIsr(s.k);
            && |k1.tcbs| == |k.tcbs| && |k1.rq| == |k.rq| && k1.tick == k.tick && k1.current == s.k.current
            && k1.rq[p] == s.k.rq[p] + DueIds(k, p, 0)
            && (var woken := if IsDue(k.tcbs[t], k.tick) then Readied(k.tcbs[t]) else k.tcbs[t];
                k1.tcbs[t] == if t == s.k.current && woken.state.Ready? && s.k.policy != Priority && woken.sliceLeft > 0
                              then woken.(sliceLeft := woken.sliceLeft - 1) else woken)
            && (k1.pending <==> s.k.pending || SomeWoke(s.k, k1) || LastTickOfSlice(s.k, k1))
  {
    var s1 := s.(k := AdvanceTick(s.k));
    StillKeepsPlaced(s, s1);
    WakeLoopQueues(s1, p);
    WakeLoopRecords(s1.k, 0, t);
    WakeLoopFrame(s1.k, 0);
    AnyDueMeansWoke(s.k);
    assert forall u :: 0 <= u < |s.k.tcbs| ==> TaskOk(s, u);
    ExpiryMeansLastTick(s.k);
  }

  // ------------------------------------------------------------------ sleeping

  /** Task t sleeps and its deadline is d ticks away, modulo 2^32. */
  predicate Asleep(s: Sys, t: nat, d: int) {
    t < |s.k.tcbs| && s.k.tcbs[t].state.Sleep? && (s.k.tcbs[t].wakeTick - s.k.tick) % TWO32 == d
  }

  /** The comparison of the tick handler, one tick later. */
  lemma DueAfterOneTick(wake: uint32, tick: uint32, d: int)
    requires (wake - tick) % TWO32 == d && d >= 1
    ensures (wake - (tick + 1) % TWO32) % TWO32 == d - 1
    ensures Signed32(wake - (tick + 1) % TWO32) <= 0 <==> d == 1 || d > TWO31
  {
  }

  lemma SleeperAtTick(s: Sys, t: nat, d: int, handlerPends: bool)
    requires Inv(s) && Shape(s) && Asleep(s, t, d) && d >= 1
    ensures var s1 := TickNext(s, handlerPends).s;
            if 1 < d <= TWO31 then Asleep(s1, t, d - 1)
            else t < |s1.k.tcbs| && s1.k.tcbs[t].state.Ready? && s1.k.tcbs[t].prio < |s1.k.rq| && t in s1.k.rq[s1.k.tcbs[t].prio]
  {
    var s1 := TickNext(s, handlerPends).s;
    SleeperRecordAtTick(s, t, d, handlerPends);
    if s1.k.tcbs[t].state.Ready? {
      TickKeepsPlaced(s, handlerPends);
      assert HomeOf(s1, t).In? && TaskOk(s1, t);
    }
  }

  lemma SleeperRecordAtTick(s: Sys, t: nat, d: int, handlerPends: bool)
    requires Shape(s) && Asleep(s, t, d) && d >= 1
    ensures var s1 := TickNext(s, handlerPends).s;
            && t < |s1.k.tcbs| && s1.ctl == s.ctl && s1.k.current == s.k.current
            && (if 1 < d <= TWO31 then Asleep(s1, t, d - 1) else s1.k.tcbs[t].state.Ready?)
  {
    var k := AdvanceTick(s.k);
    DueAfterOneTick(s.k.tcbs[t].wakeTick, s.k.tick, d);
    WakeLoopRecords(k, 0, t);
    WakeLoopFrame(k, 0);
  }

  /** No step but a tick touches a sleeper. */
  lemma OtherStepLeavesSleeper(s: Sys, st: Step, t: nat, d: int)
    requires Inv(s) && Enabled(s, st) && Asleep(s, t, d) && !st.Tick?
    ensures Asleep(Next(s, st).s, t, d)
  {
    UnparkedIsBystander(s, t);
    StepKeepsRecord(s, st, t);
  }

  function Ticks(steps: seq<Step>): nat {
    if steps == [] then 0 else (if steps[0].Tick? then 1 else 0) + Ticks(steps[1..])
  }

  lemma SleeperStep(s: Sys, st: Step, t: nat, d: int)
    requires Inv(s) && Enabled(s, st) && Asleep(s, t, d) && Ticks([st]) < d <= TWO31
    ensures Asleep(Next(s, st).s, t, d - Ticks([st]))
  {
    if st.Tick? {
      SleeperAtTick(s, t, d, st.handlerPends);
    } else {
      OtherStepLeavesSleeper(s, st, t, d);
    }
  }

  /** Exact sleep across the 32-bit wrap: a task with d <= 2^31 ticks to go sleeps through any run with
      fewer than d ticks, whatever else happens in it, and the d-th tick makes it READY and queued. */
  lemma {:induction false} SleepsExactly(s: Sys, steps: seq<Step>, t: nat, d: int)
    requires Inv(s) && ValidRun(s, steps) && Asleep(s, t, d) && Ticks(steps) < d <= TWO31
    ensures Asleep(Run(s, steps).s, t, d - Ticks(steps))
    decreases |steps|
  {
    if steps != [] {
      StepKeepsInv(s, steps[0]);
      SleeperStep(s, steps[0], t, d);
      SleepsExactly(Next(s, steps[0]).s, steps[1..], t, d - Ticks([steps[0]]));
    }
  }

  lemma WakesAtTheLastTick(s: Sys, steps: seq<Step>, t: nat, d: int, handlerPends: bool)
    requires Inv(s) && ValidRun(s, steps) && Asleep(s, t, d) && Ticks(steps) == d - 1 && d <= TWO31
    ensures Shape(Run(s, steps).s)
    ensures var s1 := TickNext(Run(s, steps).s, handlerPends).s;
            t < |s1.k.tcbs| && s1.k.tcbs[t].state.Ready? && s1.k.tcbs[t].prio < |s1.k.rq| && t in s1.k.rq[s1.k.tcbs[t].prio]
  {
    SleepsExactly(s, steps, t, d);
    RunKeepsInv(s, steps);
    PlacedShape(Run(s, steps).s);
    SleeperAtTick(Run(s, steps).s, t, 1, handlerPends);
  }

  /** hrt_sleep sets the deadline MsToTicks(ms) ticks ahead, at any tick value. */
  lemma SleepSetsDeadline(s: Sys, ms: uint32)
    requires Shape(s) && Guard(s, TaskSleep(ms))
    ensures Asleep(Next(s, TaskSleep(ms)).s, s.k.current, MsToTicks(ms, s.k.tickHz))
  {
    DeadlineAhead(s.k.tick, MsToTicks(ms, s.k.tickHz));
  }

  lemma DeadlineAhead(tick: uint32, d: uint32)
    ensures ((tick + d) % TWO32 - tick) % TWO32 == d
  {
  }

  /** The handler's verdict on a task that went to sleep at `tick` for d ticks, n ticks later. */
  predicate KeptAsleep(tick: int, d: int, n: int) {
    Signed32((tick + d) % TWO32 - (tick + n) % TWO32) > 0
  }

  /** The exact range: for a sleep of d ticks started at any tick value, the signed comparison keeps the
      task asleep for the first d-1 ticks if and only if d <= 2^31. */
  lemma SleepExactIff(tick: uint32, d: int)
    requires 1 <= d < TWO32
    ensures (forall n :: 1 <= n < d ==> KeptAsleep(tick, d, n)) <==> d <= TWO31
    ensures !KeptAsleep(tick, d, d)
  {
    KeptAsleepIff(tick, d, 1);
    KeptAsleepIff(tick, d, d);
    forall n | 1 <= n < d && d <= TWO31
      ensures KeptAsleep(tick, d, n)
    {
      KeptAsleepIff(tick, d, n);
    }
  }

  lemma KeptAsleepIff(tick: uint32, d: int, n: int)
    requires 1 <= n <= d < TWO32
    ensures KeptAsleep(tick, d, n) <==> 0 < d - n < TWO31
  {
    assert ((tick + d) % TWO32 - (tick + n) % TWO32) % TWO32 == d - n;
  }

  /** A longer sleep, which hrt_sleep accepts, ends at the very first tick. */
  lemma LongSleepEndsAtOnce(s: Sys, t: nat, d: int, handlerPends: bool)
    requires Inv(s) && Asleep(s, t, d) && d > TWO31
    ensures Shape(s) && t < |TickNext(s, handlerPends).s.k.tcbs| && TickNext(s, handlerPends).s.k.tcbs[t].state.Ready?
  {
    PlacedShape(s);
    SleeperAtTick(s, t, d, handlerPends);
  }

  // ------------------------------------------------------------------ milliseconds

  lemma ProductBelow(a: int, b: int, m: int)
    requires 0 <= a < m && 0 <= b < m
    ensures 0 <= a * b <= (m - 1) * (m - 1)
  {
  }

  /** hrt__ms_to_ticks is the least number of ticks that covers ms milliseconds, at least one, saturating
      at 2^32-1; its 64-bit intermediate never overflows. */
  lemma MsToTicksLeast(ms: uint32, hz: uint32)
    ensures 0 <= ms * hz + 999 < TWO64
    ensures MsToTicks(ms, hz) >= 1 && (ms == 0 || hz == 0 ==> MsToTicks(ms, hz) == 1)
    ensures ms > 0 && hz > 0 && ms * hz <= (TWO32 - 1) * 1000 ==>
              MsToTicks(ms, hz) * 1000 >= ms * hz > (MsToTicks(ms, hz) - 1) * 1000
    ensures ms > 0 && hz > 0 && ms * hz > (TWO32 - 1) * 1000 ==> MsToTicks(ms, hz) == TWO32 - 1
  {
    ProductBelow(ms, hz, TWO32);
  }

  lemma Quotient(a: int, hz: int)
    requires hz > 0
    ensures hz * (a / hz) <= a < hz * (a / hz) + hz
  {
  }

  lemma MulOrder(h: int, x: int, y: int)
    requires h > 0 && h * x < h * y
    ensures x < y
  {
  }

  lemma Distribute(h: int, x: int, y: int)
    ensures h * (x + y) == h * x + h * y && h * (x - y) == h * x - h * y
  {
  }

  /** The quotients of two numbers that are between ms*hz and ms*hz + 1000 apart. */
  lemma QuotientsApart(a: int, b: int, hz: int, ms: int)
    requires hz > 0 && hz * ms <= b - a < hz * ms + 1000
    ensures b / hz - a / hz >= ms && hz * (b / hz - a / hz) < hz * (ms + 1) + 1000
  {
    var q, r := a / hz, b / hz;
    Quotient(a, hz);
    Quotient(b, hz);
    Distribute(hz, q, ms);
    Distribute(hz, r, 1);
    MulOrder(hz, q + ms, r + 1);
    Distribute(hz, r, q);
    Distribute(hz, ms, 1);
  }

  /** hrt_now_ms is the number of whole milliseconds in the ticks counted, modulo 2^32, and 0 without a rate. */
  lemma NowMsIsFloor(tick: uint32, hz: uint32) returns (whole: nat)
    ensures NowMs(tick, hz) == whole % TWO32
    ensures if hz == 0 then whole == 0 else hz * whole <= tick * 1000 < hz * whole + hz
  {
    if hz == 0 {
      whole := 0;
    } else {
      Quotient(tick * 1000, hz);
      QuotientNonNegative(tick * 1000, hz);
      whole := tick * 1000 / hz;
    }
  }

  /** A sleep agrees with the millisecond clock: across the ticks of hrt_sleep(ms), with no wrap of tick or
      clock and no saturation, hrt_now_ms advances by at least ms and by less than ms + 1 + 1000/hz. */
  lemma SleepAgreesWithClock(tick: uint32, ms: uint32, hz: uint32)
    requires ms > 0 && hz > 0 && ms * hz <= (TWO32 - 1) * 1000
    requires tick + MsToTicks(ms, hz) < TWO32 && (tick + MsToTicks(ms, hz)) * 1000 / hz < TWO32
    ensures var diff := NowMs(tick + MsToTicks(ms, hz), hz) - NowMs(tick, hz);
            diff >= ms && hz * diff < hz * (ms + 1) + 1000
  {
    var d := MsToTicks(ms, hz);
    var a, b := tick * 1000, (tick + d) * 1000;
    assert hz * ms <= b - a < hz * ms + 1000 by { MsToTicksLeast(ms, hz); }
    QuotientsApart(a, b, hz, ms);
    Quotient(a, hz);
    NowMsUnwrapped(tick, hz);
    NowMsUnwrapped(tick + d, hz);
  }

  lemma SmallMod(x: int, m: int)
    requires 0 <= x < m
    ensures x % m == x
  {
  }

  lemma QuotientNonNegative(a: int, h: int)
    requires a >= 0 && h > 0
    ensures a / h >= 0
  {
  }

  lemma NowMsUnwrapped(tick: uint32, hz: uint32)
    requires hz > 0 && tick * 1000 / hz < TWO32
    ensures NowMs(tick, hz) == tick * 1000 / hz
  {
    QuotientNonNegative(tick * 1000, hz);
    SmallMod(tick * 1000 / hz, TWO32);
  }
}
