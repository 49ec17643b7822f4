/** Time slices and round-robin order. */
module Rotation {
  import opened Sequences
  import opened KernelSpec
  import opened KernelSystem
  import opened Placement
  import opened Invariants
  import opened Records
  import opened Timing

  // ------------------------------------------------------------------ slice accounting

  /** This step is a tick at which the current task's slice runs out. */
  predicate ExpiresAt(s: Sys, st: Step) {
    st.Tick? && SliceExpires(WakeDue(AdvanceTick(s.k), 0))
  }

  ghost function Expiries(s: Sys, steps: seq<Step>): nat
    requires ValidRun(s, steps)
    decreases |steps|
  {
    if steps == [] then 0
    else (if ExpiresAt(s, steps[0]) then 1 else 0) + Expiries(Next(s, steps[0]).s, steps[1..])
  }

  predicate OnSlice(s: Sys, c: nat) {
    s.ctl.Running? && s.k.current == c < |s.k.tcbs| && s.k.policy.Sliced() && s.k.tcbs[c].sliceCfg > 0
  }

  /** Task c keeps the CPU, under a slicing policy, in every state of the run. */
  ghost predicate StaysOn(s: Sys, steps: seq<Step>, c: nat)
    requires ValidRun(s, steps)
    decreases |steps|
  {
    OnSlice(s, c) && (steps == [] || StaysOn(Next(s, steps[0]).s, steps[1..], c))
  }

  lemma SliceAtTick(s: Sys, c: nat, handlerPends: bool)
    requires Inv(s) && Shape(s) && OnSlice(s, c)
    ensures var s1, left := TickNext(s, handlerPends).s, s.k.tcbs[c].sliceLeft;
            && |s1.k.tcbs| == |s.k.tcbs| && s1.k.tcbs[c].sliceLeft == (if left > 0 then left - 1 else 0)
            && (ExpiresAt(s, Tick(handlerPends)) <==> left == 1)
            && (left == 1 ==> s1.k.pending)
  {
    WakeLoopRecords(AdvanceTick(s.k), 0, c);
    WakeLoopFrame(AdvanceTick(s.k), 0);
  }

  /** A running task whose slice stands at c ticks draws exactly one expiry request, at its c-th tick,
      however many more ticks follow before the slice is refreshed; the slice never goes below zero. */
  lemma {:induction false} SliceExpiresOnce(s: Sys, steps: seq<Step>, c: nat)
    requires Inv(s) && ValidRun(s, steps) && StaysOn(s, steps, c)
    ensures var left, n := s.k.tcbs[c].sliceLeft, Ticks(steps);
            && c < |Run(s, steps).s.k.tcbs|
            && Run(s, steps).s.k.tcbs[c].sliceLeft == (if n < left then left - n else 0)
            && Expiries(s, steps) == if 0 < left <= n then 1 else 0
    decreases |steps|
  {
    if steps != [] {
      var s1 := Next(s, steps[0]).s;
      StepKeepsInv(s, steps[0]);
      SliceExpiresOnce(s1, steps[1..], c);
      if steps[0].Tick? {
        SliceAtTick(s, c, steps[0].handlerPends);
      } else {
        UnparkedIsBystander(s, c);
        StepKeepsRecord(s, steps[0], c);
      }
    }
  }

  // ------------------------------------------------------------------ round robin

  /** A sequence rotated n times: head to tail. */
  function Rot(q: seq<nat>, n: nat): (r: seq<nat>)
    requires q != []
    ensures |r| == |q|
  {
    if n == 0 then q else var r := Rot(q, n - 1); r[1..] + [r[0]]
  }

  lemma {:induction false} RotAt(q: seq<nat>, n: nat, j: nat)
    requires q != [] && j < |q|
    ensures Rot(q, n)[j] == q[(n + j) % |q|]
  {
    if n == 0 {
      SmallMod(j, |q|);
    } else if j + 1 < |q| {
      RotAt(q, n - 1, j + 1);
    } else {
      RotAt(q, n - 1, 0);
      AddMod(n - 1, |q|);
    }
  }

  lemma AddMod(n: nat, m: nat)
    requires m > 0
    ensures (n + m) % m == n % m
  {
    var q, r := n / m, n % m;
    assert n + m == (q + 1) * m + r;
    DivUnique(n + m, m, q + 1, r);
  }

  lemma {:induction false} RotKeepsTasks(q: seq<nat>, n: nat)
    requires q != []
    ensures multiset(Rot(q, n)) == multiset(q)
  {
    if n > 0 {
      RotKeepsTasks(q, n - 1);
      var r := Rot(q, n - 1);
      assert r == [r[0]] + r[1..];
    }
  }

  /** The tasks given the CPU by the scheduler loop, in order. */
  ghost function Order(s: Sys, steps: seq<Step>): seq<nat>
    requires ValidRun(s, steps)
    decreases |steps|
  {
    if steps == [] then []
    else
      var s1 := Next(s, steps[0]).s;
      (if steps[0].Dispatch? && s1.ctl.Running? && s1.k.current >= 0 then [s1.k.current] else []) + Order(s1, steps[1..])
  }

  /** Steps of a system whose tasks do nothing but yield. */
  ghost predicate OnlyYields(steps: seq<Step>) {
    forall j :: 0 <= j < |steps| ==>
      steps[j].LoopClear? || steps[j].Dispatch? || steps[j].TaskYield? || steps[j].SchedEntry? || steps[j].Tick?
  }

  /** Classes above p are empty and will stay so: nobody of class p or better is asleep. */
  ghost predicate OnlyClass(s: Sys, p: nat) {
    && s.port.Cooperative? && p < |s.k.rq|
    && (forall c :: 0 <= c < p ==> s.k.rq[c] == [])
    && (forall t :: 0 <= t < |s.k.tcbs| && s.k.tcbs[t].state.Sleep? ==> s.k.tcbs[t].prio > p)
  }

  /** The ready queue of class p after n dispatches; the running task counts as its last element. */
  ghost predicate Turning(s: Sys, p: nat, q: seq<nat>, n: nat)
    requires q != []
  {
    && OnlyClass(s, p)
    && (if s.ctl.Running? then s.k.HasCurrent() && s.k.tcbs[s.k.current].prio == p && s.k.rq[p] + [s.k.current] == Rot(q, n)
        else !s.ctl.Boot? && s.k.rq[p] == Rot(q, n))
  }

  lemma {:induction false} NoDueIds(k: KState, p: nat, i: nat)
    requires i <= |k.tcbs| && forall t :: i <= t < |k.tcbs| && k.tcbs[t].state.Sleep? ==> k.tcbs[t].prio != p
    ensures DueIds(k, p, i) == []
    decreases |k.tcbs| - i
  {
    if i < |k.tcbs| {
      NoDueIds(k, p, i + 1);
    }
  }

  lemma TickKeepsTurning(s: Sys, p: nat, q: seq<nat>, n: nat, handlerPends: bool)
    requires Inv(s) && Shape(s) && q != [] && Turning(s, p, q, n)
    ensures Turning(TickNext(s, handlerPends).s, p, q, n)
  {
    var s1, s2 := s.(k := AdvanceTick(s.k)), TickNext(s, handlerPends).s;
    StillKeepsPlaced(s, s1);
    WakeLoopFrame(s1.k, 0);
    forall c | 0 <= c <= p
      ensures s2.k.rq[c] == s.k.rq[c]
    {
      WakeLoopQueues(s1, c);
      NoDueIds(s1.k, c, 0);
    }
    forall t | 0 <= t < |s2.k.tcbs|
      ensures s2.k.tcbs[t].prio == s.k.tcbs[t].prio && (s2.k.tcbs[t].state.Sleep? ==> s.k.tcbs[t].state.Sleep?)
    {
      WakeLoopRecords(s1.k, 0, t);
    }
  }

  /** One step turns the queue by one place per dispatch and never otherwise. */
  lemma StepKeepsTurning(s: Sys, st: Step, p: nat, q: seq<nat>, n: nat)
    requires Inv(s) && Enabled(s, st) && q != [] && Turning(s, p, q, n) && OnlyYields([st])
    ensures var s1 := Next(s, st).s;
            if st.Dispatch? then Turning(s1, p, q, n + 1) && s1.ctl.Running? && s1.k.current == Rot(q, n)[0]
            else Turning(s1, p, q, n)
  {
    assert OnlyYields([st]) ==> [st][0] == st;
    if st.Tick? {
      TickKeepsTurning(s, p, q, n, st.handlerPends);
    } else if st.Dispatch? {
      var t := s.k.rq[p][0];
      assert FirstNonEmpty(s.k.rq, 0) == p;
      assert t in Q(s, ReadyQ(p)) && QueueOk(s, ReadyQ(p)) && TaskOk(s, t);
    } else if st.TaskYield? {
      var c := s.k.current;
      assert c !in Q(s, ReadyQ(p)) by { assert QueueOk(s, ReadyQ(p)); }
      Room(s, ReadyQ(p), c);
    }
  }

  /** `order` runs through q cyclically, starting at position n. */
  ghost predicate Cyclic(order: seq<nat>, q: seq<nat>, n: nat)
    requires q != []
  {
    forall j :: 0 <= j < |order| ==> order[j] == q[(n + j) % |q|]
  }

  lemma CyclicCons(rest: seq<nat>, q: seq<nat>, n: nat)
    requires q != [] && Cyclic(rest, q, n + 1)
    ensures Cyclic([Rot(q, n)[0]] + rest, q, n)
  {
    RotAt(q, n, 0);
    var order := [Rot(q, n)[0]] + rest;
    forall j | 0 <= j < |order|
      ensures order[j] == q[(n + j) % |q|]
    {
      if j > 0 {
        assert order[j] == rest[j - 1] == q[(n + 1 + (j - 1)) % |q|];
      }
    }
  }

  lemma {:induction false} TurningOrder(s: Sys, steps: seq<Step>, p: nat, q: seq<nat>, n: nat)
    requires Inv(s) && ValidRun(s, steps) && q != [] && Turning(s, p, q, n) && OnlyYields(steps)
    ensures Cyclic(Order(s, steps), q, n)
    decreases |steps|
  {
    if steps != [] {
      var st, rest := steps[0], steps[1..];
      var s1 := Next(s, st).s;
      assert OnlyYields([st]) && OnlyYields(rest);
      StepKeepsInv(s, st);
      StepKeepsTurning(s, st, p, q, n);
      if st.Dispatch? {
        TurningOrder(s1, rest, p, q, n + 1);
        CyclicCons(Order(s1, rest), q, n);
      } else {
        TurningOrder(s1, rest, p, q, n);
        assert [] + Order(s1, rest) == Order(s1, rest);
      }
    }
  }

  /** A window of |q| dispatches of a cyclic order holds each task of q once. */
  lemma CyclicWindow(order: seq<nat>, q: seq<nat>, i: nat)
    requires q != [] && Cyclic(order, q, 0) && i + |q| <= |order|
    ensures multiset(order[i..i + |q|]) == multiset(q)
  {
    forall j | 0 <= j < |q|
      ensures order[i..i + |q|][j] == Rot(q, i)[j]
    {
      RotAt(q, i, j);
    }
    assert order[i..i + |q|] == Rot(q, i);
    RotKeepsTasks(q, i);
  }

  /** Round robin: if the tasks of the best non-empty class only yield, the scheduler runs them in strict
      rotation for ever: the j-th dispatch is task j mod m of the queue, and any m consecutive dispatches
      run each of the m tasks exactly once. */
  lemma RoundRobin(s: Sys, steps: seq<Step>, p: nat, i: nat)
    requires Inv(s) && ValidRun(s, steps) && s.ctl.LoopHead? && OnlyClass(s, p) && s.k.rq[p] != [] && OnlyYields(steps)
    ensures forall j :: 0 <= j < |Order(s, steps)| ==> Order(s, steps)[j] == s.k.rq[p][j % |s.k.rq[p]|]
    ensures i + |s.k.rq[p]| <= |Order(s, steps)| ==>
              multiset(Order(s, steps)[i..i + |s.k.rq[p]|]) == multiset(s.k.rq[p])
  {
    var q, order := s.k.rq[p], Order(s, steps);
    assert Cyclic(order, q, 0) by { TurningOrder(s, steps, p, q, 0); }
    if i + |q| <= |order| {
      CyclicWindow(order, q, i);
    }
  }

  function Times(order: seq<nat>, t: nat): nat {
    if order == [] then 0 else Times(order[..|order| - 1], t) + if order[|order| - 1] == t then 1 else 0
  }

  lemma DivModNext(n: nat, m: nat)
    requires m > 0
    ensures if n % m == m - 1 then (n + 1) % m == 0 && (n + 1) / m == n / m + 1
            else (n + 1) % m == n % m + 1 && (n + 1) / m == n / m
  {
    NextQuotient(n, m, n / m, n % m);
  }

  lemma NextQuotient(n: nat, m: nat, q: nat, r: nat)
    requires m > 0 && r < m && n == q * m + r
    ensures if r == m - 1 then (n + 1) % m == 0 && (n + 1) / m == q + 1
            else (n + 1) % m == r + 1 && (n + 1) / m == q
  {
    if r == m - 1 {
      DivUnique(n + 1, m, q + 1, 0);
    } else {
      DivUnique(n + 1, m, q, r + 1);
    }
  }

  lemma DivUnique(n: nat, m: nat, q: nat, r: nat)
    requires m > 0 && r < m && n == q * m + r
    ensures n / m == q && n % m == r
  {
    var q1, r1 := n / m, n % m;
    assert n == q1 * m + r1;
    if q1 < q {
      MulMonotone(m, q1 + 1, q);
    } else if q < q1 {
      MulMonotone(m, q + 1, q1);
    }
  }

  lemma MulMonotone(m: nat, a: nat, b: nat)
    requires a <= b
    ensures a * m <= b * m
  {
  }

  lemma {:induction false} TimesInRotation(order: seq<nat>, q: seq<nat>, x: nat)
    requires q != [] && NoDup(q) && x < |q|
    requires forall j :: 0 <= j < |order| ==> order[j] == q[j % |q|]
    ensures Times(order, q[x]) == |order| / |q| + if |order| % |q| > x then 1 else 0
    decreases |order|
  {
    if order == [] {
      SmallMod(0, |q|);
    } else {
      var n := |order| - 1;
      TimesInRotation(order[..n], q, x);
      DivModNext(n, |q|);
      assert order[n] == q[n % |q|];
      assert order[n] == q[x] <==> n % |q| == x;
    }
  }

  /** Fairness: over a run of any length the numbers of turns of any two of the tasks differ by at most one. */
  lemma TurnsDifferByAtMostOne(s: Sys, steps: seq<Step>, p: nat, a: nat, b: nat)
    requires Inv(s) && ValidRun(s, steps) && s.ctl.LoopHead? && OnlyClass(s, p) && OnlyYields(steps)
    requires a in s.k.rq[p] && b in s.k.rq[p]
    ensures -1 <= Times(Order(s, steps), a) - Times(Order(s, steps), b) <= 1
  {
    var q := s.k.rq[p];
    var x :| 0 <= x < |q| && q[x] == a;
    var y :| 0 <= y < |q| && q[y] == b;
    RoundRobin(s, steps, p, 0);
    assert NoDup(q) by { assert QueueOk(s, ReadyQ(p)); }
    TimesInRotation(Order(s, steps), q, x);
    TimesInRotation(Order(s, steps), q, y);
  }
}
