/** Semaphore tokens are conserved, mutexes exclude each other, and both serve waiters in order. */
module Locks {
  import opened Sequences
  import opened KernelSpec
  import opened PrimitivesSpec
  import opened KernelSystem
  import opened Placement
  import opened Invariants
  import opened FifoLaw

  function GivenOf(i: nat): Event -> seq<nat> { (e: Event) => if e.SemGiven? && e.i == i then [i] else [] }

  function LostOf(i: nat): Event -> seq<nat> { (e: Event) => if e.SemLost? && e.i == i then [i] else [] }

  function TakenOf(i: nat): Event -> seq<nat> { (e: Event) => if e.SemTaken? && e.i == i then [i] else [] }

  /** Gives, gives lost to saturation, tokens taken, and direct handoffs of semaphore i. */
  function Gives(evs: seq<Event>, i: nat): nat { |FlatMap(evs, GivenOf(i))| }

  function Losses(evs: seq<Event>, i: nat): nat { |FlatMap(evs, LostOf(i))| }

  function Takes(evs: seq<Event>, i: nat): nat { |FlatMap(evs, TakenOf(i))| }

  function Handed(evs: seq<Event>, i: nat): seq<nat> { Pops(evs, WaitQ(SemWaiters(i))) }

  function OwnershipOf(i: nat): Event -> seq<Event> {
    (e: Event) => if (e.MutexGained? || e.MutexDropped?) && e.i == i then [e] else []
  }

  function GainOf(i: nat): Event -> seq<nat> { (e: Event) => if e.MutexGained? && e.i == i then [e.id] else [] }

  /** The tasks that came to own mutex i, in order. */
  function Gains(evs: seq<Event>, i: nat): seq<nat> { FlatMap(evs, GainOf(i)) }

  function DropOf(i: nat): Event -> seq<nat> { (e: Event) => if e.MutexDropped? && e.i == i then [e.id] else [] }

  /** How often mutex i was released or passed on, and the waiters it was passed to. */
  function Drops(evs: seq<Event>, i: nat): nat { |FlatMap(evs, DropOf(i))| }

  function Passed(evs: seq<Event>, i: nat): seq<nat> { Pops(evs, WaitQ(MutexWaiters(i))) }

  /** The holder after a history of gains and drops, or None if the history violates mutual
      exclusion: a gain while somebody holds the mutex, or a drop by somebody who does not. */
  function Replay(holder: int, history: seq<Event>): Option<int>
    decreases |history|
  {
    if history == [] then Some(holder)
    else match history[0]
      case MutexGained(_, t) => if holder == NO_OWNER then Replay(t, history[1..]) else None
      case MutexDropped(_, t) => if holder == t then Replay(NO_OWNER, history[1..]) else None
      case _ => None
  }

  lemma {:induction false} ReplayConcat(holder: int, a: seq<Event>, b: seq<Event>)
    requires Replay(holder, a).Some?
    ensures Replay(holder, a + b) == Replay(Replay(holder, a).value, b)
    decreases |a|
  {
    if a == [] {
      assert a + b == b;
    } else {
      assert (a + b)[0] == a[0] && (a + b)[1..] == a[1..] + b;
      match a[0]
      case MutexGained(_, t) => ReplayConcat(t, a[1..], b);
      case MutexDropped(_, t) => ReplayConcat(NO_OWNER, a[1..], b);
      case _ =>
    }
  }

  // ------------------------------------------------------------------ one step

  /** Tokens in hand plus tokens gone equal tokens before plus gives; a give finds a waiter if there is one. */
  ghost predicate SemStep(s: Sys, o: Out, i: nat)
    requires i < |s.sems| == |o.s.sems|
  {
    && o.s.sems[i].max == s.sems[i].max
    && o.s.sems[i].count + Takes(o.evs, i) + |Handed(o.evs, i)| + Losses(o.evs, i) == s.sems[i].count + Gives(o.evs, i)
    && |Handed(o.evs, i)| <= Gives(o.evs, i)
    && (s.sems[i].waiters != [] ==> |Handed(o.evs, i)| == Gives(o.evs, i))
  }

  /** Ownership changes legally, and while somebody waits only by handoff to the head of the queue. */
  ghost predicate MutexStep(s: Sys, o: Out, i: nat)
    requires i < |s.mutexes| == |o.s.mutexes|
  {
    && Replay(s.mutexes[i].owner, FlatMap(o.evs, OwnershipOf(i))) == Some(o.s.mutexes[i].owner)
    && |Passed(o.evs, i)| <= |Gains(o.evs, i)|
    && (s.mutexes[i].waiters != [] ==> Gains(o.evs, i) == Passed(o.evs, i))
  }

  ghost predicate LockStep(s: Sys, o: Out) {
    && |o.s.sems| == |s.sems| && |o.s.mutexes| == |s.mutexes|
    && (forall i :: 0 <= i < |s.sems| ==> SemStep(s, o, i))
    && (forall i :: 0 <= i < |s.mutexes| ==> MutexStep(s, o, i))
  }

  /** Events that concern neither semaphores nor mutexes. */
  predicate LockAside(e: Event) {
    && !e.SemGiven? && !e.SemLost? && !e.SemTaken? && !e.MutexGained? && !e.MutexDropped?
    && (e.Popped? ==> !e.q.WaitQ? || (!e.q.w.SemWaiters? && !e.q.w.MutexWaiters?))
  }

  ghost predicate AllLockAside(evs: seq<Event>) { forall j :: 0 <= j < |evs| ==> LockAside(evs[j]) }

  lemma LockAsideConcat(a: seq<Event>, b: seq<Event>)
    requires AllLockAside(a) && AllLockAside(b)
    ensures AllLockAside(a + b)
  {
  }

  lemma AsideProjections(evs: seq<Event>, i: nat)
    requires AllLockAside(evs)
    ensures FlatMap(evs, GivenOf(i)) == [] && FlatMap(evs, LostOf(i)) == [] && FlatMap(evs, TakenOf(i)) == []
    ensures Handed(evs, i) == [] && Pops(evs, WaitQ(MutexWaiters(i))) == []
    ensures FlatMap(evs, OwnershipOf(i)) == [] && Gains(evs, i) == []
  {
    FlatMapNone(evs, GivenOf(i));
    FlatMapNone(evs, LostOf(i));
    FlatMapNone(evs, TakenOf(i));
    FlatMapNone(evs, OwnershipOf(i));
    FlatMapNone(evs, GainOf(i));
    FlatMapNone(evs, PopOf(WaitQ(SemWaiters(i))));
    FlatMapNone(evs, PopOf(WaitQ(MutexWaiters(i))));
  }

  /** Token counts and owners stay as they are. */
  ghost predicate SameLocks(s: Sys, s1: Sys) {
    && |s1.sems| == |s.sems| && |s1.mutexes| == |s.mutexes|
    && (forall i :: 0 <= i < |s.sems| ==> s1.sems[i].count == s.sems[i].count && s1.sems[i].max == s.sems[i].max)
    && (forall i :: 0 <= i < |s.mutexes| ==> s1.mutexes[i].owner == s.mutexes[i].owner)
  }

  lemma AsideLockStep(s: Sys, o: Out)
    requires SameLocks(s, o.s) && AllLockAside(o.evs)
    ensures LockStep(s, o)
  {
    forall i
      ensures 0 <= i < |s.sems| ==> SemStep(s, o, i)
      ensures 0 <= i < |s.mutexes| ==> MutexStep(s, o, i)
    {
      if 0 <= i {
        AsideProjections(o.evs, i);
      }
    }
  }

  lemma OneLockEvent(e: Event, i: nat)
    ensures FlatMap([e], GivenOf(i)) == GivenOf(i)(e) && FlatMap([e], LostOf(i)) == LostOf(i)(e)
    ensures FlatMap([e], TakenOf(i)) == TakenOf(i)(e)
    ensures FlatMap([e], OwnershipOf(i)) == OwnershipOf(i)(e) && Gains([e], i) == GainOf(i)(e)
    ensures Handed([e], i) == PopOf(WaitQ(SemWaiters(i)))(e)
    ensures Pops([e], WaitQ(MutexWaiters(i))) == PopOf(WaitQ(MutexWaiters(i)))(e)
  {
    FlatMapOne(e, GivenOf(i));
    FlatMapOne(e, LostOf(i));
    FlatMapOne(e, TakenOf(i));
    FlatMapOne(e, OwnershipOf(i));
    FlatMapOne(e, GainOf(i));
    FlatMapOne(e, PopOf(WaitQ(SemWaiters(i))));
    FlatMapOne(e, PopOf(WaitQ(MutexWaiters(i))));
  }

  lemma LockConcat(a: seq<Event>, b: seq<Event>, i: nat)
    ensures FlatMap(a + b, GivenOf(i)) == FlatMap(a, GivenOf(i)) + FlatMap(b, GivenOf(i))
    ensures FlatMap(a + b, LostOf(i)) == FlatMap(a, LostOf(i)) + FlatMap(b, LostOf(i))
    ensures FlatMap(a + b, TakenOf(i)) == FlatMap(a, TakenOf(i)) + FlatMap(b, TakenOf(i))
    ensures FlatMap(a + b, OwnershipOf(i)) == FlatMap(a, OwnershipOf(i)) + FlatMap(b, OwnershipOf(i))
    ensures Gains(a + b, i) == Gains(a, i) + Gains(b, i)
    ensures Handed(a + b, i) == Handed(a, i) + Handed(b, i)
    ensures Pops(a + b, WaitQ(MutexWaiters(i))) == Pops(a, WaitQ(MutexWaiters(i))) + Pops(b, WaitQ(MutexWaiters(i)))
  {
    FlatMapConcat(a, b, GivenOf(i));
    FlatMapConcat(a, b, LostOf(i));
    FlatMapConcat(a, b, TakenOf(i));
    FlatMapConcat(a, b, OwnershipOf(i));
    FlatMapConcat(a, b, GainOf(i));
    FlatMapConcat(a, b, PopOf(WaitQ(SemWaiters(i))));
    FlatMapConcat(a, b, PopOf(WaitQ(MutexWaiters(i))));
  }

  /** A token is taken. */
  lemma TakeStep(s: Sys, s1: Sys, i: nat)
    requires i < |s.sems| == |s1.sems| && s.sems[i].count > 0 && s1.sems[i].count == s.sems[i].count - 1
    requires s.sems[i].waiters == [] && s1.sems[i].max == s.sems[i].max
    requires SameLocks(s, s1.(sems := s1.sems[i := s.sems[i]]))
    ensures LockStep(s, Out(s1, [SemTaken(i)]))
  {
    var o := Out(s1, [SemTaken(i)]);
    forall j
      ensures 0 <= j < |s.sems| ==> SemStep(s, o, j)
      ensures 0 <= j < |s.mutexes| ==> MutexStep(s, o, j)
    {
      if 0 <= j {
        OneLockEvent(SemTaken(i), j);
      }
    }
  }

  /** A free mutex is locked by task t. */
  lemma GainStep(s: Sys, s1: Sys, i: nat, t: nat)
    requires i < |s.mutexes| == |s1.mutexes| && s.mutexes[i].owner == NO_OWNER && s1.mutexes[i].owner == t
    requires s.mutexes[i].waiters == []
    requires SameLocks(s, s1.(mutexes := s1.mutexes[i := s.mutexes[i]]))
    ensures LockStep(s, Out(s1, [MutexGained(i, t)]))
  {
    var e := MutexGained(i, t);
    var o := Out(s1, [e]);
    forall j
      ensures 0 <= j < |s.sems| ==> SemStep(s, o, j)
      ensures 0 <= j < |s.mutexes| ==> MutexStep(s, o, j)
    {
      if 0 <= j {
        OneLockEvent(e, j);
        assert [e][1..] == [];
        if j < |s.mutexes| && j != i {
          assert s1.(mutexes := s1.mutexes[i := s.mutexes[i]]).mutexes[j] == s1.mutexes[j];
        }
      }
    }
  }

  /** The wake-up of the head of waiter queue w, as seen by the locks. */
  lemma WakeProjections(s: Sys, w: WaitId, j: nat)
    requires Q(s, WaitQ(w)) != [] ==> Q(s, WaitQ(w))[0] < |s.k.tcbs|
    ensures var wake := WakeEvents(s, w);
            var head := if Q(s, WaitQ(w)) == [] then [] else Q(s, WaitQ(w))[..1];
            && FlatMap(wake, GivenOf(j)) == [] && FlatMap(wake, LostOf(j)) == [] && FlatMap(wake, TakenOf(j)) == []
            && FlatMap(wake, OwnershipOf(j)) == [] && Gains(wake, j) == []
            && Handed(wake, j) == (if w == SemWaiters(j) then head else [])
            && Pops(wake, WaitQ(MutexWaiters(j))) == (if w == MutexWaiters(j) then head else [])
  {
    if Q(s, WaitQ(w)) != [] {
      var h := Q(s, WaitQ(w))[0];
      assert WakeEvents(s, w) == [Popped(WaitQ(w), h)] + [ReadyEvent(s, h)];
      LockConcat([Popped(WaitQ(w), h)], [ReadyEvent(s, h)], j);
      OneLockEvent(Popped(WaitQ(w), h), j);
      OneLockEvent(ReadyEvent(s, h), j);
    }
  }

  /** What the locks see, at index j, of a give of semaphore i. */
  ghost predicate GiveSeen(evs: seq<Event>, i: nat, j: nat, woken: bool, lost: bool) {
    && Gives(evs, j) == (if j == i then 1 else 0) && Takes(evs, j) == 0
    && Losses(evs, j) == (if j == i && lost then 1 else 0)
    && |Handed(evs, j)| == (if j == i && woken then 1 else 0)
    && FlatMap(evs, OwnershipOf(j)) == [] && Gains(evs, j) == [] && Passed(evs, j) == []
  }

  /** A give that wakes the first waiter. */
  lemma HandProjections(s: Sys, i: nat, j: nat)
    requires var q := Q(s, WaitQ(SemWaiters(i))); q != [] && q[0] < |s.k.tcbs|
    ensures GiveSeen([SemGiven(i)] + WakeEvents(s, SemWaiters(i)), i, j, true, false)
  {
    var wake := WakeEvents(s, SemWaiters(i));
    LockConcat([SemGiven(i)], wake, j);
    OneLockEvent(SemGiven(i), j);
    WakeProjections(s, SemWaiters(i), j);
  }

  /** A give that finds nobody waiting. */
  lemma StoreProjections(i: nat, j: nat, full: bool)
    ensures GiveSeen([SemGiven(i)] + (if full then [SemLost(i)] else []), i, j, false, full)
  {
    LockConcat([SemGiven(i)], [SemLost(i)], j);
    OneLockEvent(SemGiven(i), j);
    OneLockEvent(SemLost(i), j);
    assert [SemGiven(i)] + [] == [SemGiven(i)];
  }

  lemma GiveEvents(s: Sys, i: nat)
    requires Shape(s) && i < |s.sems|
    ensures var m, w := s.sems[i], SemWaiters(i);
            && (m.waiters != [] ==> m.waiters[0] < |s.k.tcbs| && SemGiveCs(s, i).evs == [SemGiven(i)] + WakeEvents(s, w))
            && (m.waiters == [] ==> SemGiveCs(s, i).evs == [SemGiven(i)] + if m.count >= m.max then [SemLost(i)] else [])
  {
    HeadIsATask(s, SemWaiters(i));
  }

  lemma GiveProjections(s: Sys, i: nat, j: nat)
    requires Shape(s) && i < |s.sems|
    ensures var m := s.sems[i];
            GiveSeen(SemGiveCs(s, i).evs, i, j, m.waiters != [], m.waiters == [] && m.count >= m.max)
  {
    GiveEvents(s, i);
    if s.sems[i].waiters != [] {
      HandProjections(s, i, j);
    } else {
      StoreProjections(i, j, s.sems[i].count >= s.sems[i].max);
    }
  }

  lemma GiveLockStep(s: Sys, s1: Sys, i: nat)
    requires Shape(s) && SemsOk(s) && i < |s.sems| && s1.sems == SemGiveCs(s, i).s.sems && s1.mutexes == s.mutexes
    ensures LockStep(s, Out(s1, SemGiveCs(s, i).evs))
  {
    var o := Out(s1, SemGiveCs(s, i).evs);
    forall j
      ensures 0 <= j < |s.sems| ==> SemStep(s, o, j)
      ensures 0 <= j < |s.mutexes| ==> MutexStep(s, o, j)
    {
      if 0 <= j {
        GiveProjections(s, i, j);
      }
    }
  }

  /** A release without waiters. */
  lemma DropStep(s: Sys, s1: Sys, i: nat)
    requires i < |s.mutexes| == |s1.mutexes| && 0 <= s.mutexes[i].owner && s1.mutexes[i].owner == NO_OWNER
    requires s.mutexes[i].waiters == []
    requires SameLocks(s, s1.(mutexes := s1.mutexes[i := s.mutexes[i]]))
    ensures LockStep(s, Out(s1, [MutexDropped(i, s.mutexes[i].owner)]))
  {
    var e := MutexDropped(i, s.mutexes[i].owner);
    var o := Out(s1, [e]);
    forall j
      ensures 0 <= j < |s.sems| ==> SemStep(s, o, j)
      ensures 0 <= j < |s.mutexes| ==> MutexStep(s, o, j)
    {
      if 0 <= j {
        OneLockEvent(e, j);
        assert [e][1..] == [];
        if j < |s.mutexes| && j != i {
          assert s1.(mutexes := s1.mutexes[i := s.mutexes[i]]).mutexes[j] == s1.mutexes[j];
        }
      }
    }
  }

  function HandoffEvents(s: Sys, i: nat, h: nat): seq<Event>
    requires 0 <= s.k.current && h < |s.k.tcbs|
  {
    [MutexDropped(i, s.k.current), Popped(WaitQ(MutexWaiters(i)), h), ReadyEvent(s, h), MutexGained(i, h)]
  }

  lemma HandoffIsNoSemEvent(s: Sys, i: nat, h: nat, j: nat)
    requires 0 <= s.k.current && h < |s.k.tcbs|
    ensures var evs := HandoffEvents(s, i, h);
            Gives(evs, j) == 0 && Takes(evs, j) == 0 && Losses(evs, j) == 0 && Handed(evs, j) == []
  {
    var evs := HandoffEvents(s, i, h);
    FlatMapNone(evs, GivenOf(j));
    FlatMapNone(evs, TakenOf(j));
    FlatMapNone(evs, LostOf(j));
    FlatMapNone(evs, PopOf(WaitQ(SemWaiters(j))));
  }

  lemma HandoffOwnership(s: Sys, i: nat, h: nat, j: nat)
    requires 0 <= s.k.current && h < |s.k.tcbs|
    ensures var evs := HandoffEvents(s, i, h);
            && FlatMap(evs, OwnershipOf(j)) == (if j == i then [MutexDropped(i, s.k.current), MutexGained(i, h)] else [])
            && Gains(evs, j) == (if j == i then [h] else []) && Pops(evs, WaitQ(MutexWaiters(j))) == (if j == i then [h] else [])
  {
    var evs := HandoffEvents(s, i, h);
    FlatMapFour(evs[0], evs[1], evs[2], evs[3], OwnershipOf(j));
    FlatMapFour(evs[0], evs[1], evs[2], evs[3], GainOf(j));
    FlatMapFour(evs[0], evs[1], evs[2], evs[3], PopOf(WaitQ(MutexWaiters(j))));
  }

  lemma ReplayHandoff(i: nat, c: nat, h: nat)
    ensures Replay(c, [MutexDropped(i, c), MutexGained(i, h)]) == Some(h)
  {
    var a := [MutexDropped(i, c), MutexGained(i, h)];
    assert a[1..] == [MutexGained(i, h)] && a[1..][1..] == [];
    assert Replay(NO_OWNER, a[1..]) == Replay(h, a[1..][1..]);
  }

  /** The owner passes the mutex to the head of the waiters. */
  lemma HandoffLockStep(s: Sys, s1: Sys, i: nat, h: nat)
    requires i < |s.mutexes| == |s1.mutexes| && 0 <= s.k.current == s.mutexes[i].owner && h < |s.k.tcbs|
    requires s1.mutexes[i].owner == h && s1.sems == s.sems
    requires forall j :: 0 <= j < |s.mutexes| && j != i ==> s1.mutexes[j] == s.mutexes[j]
    ensures LockStep(s, Out(s1, HandoffEvents(s, i, h)))
  {
    var o := Out(s1, HandoffEvents(s, i, h));
    forall j
      ensures 0 <= j < |s.sems| ==> SemStep(s, o, j)
      ensures 0 <= j < |s.mutexes| ==> MutexStep(s, o, j)
    {
      if 0 <= j {
        HandoffIsNoSemEvent(s, i, h, j);
        HandoffOwnership(s, i, h, j);
        ReplayHandoff(i, s.k.current, h);
      }
    }
  }

  lemma UnlockLockStep(s: Sys, i: nat)
    requires Shape(s) && MutexesOk(s) && Guard(s, MutexUnlockCall(i))
    ensures LockStep(s, MutexUnlockNext(s, i))
  {
    var m, w, c, o := s.mutexes[i], MutexWaiters(i), s.k.current, MutexUnlockNext(s, i);
    HeadIsATask(s, w);
    if !m.locked || m.owner != c {
      AsideLockStep(s, o);
    } else if m.waiters == [] {
      DropStep(s, o.s, i);
    } else {
      assert o.evs == HandoffEvents(s, i, m.waiters[0]);
      HandoffLockStep(s, o.s, i, m.waiters[0]);
    }
  }

  lemma RecheckLockStep(s: Sys, i: nat)
    requires Shape(s) && SemsOk(s) && MutexesOk(s) && s.k.HasCurrent()
    ensures i < |s.sems| ==> LockStep(s, SemRecheckNext(s, i))
    ensures i < |s.mutexes| ==> LockStep(s, MutexRecheckNext(s, i))
  {
    if i < |s.sems| {
      if s.sems[i].count > 0 {
        TakeStep(s, SemRecheckNext(s, i).s, i);
      } else {
        AsideLockStep(s, SemRecheckNext(s, i));
      }
    }
    if i < |s.mutexes| {
      assert MutexOk(s.mutexes[i], |s.k.tcbs|);
      if !s.mutexes[i].locked {
        GainStep(s, MutexRecheckNext(s, i).s, i, s.k.current);
      } else {
        AsideLockStep(s, MutexRecheckNext(s, i));
      }
    }
  }

  lemma QueueEventsAside(s: Sys, i: nat, item: Item, who: Caller)
    requires Shape(s) && i < |s.queues|
    ensures AllLockAside(SendEvents(s, i, item, who))
    ensures s.queues[i].items != [] ==> AllLockAside(RecvEvents(s, i, who))
  {
    HeadIsATask(s, Receivers(i));
    HeadIsATask(s, Senders(i));
    LockAsideConcat([Enqueued(i, item, who)], WakeEvents(s, Receivers(i)));
    if s.queues[i].items != [] {
      LockAsideConcat([Dequeued(i, s.queues[i].items[0], who)], WakeEvents(s, Senders(i)));
    }
  }

  /** The parts of Continue that concern no lock. */
  lemma OtherContinueLockStep(s: Sys)
    requires Shape(s) && Guard(s, Continue)
    requires var pc := s.pcs[s.k.current]; !pc.SemRecheck? && !pc.MutexRecheck?
    ensures LockStep(s, ContinueNext(s))
  {
    var pc := s.pcs[s.k.current];
    if !pc.MustYield? {
      QueueEventsAside(s, pc.i, if pc.SendTry? || pc.SendRecheck? then pc.item else [], Blocking(s.k.current));
    }
    AsideLockStep(s, ContinueNext(s));
  }

  lemma TryLockStep(s: Sys, st: Step)
    requires Shape(s) && SemsOk(s) && MutexesOk(s) && Guard(s, st)
    requires st.SemTryTakeCall? || st.SemTakeCall? || st.MutexTryLockCall? || st.MutexLockCall?
    ensures LockStep(s, Next(s, st))
  {
    var o := Next(s, st);
    if o.evs == [] {
      AsideLockStep(s, o);
    } else if st.SemTryTakeCall? || st.SemTakeCall? {
      TakeStep(s, o.s, st.i);
    } else {
      assert MutexOk(s.mutexes[st.i], |s.k.tcbs|);
      GainStep(s, o.s, st.i, s.k.current);
    }
  }

  lemma SendStepLocks(s: Sys, st: Step)
    requires Shape(s) && Guard(s, st) && (st.TrySendCall? || st.SendCall? || st.SendIsr?)
    ensures LockStep(s, Next(s, st))
  {
    var who := if st.SendIsr? then Isr else if st.SendCall? then Blocking(s.k.current) else Trying(s.k.current);
    QueueEventsAside(s, st.i, st.item, who);
    AsideLockStep(s, Next(s, st));
  }

  lemma RecvStepLocks(s: Sys, st: Step)
    requires Shape(s) && Guard(s, st) && (st.TryRecvCall? || st.RecvCall? || st.RecvIsr?)
    ensures LockStep(s, Next(s, st))
  {
    var who := if st.RecvIsr? then Isr else if st.RecvCall? then Blocking(s.k.current) else Trying(s.k.current);
    QueueEventsAside(s, st.i, [], who);
    AsideLockStep(s, Next(s, st));
  }

  lemma {:induction false} DueEventsAside(k: KState, i: nat)
    requires i <= |k.tcbs|
    ensures AllLockAside(DueEvents(k, i))
    decreases |k.tcbs| - i
  {
    if i < |k.tcbs| {
      DueEventsAside(k, i + 1);
    }
  }

  lemma TickLocks(s: Sys, handlerPends: bool)
    requires Shape(s)
    ensures LockStep(s, TickNext(s, handlerPends))
  {
    DueEventsAside(AdvanceTick(s.k), 0);
    AsideLockStep(s, TickNext(s, handlerPends));
  }

  lemma PendSvLocks(s: Sys, oldSp: nat)
    requires Shape(s) && (oldSp != 0 ==> s.k.HasCurrent())
    ensures LockStep(s, PendSvNext(s, oldSp))
  {
    LockAsideConcat(SwitchOutEvents(s, oldSp), PickEvents(SwitchOut(s.k, oldSp)));
    AsideLockStep(s, PendSvNext(s, oldSp));
  }

  lemma QuietStepLocks(s: Sys, st: Step)
    requires Shape(s) && Guard(s, st)
    requires st.Start? || st.LoopClear? || st.Dispatch? || st.SchedEntry? || st.TaskYield? || st.TaskSleep?
             || st.TaskDelete? || st.TaskCreate? || st.SetPolicy? || st.SetDefaultSlice?
    ensures LockStep(s, Next(s, st))
  {
    AsideLockStep(s, Next(s, st));
  }

  lemma StepLocks(s: Sys, st: Step)
    requires Shape(s) && SemsOk(s) && MutexesOk(s) && Guard(s, st)
    ensures LockStep(s, Next(s, st))
  {
    if st.Continue? {
      var pc := s.pcs[s.k.current];
      if pc.SemRecheck? || pc.MutexRecheck? {
        RecheckLockStep(s, pc.i);
      } else {
        OtherContinueLockStep(s);
      }
    } else if st.SemGiveCall? || st.SemGiveIsr? {
      GiveLockStep(s, Next(s, st).s, st.i);
    } else if st.MutexUnlockCall? {
      UnlockLockStep(s, st.i);
    } else if st.SemTryTakeCall? || st.SemTakeCall? || st.MutexTryLockCall? || st.MutexLockCall? {
      TryLockStep(s, st);
    } else if st.TrySendCall? || st.SendCall? || st.SendIsr? {
      SendStepLocks(s, st);
    } else if st.TryRecvCall? || st.RecvCall? || st.RecvIsr? {
      RecvStepLocks(s, st);
    } else if st.Tick? {
      TickLocks(s, st.handlerPends);
    } else if st.PendSv? {
      PendSvLocks(s, st.oldSp);
    } else {
      QuietStepLocks(s, st);
    }
  }

  // ------------------------------------------------------------------ runs

  /** Token ledger and service of waiters over a run. */
  ghost predicate SemRun(s: Sys, o: Out, i: nat)
    requires i < |s.sems| == |o.s.sems|
  {
    && o.s.sems[i].max == s.sems[i].max
    && o.s.sems[i].count + Takes(o.evs, i) + |Handed(o.evs, i)| + Losses(o.evs, i) == s.sems[i].count + Gives(o.evs, i)
    && |Handed(o.evs, i)| <= Gives(o.evs, i)
    && (|Handed(o.evs, i)| >= |s.sems[i].waiters| || |Handed(o.evs, i)| == Gives(o.evs, i))
  }

  ghost predicate AgreeOnPrefix<T(!new)>(a: seq<T>, b: seq<T>) {
    forall j :: 0 <= j < |a| && j < |b| ==> a[j] == b[j]
  }

  ghost predicate MutexRun(s: Sys, o: Out, i: nat)
    requires i < |s.mutexes| == |o.s.mutexes|
  {
    && Replay(s.mutexes[i].owner, FlatMap(o.evs, OwnershipOf(i))) == Some(o.s.mutexes[i].owner)
    && AgreeOnPrefix(Gains(o.evs, i), s.mutexes[i].waiters)
    && |Passed(o.evs, i)| <= |Gains(o.evs, i)|
    && (|Passed(o.evs, i)| >= |s.mutexes[i].waiters| || Passed(o.evs, i) == Gains(o.evs, i))
  }

  ghost predicate LockRun(s: Sys, o: Out) {
    && |o.s.sems| == |s.sems| && |o.s.mutexes| == |s.mutexes|
    && (forall i :: 0 <= i < |s.sems| ==> SemRun(s, o, i))
    && (forall i :: 0 <= i < |s.mutexes| ==> MutexRun(s, o, i))
  }

  /** One more step in front of a run. */
  lemma SemRunCompose(s: Sys, o1: Out, o2: Out, i: nat)
    requires i < |s.sems| == |o1.s.sems| == |o2.s.sems|
    requires SemStep(s, o1, i) && SemRun(o1.s, o2, i) && Fifo(s, o1, WaitQ(SemWaiters(i)))
    ensures SemRun(s, Out(o2.s, o1.evs + o2.evs), i)
  {
    LockConcat(o1.evs, o2.evs, i);
    assert |Handed(o1.evs, i)| + |o1.s.sems[i].waiters| == |s.sems[i].waiters| + |Pushes(o1.evs, WaitQ(SemWaiters(i)))|;
  }

  lemma MutexRunCompose(s: Sys, o1: Out, o2: Out, i: nat)
    requires i < |s.mutexes| == |o1.s.mutexes| == |o2.s.mutexes|
    requires MutexStep(s, o1, i) && MutexRun(o1.s, o2, i) && Fifo(s, o1, WaitQ(MutexWaiters(i)))
    ensures MutexRun(s, Out(o2.s, o1.evs + o2.evs), i)
  {
    LockConcat(o1.evs, o2.evs, i);
    ReplayConcat(s.mutexes[i].owner, FlatMap(o1.evs, OwnershipOf(i)), FlatMap(o2.evs, OwnershipOf(i)));
    if s.mutexes[i].waiters != [] {
      TurnsCompose(s.mutexes[i].waiters, o1.s.mutexes[i].waiters, Pushes(o1.evs, WaitQ(MutexWaiters(i))),
                   Gains(o1.evs, i), Gains(o2.evs, i), Passed(o2.evs, i));
    }
  }

  /** Waiters w are served by the gains g1 of one step, w1 wait after it, and a run serves those with g2. */
  lemma TurnsCompose(w: seq<nat>, w1: seq<nat>, added: seq<nat>, g1: seq<nat>, g2: seq<nat>, p2: seq<nat>)
    requires g1 + w1 == w + added && AgreeOnPrefix(g2, w1) && (|p2| >= |w1| || p2 == g2)
    ensures AgreeOnPrefix(g1 + g2, w) && (|g1 + p2| >= |w| || g1 + p2 == g1 + g2)
  {
    forall j | 0 <= j < |g1 + g2| && j < |w|
      ensures (g1 + g2)[j] == w[j]
    {
      assert (g1 + w1)[j] == w[j];
    }
  }

  lemma LockRunCompose(s: Sys, o1: Out, o2: Out)
    requires LockStep(s, o1) && LockRun(o1.s, o2) && FifoAll(s, o1)
    ensures LockRun(s, Out(o2.s, o1.evs + o2.evs))
  {
    var o := Out(o2.s, o1.evs + o2.evs);
    forall i | 0 <= i < |s.sems|
      ensures SemRun(s, o, i)
    {
      assert SemStep(s, o1, i) && SemRun(o1.s, o2, i) && Fifo(s, o1, WaitQ(SemWaiters(i)));
      SemRunCompose(s, o1, o2, i);
    }
    forall i | 0 <= i < |s.mutexes|
      ensures MutexRun(s, o, i)
    {
      assert MutexStep(s, o1, i) && MutexRun(o1.s, o2, i) && Fifo(s, o1, WaitQ(MutexWaiters(i)));
      MutexRunCompose(s, o1, o2, i);
    }
  }

  lemma {:induction false} RunLocks(s: Sys, steps: seq<Step>)
    requires Inv(s) && ValidRun(s, steps)
    ensures LockRun(s, Run(s, steps))
    decreases |steps|
  {
    if steps != [] {
      var o := Next(s, steps[0]);
      StepLocks(s, steps[0]);
      StepFifo(s, steps[0]);
      StepKeepsInv(s, steps[0]);
      RunLocks(o.s, steps[1..]);
      LockRunCompose(s, o, Run(o.s, steps[1..]));
    }
  }

  /** Conservation: tokens stored + tokens taken + direct handoffs = tokens at the start + gives - gives
      lost to saturation, over any run; the store never exceeds the maximum and is empty while anybody waits. */
  lemma TokensConserved(s: Sys, steps: seq<Step>, i: nat)
    requires Inv(s) && ValidRun(s, steps) && i < |s.sems|
    ensures |Run(s, steps).s.sems| == |s.sems|
    ensures var o := Run(s, steps); var m := o.s.sems[i];
            && m.count + Takes(o.evs, i) + |Handed(o.evs, i)| == s.sems[i].count + Gives(o.evs, i) - Losses(o.evs, i)
            && m.count <= m.max == s.sems[i].max && (m.waiters != [] ==> m.count == 0)
  {
    assert SemRun(s, Run(s, steps), i) by { RunLocks(s, steps); }
    RunKeepsInv(s, steps);
  }

  /** The taker at position k of semaphore i after a run with outcome o: still BLOCKED and moved up one
      place per give, or, from the (k+1)-th give on, the one that give was handed to. */
  ghost predicate ServedInTurn(s: Sys, o: Out, i: nat, k: nat)
    requires i < |s.sems| == |o.s.sems| && k < |s.sems[i].waiters|
  {
    var t, g := s.sems[i].waiters[k], Gives(o.evs, i);
    if g <= k then
      k - g < |o.s.sems[i].waiters| && o.s.sems[i].waiters[k - g] == t && t < |o.s.k.tcbs| && o.s.k.tcbs[t].state.Blocked?
    else k < |Handed(o.evs, i)| && Handed(o.evs, i)[k] == t
  }

  lemma ServedByCount(s: Sys, o: Out, i: nat, k: nat)
    requires i < |s.sems| == |o.s.sems| && k < |s.sems[i].waiters| && SemRun(s, o, i)
    requires MovedUp(s.sems[i].waiters, Handed(o.evs, i), o.s.sems[i].waiters, k)
    requires forall t :: t in o.s.sems[i].waiters ==> t < |o.s.k.tcbs| && o.s.k.tcbs[t].state.Blocked?
    ensures ServedInTurn(s, o, i, k)
  {
    if Gives(o.evs, i) <= k {
      assert o.s.sems[i].waiters[k - Gives(o.evs, i)] in o.s.sems[i].waiters;
    }
  }

  /** Grant order: the taker parked at position k stays BLOCKED, moving up one place per give on that
      semaphore, until the (k+1)-th give, which is handed to it; nothing else resumes it before. */
  lemma GrantedByTheKthGive(s: Sys, steps: seq<Step>, i: nat, k: nat)
    requires Inv(s) && ValidRun(s, steps) && i < |s.sems| && k < |s.sems[i].waiters|
    ensures |Run(s, steps).s.sems| == |s.sems| && ServedInTurn(s, Run(s, steps), i, k)
  {
    var o, q := Run(s, steps), WaitQ(SemWaiters(i));
    assert |o.s.sems| == |s.sems| && SemRun(s, o, i) by { RunLocks(s, steps); }
    assert MovedUp(Q(s, q), Pops(o.evs, q), Q(o.s, q), k) by { NoOvertaking(s, steps, q, k); }
    forall t | t in Q(o.s, q)
      ensures t < |o.s.k.tcbs| && o.s.k.tcbs[t].state.Blocked?
    {
      RunKeepsInv(s, steps);
      assert QueueOk(o.s, q);
    }
    ServedByCount(s, o, i, k);
  }

  /** Mutual exclusion: the history of gains and drops of a mutex is legal over any run and ends with
      the task named by `owner`; so between a gain and the drop by the same task nobody else gains it. */
  lemma MutualExclusion(s: Sys, steps: seq<Step>, i: nat)
    requires InitialSys(s) && ValidRun(s, steps) && i < |s.mutexes|
    ensures |Run(s, steps).s.mutexes| == |s.mutexes|
    ensures var o := Run(s, steps); var m := o.s.mutexes[i];
            && Replay(NO_OWNER, FlatMap(o.evs, OwnershipOf(i))) == Some(m.owner)
            && (m.locked <==> m.owner != NO_OWNER) && (m.waiters != [] ==> m.locked)
  {
    InitInv(s);
    assert MutexRun(s, Run(s, steps), i) by { RunLocks(s, steps); }
    RunKeepsInv(s, steps);
    assert MutexOk(Run(s, steps).s.mutexes[i], |Run(s, steps).s.k.tcbs|);
  }

  /** No barging: from any state, the next owners of a contested mutex are its waiters in the order they
      parked; no lock or try_lock of another task comes first. */
  lemma WaitersOwnInOrder(s: Sys, steps: seq<Step>, i: nat, j: nat)
    requires Inv(s) && ValidRun(s, steps) && i < |s.mutexes| && j < |s.mutexes[i].waiters|
    requires j < |Gains(Run(s, steps).evs, i)|
    ensures Gains(Run(s, steps).evs, i)[j] == s.mutexes[i].waiters[j]
  {
    assert MutexRun(s, Run(s, steps), i) by { RunLocks(s, steps); }
  }

  /** Gains and drops of a legal history that takes the mutex from one holder to another. */
  predicate Balanced(holder: int, gains: seq<nat>, drops: nat, last: int) {
    && (if holder == NO_OWNER then 0 else 1) + |gains| == drops + (if last == NO_OWNER then 0 else 1)
    && (last != NO_OWNER ==> last == if gains == [] then holder else gains[|gains| - 1])
  }

  lemma OwnershipHead(evs: seq<Event>, i: nat)
    requires evs != []
    ensures FlatMap(evs, OwnershipOf(i)) == OwnershipOf(i)(evs[0]) + FlatMap(evs[1..], OwnershipOf(i))
    ensures Gains(evs, i) == GainOf(i)(evs[0]) + Gains(evs[1..], i)
    ensures Drops(evs, i) == |DropOf(i)(evs[0])| + Drops(evs[1..], i)
  {
  }

  /** In a legal history gains and drops alternate, and the holder is the last to have gained. */
  lemma {:induction false} ReplayBalance(holder: int, evs: seq<Event>, i: nat)
    requires Replay(holder, FlatMap(evs, OwnershipOf(i))).Some?
    ensures Balanced(holder, Gains(evs, i), Drops(evs, i), Replay(holder, FlatMap(evs, OwnershipOf(i))).value)
    decreases |evs|
  {
    if evs != [] {
      var e, rest := evs[0], FlatMap(evs[1..], OwnershipOf(i));
      OwnershipHead(evs, i);
      if (e.MutexGained? || e.MutexDropped?) && e.i == i {
        assert ([e] + rest)[1..] == rest;
        ReplayBalance(if e.MutexGained? then e.id as int else NO_OWNER, evs[1..], i);
      } else {
        assert [] + rest == rest;
        ReplayBalance(holder, evs[1..], i);
      }
    }
  }

  /** The locker at position k of mutex i after a run with outcome o: still BLOCKED and moved up one place
      per drop; owner from the (k+1)-th drop until the next. */
  ghost predicate OwnsInTurn(s: Sys, o: Out, i: nat, k: nat)
    requires i < |s.mutexes| == |o.s.mutexes| && k < |s.mutexes[i].waiters|
  {
    var t, d, m := s.mutexes[i].waiters[k], Drops(o.evs, i), o.s.mutexes[i];
    && (d <= k ==> k - d < |m.waiters| && m.waiters[k - d] == t && t < |o.s.k.tcbs| && o.s.k.tcbs[t].state.Blocked?)
    && (d > k ==> k < |Gains(o.evs, i)| && Gains(o.evs, i)[k] == t)
    && (d == k + 1 ==> m.locked && m.owner == t)
  }

  lemma OwnsByCount(s: Sys, o: Out, i: nat, k: nat)
    requires i < |s.mutexes| == |o.s.mutexes| && k < |s.mutexes[i].waiters| && MutexRun(s, o, i)
    requires MovedUp(s.mutexes[i].waiters, Passed(o.evs, i), o.s.mutexes[i].waiters, k)
    requires s.mutexes[i].owner != NO_OWNER && MutexOk(o.s.mutexes[i], |o.s.k.tcbs|)
    requires forall t :: t in o.s.mutexes[i].waiters ==> t < |o.s.k.tcbs| && o.s.k.tcbs[t].state.Blocked?
    ensures OwnsInTurn(s, o, i, k)
  {
    ReplayBalance(s.mutexes[i].owner, o.evs, i);
    var d, w := Drops(o.evs, i), o.s.mutexes[i].waiters;
    if d <= k {
      assert |Passed(o.evs, i)| == d;
      assert w[k - d] in w;
    }
  }

  /** Ownership order: the locker parked at position k stays BLOCKED, moving up one place per drop of that
      mutex, until the (k+1)-th drop, which makes it the owner; it stays owner until the next drop. */
  lemma OwnsByTheKthDrop(s: Sys, steps: seq<Step>, i: nat, k: nat)
    requires Inv(s) && ValidRun(s, steps) && i < |s.mutexes| && k < |s.mutexes[i].waiters|
    ensures |Run(s, steps).s.mutexes| == |s.mutexes| && OwnsInTurn(s, Run(s, steps), i, k)
  {
    var o, q := Run(s, steps), WaitQ(MutexWaiters(i));
    assert |o.s.mutexes| == |s.mutexes| && MutexRun(s, o, i) by { RunLocks(s, steps); }
    assert MovedUp(Q(s, q), Pops(o.evs, q), Q(o.s, q), k) by { NoOvertaking(s, steps, q, k); }
    forall t | t in Q(o.s, q)
      ensures t < |o.s.k.tcbs| && o.s.k.tcbs[t].state.Blocked?
    {
      RunKeepsInv(s, steps);
      assert QueueOk(o.s, q);
    }
    assert MutexOk(s.mutexes[i], |s.k.tcbs|);
    assert MutexOk(o.s.mutexes[i], |o.s.k.tcbs|) by { RunKeepsInv(s, steps); }
    OwnsByCount(s, o, i, k);
  }
}
