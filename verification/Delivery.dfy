/** Message queues deliver every item exactly once and in order, and a blocking call performs its
    operation exactly once however often it retries. */
module Delivery {
  import opened Sequences
  import opened KernelSpec
  import opened PrimitivesSpec
  import opened KernelSystem
  import opened Placement
  import opened WakeUps
  import opened Invariants

  function EnqOf(i: nat): Event -> seq<Item> {
    (e: Event) => if e.Enqueued? && e.i == i then [e.item] else []
  }

  function DeqOf(i: nat): Event -> seq<Item> {
    (e: Event) => if e.Dequeued? && e.i == i then [e.item] else []
  }

  function SendCallOf(t: nat): Event -> seq<(nat, Item)> {
    (e: Event) => if e.SendCalled? && e.id == t then [(e.i, e.item)] else []
  }

  function SentOf(t: nat): Event -> seq<(nat, Item)> {
    (e: Event) => if e.Enqueued? && e.who == Blocking(t) then [(e.i, e.item)] else []
  }

  function RecvCallOf(t: nat): Event -> seq<nat> {
    (e: Event) => if e.RecvCalled? && e.id == t then [e.i] else []
  }

  function ReceivedOf(t: nat): Event -> seq<nat> {
    (e: Event) => if e.Dequeued? && e.who == Blocking(t) then [e.i] else []
  }

  /** The blocking send a task still has to perform. */
  function SendOpen(pc: Pc): seq<(nat, Item)> {
    if pc.SendTry? || pc.SendRecheck? || pc.SendParked? then [(pc.i, pc.item)] else []
  }

  function RecvOpen(pc: Pc): seq<nat> {
    if pc.RecvTry? || pc.RecvRecheck? || pc.RecvParked? then [pc.i] else []
  }

  /** Received items followed by queued items equal previously queued items followed by sent items. */
  ghost predicate ItemsKept(s: Sys, o: Out, i: nat)
    requires i < |s.queues| == |o.s.queues|
  {
    FlatMap(o.evs, DeqOf(i)) + o.s.queues[i].items == s.queues[i].items + FlatMap(o.evs, EnqOf(i))
  }

  /** Calls open before, then calls made, equal calls performed, then calls still open. */
  ghost predicate CallsKept(s: Sys, o: Out, t: nat)
    requires t < |s.pcs| == |o.s.pcs|
  {
    && SendOpen(s.pcs[t]) + FlatMap(o.evs, SendCallOf(t)) == FlatMap(o.evs, SentOf(t)) + SendOpen(o.s.pcs[t])
    && RecvOpen(s.pcs[t]) + FlatMap(o.evs, RecvCallOf(t)) == FlatMap(o.evs, ReceivedOf(t)) + RecvOpen(o.s.pcs[t])
  }

  ghost predicate Ledger(s: Sys, o: Out) {
    && |o.s.queues| == |s.queues| && |o.s.pcs| == |s.pcs|
    && (forall i :: 0 <= i < |s.queues| ==> ItemsKept(s, o, i))
    && (forall t :: 0 <= t < |s.pcs| ==> CallsKept(s, o, t))
  }

  lemma LedgerCompose(s: Sys, o1: Out, o2: Out)
    requires Ledger(s, o1) && Ledger(o1.s, o2)
    ensures Ledger(s, Out(o2.s, o1.evs + o2.evs))
  {
    var o := Out(o2.s, o1.evs + o2.evs);
    forall i | 0 <= i < |s.queues|
      ensures ItemsKept(s, o, i)
    {
      assert ItemsKept(s, o1, i) && ItemsKept(o1.s, o2, i);
      FlatMapConcat(o1.evs, o2.evs, EnqOf(i));
      FlatMapConcat(o1.evs, o2.evs, DeqOf(i));
      Chain(s.queues[i].items, o1.s.queues[i].items, o2.s.queues[i].items,
            FlatMap(o1.evs, EnqOf(i)), FlatMap(o2.evs, EnqOf(i)), FlatMap(o1.evs, DeqOf(i)), FlatMap(o2.evs, DeqOf(i)));
    }
    forall t | 0 <= t < |s.pcs|
      ensures CallsKept(s, o, t)
    {
      assert CallsKept(s, o1, t) && CallsKept(o1.s, o2, t);
      FlatMapConcat(o1.evs, o2.evs, SendCallOf(t));
      FlatMapConcat(o1.evs, o2.evs, SentOf(t));
      FlatMapConcat(o1.evs, o2.evs, RecvCallOf(t));
      FlatMapConcat(o1.evs, o2.evs, ReceivedOf(t));
      Chain(SendOpen(s.pcs[t]), SendOpen(o1.s.pcs[t]), SendOpen(o2.s.pcs[t]),
            FlatMap(o1.evs, SendCallOf(t)), FlatMap(o2.evs, SendCallOf(t)), FlatMap(o1.evs, SentOf(t)), FlatMap(o2.evs, SentOf(t)));
      Chain(RecvOpen(s.pcs[t]), RecvOpen(o1.s.pcs[t]), RecvOpen(o2.s.pcs[t]),
            FlatMap(o1.evs, RecvCallOf(t)), FlatMap(o2.evs, RecvCallOf(t)), FlatMap(o1.evs, ReceivedOf(t)), FlatMap(o2.evs, ReceivedOf(t)));
    }
  }

  // ------------------------------------------------------------------ single entries

  /** Events that are no entry in the ledger. */
  predicate Aside(e: Event) {
    !e.Enqueued? && !e.Dequeued? && !e.SendCalled? && !e.RecvCalled?
  }

  ghost predicate AllAside(evs: seq<Event>) { forall j :: 0 <= j < |evs| ==> Aside(evs[j]) }

  ghost predicate SameItems(s: Sys, s1: Sys) {
    |s1.queues| == |s.queues| && forall i :: 0 <= i < |s.queues| ==> s1.queues[i].items == s.queues[i].items
  }

  predicate SameOpen(p: Pc, p1: Pc) { SendOpen(p1) == SendOpen(p) && RecvOpen(p1) == RecvOpen(p) }

  ghost predicate AllSameOpen(s: Sys, s1: Sys) {
    |s1.pcs| == |s.pcs| && forall t :: 0 <= t < |s.pcs| ==> SameOpen(s.pcs[t], s1.pcs[t])
  }

  lemma AsideLedger(s: Sys, o: Out)
    requires SameItems(s, o.s) && AllSameOpen(s, o.s) && AllAside(o.evs)
    ensures Ledger(s, o)
  {
    forall i | 0 <= i < |s.queues|
      ensures ItemsKept(s, o, i)
    {
      FlatMapNone(o.evs, EnqOf(i));
      FlatMapNone(o.evs, DeqOf(i));
    }
    forall t | 0 <= t < |s.pcs|
      ensures CallsKept(s, o, t)
    {
      assert SameOpen(s.pcs[t], o.s.pcs[t]);
      FlatMapNone(o.evs, SendCallOf(t));
      FlatMapNone(o.evs, SentOf(t));
      FlatMapNone(o.evs, RecvCallOf(t));
      FlatMapNone(o.evs, ReceivedOf(t));
    }
  }

  /** One event seen through the six projections. */
  lemma OneEntry(e: Event, i: nat, t: nat)
    ensures FlatMap([e], EnqOf(i)) == EnqOf(i)(e) && FlatMap([e], DeqOf(i)) == DeqOf(i)(e)
    ensures FlatMap([e], SendCallOf(t)) == SendCallOf(t)(e) && FlatMap([e], SentOf(t)) == SentOf(t)(e)
    ensures FlatMap([e], RecvCallOf(t)) == RecvCallOf(t)(e) && FlatMap([e], ReceivedOf(t)) == ReceivedOf(t)(e)
  {
    FlatMapOne(e, EnqOf(i));
    FlatMapOne(e, DeqOf(i));
    FlatMapOne(e, SendCallOf(t));
    FlatMapOne(e, SentOf(t));
    FlatMapOne(e, RecvCallOf(t));
    FlatMapOne(e, ReceivedOf(t));
  }

  /** An item goes in; if a blocking call put it there, that call is closed. */
  lemma EnqLedger(s: Sys, s1: Sys, i: nat, item: Item, who: Caller)
    requires i < |s.queues| == |s1.queues| && |s1.pcs| == |s.pcs|
    requires s1.queues[i].items == s.queues[i].items + [item]
    requires forall j :: 0 <= j < |s.queues| && j != i ==> s1.queues[j].items == s.queues[j].items
    requires forall t :: 0 <= t < |s.pcs| ==>
               if who == Blocking(t) then
                 SendOpen(s.pcs[t]) == [(i, item)] && SendOpen(s1.pcs[t]) == [] && RecvOpen(s.pcs[t]) == RecvOpen(s1.pcs[t])
               else SameOpen(s.pcs[t], s1.pcs[t])
    ensures Ledger(s, Out(s1, [Enqueued(i, item, who)]))
  {
    var e := Enqueued(i, item, who);
    var o := Out(s1, [e]);
    forall j | 0 <= j < |s.queues|
      ensures ItemsKept(s, o, j)
    {
      OneEntry(e, j, 0);
    }
    forall t | 0 <= t < |s.pcs|
      ensures CallsKept(s, o, t)
    {
      OneEntry(e, i, t);
    }
  }

  lemma DeqLedger(s: Sys, s1: Sys, i: nat, who: Caller)
    requires i < |s.queues| == |s1.queues| && |s1.pcs| == |s.pcs| && s.queues[i].items != []
    requires s1.queues[i].items == s.queues[i].items[1..]
    requires forall j :: 0 <= j < |s.queues| && j != i ==> s1.queues[j].items == s.queues[j].items
    requires forall t :: 0 <= t < |s.pcs| ==>
               if who == Blocking(t) then
                 RecvOpen(s.pcs[t]) == [i] && RecvOpen(s1.pcs[t]) == [] && SendOpen(s.pcs[t]) == SendOpen(s1.pcs[t])
               else SameOpen(s.pcs[t], s1.pcs[t])
    ensures Ledger(s, Out(s1, [Dequeued(i, s.queues[i].items[0], who)]))
  {
    var e := Dequeued(i, s.queues[i].items[0], who);
    var o := Out(s1, [e]);
    forall j | 0 <= j < |s.queues|
      ensures ItemsKept(s, o, j)
    {
      OneEntry(e, j, 0);
      assert s.queues[i].items == [s.queues[i].items[0]] + s.queues[i].items[1..];
    }
    forall t | 0 <= t < |s.pcs|
      ensures CallsKept(s, o, t)
    {
      OneEntry(e, i, t);
    }
  }

  // ------------------------------------------------------------------ steps

  /** A wake-up neither opens nor closes a call. */
  lemma WakeSameOpen(s: Sys, w: WaitId)
    requires Placed(s)
    requires Q(s, WaitQ(w)) != [] ==> Q(s, WaitQ(w))[0] < |s.pcs|
    ensures forall t :: 0 <= t < |s.pcs| ==> SameOpen(s.pcs[t], WakePcs(s, w)[t])
    ensures Q(s, WaitQ(w)) != [] && s.ctl.Running? ==> Q(s, WaitQ(w))[0] != s.k.current
  {
    if Q(s, WaitQ(w)) != [] {
      HeadIsParked(s, w);
    }
  }

  lemma WakeEventsAside(s: Sys, w: WaitId)
    requires Q(s, WaitQ(w)) != [] ==> Q(s, WaitQ(w))[0] < |s.k.tcbs|
    ensures AllAside(WakeEvents(s, w))
  {
  }

  /** Entering an item into the ledger, followed by the wake-up it causes. */
  lemma EnqThenWake(s: Sys, s1: Sys, i: nat, item: Item, who: Caller, wake: seq<Event>)
    requires i < |s.queues| == |s1.queues| && |s1.pcs| == |s.pcs| && AllAside(wake)
    requires s1.queues[i].items == s.queues[i].items + [item]
    requires forall j :: 0 <= j < |s.queues| && j != i ==> s1.queues[j].items == s.queues[j].items
    requires forall t :: 0 <= t < |s.pcs| ==>
               if who == Blocking(t) then
                 SendOpen(s.pcs[t]) == [(i, item)] && SendOpen(s1.pcs[t]) == [] && RecvOpen(s.pcs[t]) == RecvOpen(s1.pcs[t])
               else SameOpen(s.pcs[t], s1.pcs[t])
    ensures Ledger(s, Out(s1, [Enqueued(i, item, who)] + wake))
  {
    EnqLedger(s, s1, i, item, who);
    AsideLedger(s1, Out(s1, wake));
    LedgerCompose(s, Out(s1, [Enqueued(i, item, who)]), Out(s1, wake));
  }

  lemma DeqThenWake(s: Sys, s1: Sys, i: nat, who: Caller, wake: seq<Event>)
    requires i < |s.queues| == |s1.queues| && |s1.pcs| == |s.pcs| && s.queues[i].items != [] && AllAside(wake)
    requires s1.queues[i].items == s.queues[i].items[1..]
    requires forall j :: 0 <= j < |s.queues| && j != i ==> s1.queues[j].items == s.queues[j].items
    requires forall t :: 0 <= t < |s.pcs| ==>
               if who == Blocking(t) then
                 RecvOpen(s.pcs[t]) == [i] && RecvOpen(s1.pcs[t]) == [] && SendOpen(s.pcs[t]) == SendOpen(s1.pcs[t])
               else SameOpen(s.pcs[t], s1.pcs[t])
    ensures Ledger(s, Out(s1, [Dequeued(i, s.queues[i].items[0], who)] + wake))
  {
    DeqLedger(s, s1, i, who);
    AsideLedger(s1, Out(s1, wake));
    LedgerCompose(s, Out(s1, [Dequeued(i, s.queues[i].items[0], who)]), Out(s1, wake));
  }

  /** A blocking send that finds room performs its one enqueue. */
  lemma BlockingSendLedger(s: Sys, i: nat, item: Item, pc: Pc)
    requires Placed(s) && Shape(s) && s.ctl.Running? && i < |s.queues| && (pc.User? || pc.MustYield?)
    requires SendOpen(s.pcs[s.k.current]) == [(i, item)] && RecvOpen(s.pcs[s.k.current]) == []
    ensures Ledger(s, Out(At(AfterSend(s, i, item), pc), SendEvents(s, i, item, Blocking(s.k.current))))
  {
    HeadIsATask(s, Receivers(i));
    WakeSameOpen(s, Receivers(i));
    WakeEventsAside(s, Receivers(i));
    EnqThenWake(s, At(AfterSend(s, i, item), pc), i, item, Blocking(s.k.current), WakeEvents(s, Receivers(i)));
  }

  lemma BlockingRecvLedger(s: Sys, i: nat, pc: Pc)
    requires Placed(s) && Shape(s) && s.ctl.Running? && i < |s.queues| && s.queues[i].items != [] && (pc.User? || pc.MustYield?)
    requires RecvOpen(s.pcs[s.k.current]) == [i] && SendOpen(s.pcs[s.k.current]) == []
    ensures Ledger(s, Out(At(AfterRecv(s, i), pc), RecvEvents(s, i, Blocking(s.k.current))))
  {
    HeadIsATask(s, Senders(i));
    WakeSameOpen(s, Senders(i));
    WakeEventsAside(s, Senders(i));
    DeqThenWake(s, At(AfterRecv(s, i), pc), i, Blocking(s.k.current), WakeEvents(s, Senders(i)));
  }

  /** Sends and receives that are not blocking calls: try calls and interrupts. */
  lemma TrySendLedger(s: Sys, s1: Sys, i: nat, item: Item, who: Caller)
    requires Placed(s) && Shape(s) && i < |s.queues| && !who.Blocking?
    requires s1.queues == AfterSend(s, i, item).queues && AllSameOpen(AfterSend(s, i, item), s1)
    ensures Ledger(s, Out(s1, SendEvents(s, i, item, who)))
  {
    HeadIsATask(s, Receivers(i));
    WakeSameOpen(s, Receivers(i));
    WakeEventsAside(s, Receivers(i));
    EnqThenWake(s, s1, i, item, who, WakeEvents(s, Receivers(i)));
  }

  lemma TryRecvLedger(s: Sys, s1: Sys, i: nat, who: Caller)
    requires Placed(s) && Shape(s) && i < |s.queues| && s.queues[i].items != [] && !who.Blocking?
    requires s1.queues == AfterRecv(s, i).queues && AllSameOpen(AfterRecv(s, i), s1)
    ensures Ledger(s, Out(s1, RecvEvents(s, i, who)))
  {
    HeadIsATask(s, Senders(i));
    WakeSameOpen(s, Senders(i));
    WakeEventsAside(s, Senders(i));
    DeqThenWake(s, s1, i, who, WakeEvents(s, Senders(i)));
  }

  lemma SendAttemptLedger(s: Sys, i: nat, item: Item, woken: bool)
    requires Placed(s) && Shape(s) && s.ctl.Running? && i < |s.queues|
    requires s.pcs[s.k.current] == SendTry(i, item, woken)
    ensures Ledger(s, SendAttempt(s, i, item, woken))
  {
    if s.queues[i].Full() {
      AsideLedger(s, SendAttempt(s, i, item, woken));
    } else {
      BlockingSendLedger(s, i, item, AfterWake(s.queues[i].receivers != []));
    }
  }

  lemma RecvAttemptLedger(s: Sys, i: nat, woken: bool)
    requires Placed(s) && Shape(s) && s.ctl.Running? && i < |s.queues|
    requires s.pcs[s.k.current] == RecvTry(i, woken)
    ensures Ledger(s, RecvAttempt(s, i, woken))
  {
    if s.queues[i].items == [] {
      AsideLedger(s, RecvAttempt(s, i, woken));
    } else {
      BlockingRecvLedger(s, i, AfterWake(s.queues[i].senders != []));
    }
  }

  lemma SendRecheckLedger(s: Sys, i: nat, item: Item, woken: bool)
    requires Placed(s) && Shape(s) && s.ctl.Running? && i < |s.queues|
    requires s.pcs[s.k.current] == SendRecheck(i, item, woken)
    ensures Ledger(s, SendRecheckNext(s, i, item))
  {
    if s.queues[i].Full() {
      AsideLedger(s, SendRecheckNext(s, i, item));
    } else {
      BlockingSendLedger(s, i, item, User);
    }
  }

  lemma RecvRecheckLedger(s: Sys, i: nat, woken: bool)
    requires Placed(s) && Shape(s) && s.ctl.Running? && i < |s.queues|
    requires s.pcs[s.k.current] == RecvRecheck(i, woken)
    ensures Ledger(s, RecvRecheckNext(s, i))
  {
    if s.queues[i].items == [] {
      AsideLedger(s, RecvRecheckNext(s, i));
    } else {
      BlockingRecvLedger(s, i, User);
    }
  }

  lemma ContinueLedger(s: Sys)
    requires Placed(s) && Shape(s) && Guard(s, Continue)
    ensures Ledger(s, ContinueNext(s))
  {
    var pc := s.pcs[s.k.current];
    if pc.SendTry? {
      SendAttemptLedger(s, pc.i, pc.item, pc.woken);
    } else if pc.RecvTry? {
      RecvAttemptLedger(s, pc.i, pc.woken);
    } else if pc.SendRecheck? {
      SendRecheckLedger(s, pc.i, pc.item, pc.woken);
    } else if pc.RecvRecheck? {
      RecvRecheckLedger(s, pc.i, pc.woken);
    } else {
      LockContinueLedger(s);
    }
  }

  /** Calling hrt_queue_send: the call is opened, then its first attempt made. */
  lemma SendCallLedger(s: Sys, i: nat, item: Item)
    requires Placed(s) && Shape(s) && Guard(s, SendCall(i, item))
    ensures Ledger(s, Next(s, SendCall(i, item)))
  {
    var c := s.k.current;
    var s1 := At(s, SendTry(i, item, false));
    AtKeepsPlaced(s, SendTry(i, item, false));
    PlacedShape(s1);
    OpenCall(s, s1, SendCalled(c, i, item));
    SendAttemptLedger(s1, i, item, false);
    if s.queues[i].receivers != [] {
      HeadIsParked(s, Receivers(i));
    }
    assert SendAttempt(s1, i, item, false) == SendAttempt(s, i, item, false);
    LedgerCompose(s, Out(s1, [SendCalled(c, i, item)]), SendAttempt(s1, i, item, false));
  }

  lemma RecvCallLedger(s: Sys, i: nat)
    requires Placed(s) && Shape(s) && Guard(s, RecvCall(i))
    ensures Ledger(s, Next(s, RecvCall(i)))
  {
    var c := s.k.current;
    var s1 := At(s, RecvTry(i, false));
    AtKeepsPlaced(s, RecvTry(i, false));
    PlacedShape(s1);
    OpenCall(s, s1, RecvCalled(c, i));
    RecvAttemptLedger(s1, i, false);
    if s.queues[i].senders != [] {
      HeadIsParked(s, Senders(i));
    }
    assert RecvAttempt(s1, i, false) == RecvAttempt(s, i, false);
    LedgerCompose(s, Out(s1, [RecvCalled(c, i)]), RecvAttempt(s1, i, false));
  }

  lemma OpenCall(s: Sys, s1: Sys, e: Event)
    requires s.k.HasCurrent() && |s.pcs| == |s.k.tcbs| && s.pcs[s.k.current].User?
    requires (e.SendCalled? && e.id == s.k.current && s1 == At(s, SendTry(e.i, e.item, false)))
             || (e.RecvCalled? && e.id == s.k.current && s1 == At(s, RecvTry(e.i, false)))
    ensures Ledger(s, Out(s1, [e]))
  {
    forall i | 0 <= i < |s.queues|
      ensures ItemsKept(s, Out(s1, [e]), i)
    {
      OneEntry(e, i, 0);
    }
    forall t | 0 <= t < |s.pcs|
      ensures CallsKept(s, Out(s1, [e]), t)
    {
      OneEntry(e, 0, t);
    }
  }

  lemma TrySendStepLedger(s: Sys, i: nat, item: Item)
    requires Placed(s) && Shape(s) && UserCode(s) && i < |s.queues|
    ensures Ledger(s, Out(At(AfterSend(s, i, item), AfterWake(s.queues[i].receivers != [])), SendEvents(s, i, item, Trying(s.k.current))))
  {
    var s1 := AfterSend(s, i, item);
    if s.queues[i].receivers != [] { HeadIsParked(s, Receivers(i)); }
    assert s1.pcs[s.k.current].User?;
    TrySendLedger(s, At(s1, AfterWake(s.queues[i].receivers != [])), i, item, Trying(s.k.current));
  }

  lemma TryRecvStepLedger(s: Sys, i: nat)
    requires Placed(s) && Shape(s) && UserCode(s) && i < |s.queues| && s.queues[i].items != []
    ensures Ledger(s, Out(At(AfterRecv(s, i), AfterWake(s.queues[i].senders != [])), RecvEvents(s, i, Trying(s.k.current))))
  {
    var s1 := AfterRecv(s, i);
    if s.queues[i].senders != [] { HeadIsParked(s, Senders(i)); }
    assert s1.pcs[s.k.current].User?;
    TryRecvLedger(s, At(s1, AfterWake(s.queues[i].senders != [])), i, Trying(s.k.current));
  }

  lemma TryStepLedger(s: Sys, st: Step)
    requires Placed(s) && Shape(s) && Guard(s, st) && (st.TrySendCall? || st.TryRecvCall?)
    ensures Ledger(s, Next(s, st))
  {
    if st.TrySendCall? && !s.queues[st.i].Full() {
      TrySendStepLedger(s, st.i, st.item);
    } else if st.TryRecvCall? && s.queues[st.i].items != [] {
      TryRecvStepLedger(s, st.i);
    } else {
      AsideLedger(s, Next(s, st));
    }
  }

  lemma IsrStepLedger(s: Sys, st: Step)
    requires Placed(s) && Shape(s) && Guard(s, st) && (st.SendIsr? || st.RecvIsr?)
    ensures Ledger(s, Next(s, st))
  {
    var o := Next(s, st);
    if o.evs == [] {
      AsideLedger(s, o);
    } else if st.SendIsr? {
      TrySendLedger(s, o.s, st.i, st.item, Isr);
    } else {
      TryRecvLedger(s, o.s, st.i, Isr);
    }
  }

  /** What a wake-up leaves as it was: open calls, and the task that causes it. */
  ghost predicate CleanWake(s: Sys, w: WaitId)
    requires Shape(s)
  {
    HeadIsATask(s, w);
    && (forall t :: 0 <= t < |s.pcs| ==> SameOpen(s.pcs[t], WakePcs(s, w)[t]))
    && (Q(s, WaitQ(w)) != [] && s.ctl.Running? ==> Q(s, WaitQ(w))[0] != s.k.current)
  }

  lemma WakesAreClean(s: Sys, w: WaitId)
    requires Placed(s) && Shape(s)
    ensures CleanWake(s, w)
  {
    HeadIsATask(s, w);
    WakeSameOpen(s, w);
  }

  lemma AsideConcat(a: seq<Event>, b: seq<Event>)
    requires AllAside(a) && AllAside(b)
    ensures AllAside(a + b)
  {
  }

  lemma GiveStepLedger(s: Sys, st: Step)
    requires Shape(s) && Guard(s, st) && (st.SemGiveCall? || st.SemGiveIsr?) && CleanWake(s, SemWaiters(st.i))
    ensures Ledger(s, Next(s, st))
  {
    var o := Next(s, st);
    GiveEventsAside(s, st.i);
    assert SameItems(s, o.s);
    AsideLedger(s, o);
  }

  lemma GiveEventsAside(s: Sys, i: nat)
    requires Shape(s) && i < |s.sems|
    ensures AllAside(SemGiveCs(s, i).evs)
  {
    HeadIsATask(s, SemWaiters(i));
    var lost := if s.sems[i].waiters == [] && s.sems[i].count >= s.sems[i].max then [SemLost(i)] else [];
    AsideConcat([SemGiven(i)], WakeEvents(s, SemWaiters(i)));
    AsideConcat([SemGiven(i)] + WakeEvents(s, SemWaiters(i)), lost);
  }

  lemma UnlockLedger(s: Sys, i: nat)
    requires Shape(s) && Guard(s, MutexUnlockCall(i)) && CleanWake(s, MutexWaiters(i))
    ensures Ledger(s, MutexUnlockNext(s, i))
  {
    var o, w := MutexUnlockNext(s, i), MutexWaiters(i);
    HeadIsATask(s, w);
    if s.mutexes[i].locked && s.mutexes[i].owner == s.k.current && s.mutexes[i].waiters != [] {
      AsideConcat([MutexDropped(i, s.k.current)], WakeEvents(s, w));
      AsideConcat([MutexDropped(i, s.k.current)] + WakeEvents(s, w), [MutexGained(i, s.mutexes[i].waiters[0])]);
      AsideLedger(s, o);
    } else {
      AsideLedger(s, o);
    }
  }

  lemma {:induction false} DueEventsArePushes(k: KState, i: nat)
    requires i <= |k.tcbs|
    ensures forall e :: e in DueEvents(k, i) ==> e.Pushed? && e.q.ReadyQ?
    decreases |k.tcbs| - i
  {
    if i < |k.tcbs| {
      DueEventsArePushes(k, i + 1);
    }
  }

  lemma TickLedger(s: Sys, handlerPends: bool)
    requires Shape(s)
    ensures Ledger(s, TickNext(s, handlerPends))
  {
    DueEventsArePushes(AdvanceTick(s.k), 0);
    var due := DueEvents(AdvanceTick(s.k), 0);
    assert forall j :: 0 <= j < |due| ==> due[j] in due;
    AsideLedger(s, TickNext(s, handlerPends));
  }

  lemma PendSvLedger(s: Sys, oldSp: nat)
    requires Shape(s) && (oldSp != 0 ==> s.k.HasCurrent())
    ensures Ledger(s, PendSvNext(s, oldSp))
  {
    AsideConcat(SwitchOutEvents(s, oldSp), PickEvents(SwitchOut(s.k, oldSp)));
    AsideLedger(s, PendSvNext(s, oldSp));
  }

  lemma LockStepLedger(s: Sys, st: Step)
    requires Shape(s) && Guard(s, st)
    requires st.SemTryTakeCall? || st.SemTakeCall? || st.MutexTryLockCall? || st.MutexLockCall?
    ensures Ledger(s, Next(s, st))
  {
    AsideLedger(s, Next(s, st));
  }

  lemma QuietStepLedger(s: Sys, st: Step)
    requires Shape(s) && Guard(s, st)
    requires var id := LowestUnused(s.k.tcbs, 0); id < |s.k.tcbs| ==> s.pcs[id].User?
    requires st.Start? || st.LoopClear? || st.Dispatch? || st.SchedEntry?
             || st.TaskYield? || st.TaskSleep? || st.TaskDelete? || st.TaskCreate? || st.SetPolicy? || st.SetDefaultSlice?
    ensures Ledger(s, Next(s, st))
  {
    assert Next(s, st).s.queues == s.queues;
    AsideLedger(s, Next(s, st));
  }

  lemma LockContinueLedger(s: Sys)
    requires Shape(s) && Guard(s, Continue)
    requires var pc := s.pcs[s.k.current]; pc.MustYield? || pc.SemRecheck? || pc.MutexRecheck?
    ensures Ledger(s, ContinueNext(s))
  {
    var pc := s.pcs[s.k.current];
    if pc.MutexRecheck? {
      MutexRecheckLedger(s, pc.i);
    } else {
      AsideLedger(s, ContinueNext(s));
    }
  }

  lemma MutexRecheckLedger(s: Sys, i: nat)
    requires Shape(s) && s.ctl.Running? && i < |s.mutexes| && s.pcs[s.k.current] == MutexRecheck(i)
    ensures Ledger(s, MutexRecheckNext(s, i))
  {
    AsideLedger(s, MutexRecheckNext(s, i));
  }

  lemma StepLedger(s: Sys, st: Step)
    requires Placed(s) && Shape(s) && Guard(s, st)
    ensures Ledger(s, Next(s, st))
  {
    if st.Continue? {
      ContinueLedger(s);
    } else if st.SendCall? {
      SendCallLedger(s, st.i, st.item);
    } else if st.RecvCall? {
      RecvCallLedger(s, st.i);
    } else if st.TrySendCall? || st.TryRecvCall? {
      TryStepLedger(s, st);
    } else if st.SendIsr? || st.RecvIsr? {
      IsrStepLedger(s, st);
    } else if st.SemGiveCall? || st.SemGiveIsr? {
      WakesAreClean(s, SemWaiters(st.i));
      GiveStepLedger(s, st);
    } else if st.MutexUnlockCall? {
      WakesAreClean(s, MutexWaiters(st.i));
      UnlockLedger(s, st.i);
    } else if st.Tick? {
      TickLedger(s, st.handlerPends);
    } else if st.PendSv? {
      PendSvLedger(s, st.oldSp);
    } else if st.SemTryTakeCall? || st.SemTakeCall? || st.MutexTryLockCall? || st.MutexLockCall? {
      LockStepLedger(s, st);
    } else {
      QuietStepLedger(s, st);
    }
  }

  // ------------------------------------------------------------------ runs

  lemma {:induction false} RunLedger(s: Sys, steps: seq<Step>)
    requires Inv(s) && ValidRun(s, steps)
    ensures Ledger(s, Run(s, steps))
    decreases |steps|
  {
    if steps == [] {
      AsideLedger(s, Run(s, steps));
    } else {
      StepLedger(s, steps[0]);
      StepKeepsInv(s, steps[0]);
      RunLedger(Next(s, steps[0]).s, steps[1..]);
      LedgerCompose(s, Next(s, steps[0]), Run(Next(s, steps[0]).s, steps[1..]));
    }
  }

  /** FIFO delivery: over any run of a fresh system the items received from queue i, in order, followed
      by those still in it are exactly the items sent to it, in order; at most `capacity` are in it. */
  lemma DeliveredInOrder(s: Sys, steps: seq<Step>, i: nat)
    requires InitialSys(s) && ValidRun(s, steps) && i < |s.queues|
    ensures |Run(s, steps).s.queues| == |s.queues|
    ensures FlatMap(Run(s, steps).evs, DeqOf(i)) + Run(s, steps).s.queues[i].items == FlatMap(Run(s, steps).evs, EnqOf(i))
    ensures |Run(s, steps).s.queues[i].items| <= Run(s, steps).s.queues[i].capacity
  {
    InitInv(s);
    var o := Run(s, steps);
    assert ItemsKept(s, o, i) by { RunLedger(s, steps); }
    assert s.queues[i].items == [];
    RunKeepsInv(s, steps);
    assert MsgOk(o.s, i);
  }

  /** A blocking send enqueues exactly once despite retries: the (queue, item) pairs task t passed to
      hrt_queue_send are, in order, those its calls enqueued, followed by the one still open if any. */
  lemma BlockingSendsOnce(s: Sys, steps: seq<Step>, t: nat)
    requires InitialSys(s) && ValidRun(s, steps) && t < |s.pcs|
    ensures |Run(s, steps).s.pcs| == |s.pcs|
    ensures FlatMap(Run(s, steps).evs, SendCallOf(t))
            == FlatMap(Run(s, steps).evs, SentOf(t)) + SendOpen(Run(s, steps).s.pcs[t])
    ensures FlatMap(Run(s, steps).evs, RecvCallOf(t))
            == FlatMap(Run(s, steps).evs, ReceivedOf(t)) + RecvOpen(Run(s, steps).s.pcs[t])
  {
    InitInv(s);
    var o := Run(s, steps);
    assert CallsKept(s, o, t) by { RunLedger(s, steps); }
    assert s.pcs[t].User?;
    assert [] + FlatMap(o.evs, SendCallOf(t)) == FlatMap(o.evs, SendCallOf(t));
    assert [] + FlatMap(o.evs, RecvCallOf(t)) == FlatMap(o.evs, RecvCallOf(t));
  }
}
