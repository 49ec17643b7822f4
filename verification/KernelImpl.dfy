/** The kernel's globals as an object updated in place: task table, ready rings, current task, tick.
    Each method is proved to take `view`, the value its fields represent, through the function of
    KernelSpec that bears the same meaning. */
module KernelImpl {
  import opened KernelSpec
  import opened Rings
  import Spec = KernelSpec

  /** The wake loop begun on k has reached slot i with kernel k1. */
  ghost predicate HalfWoken(k: KState, k1: KState, i: nat, woke: bool)
    requires i <= |k.tcbs|
  {
    && |k1.tcbs| == |k.tcbs| && k1.tick == k.tick && k1.pending == k.pending
    && WakeDue(k1, i) == WakeDue(k, 0)
    && (woke <==> exists j :: 0 <= j < i && IsDue(k.tcbs[j], k.tick))
    && forall j :: i <= j < |k.tcbs| ==> k1.tcbs[j] == k.tcbs[j]
  }

  lemma HalfWokenStep(k: KState, k1: KState, i: nat, woke: bool)
    requires i < |k.tcbs| && HalfWoken(k, k1, i, woke)
    ensures if IsDue(k1.tcbs[i], k1.tick) then HalfWoken(k, Spec.MakeReady(k1, i), i + 1, true)
            else HalfWoken(k, k1, i + 1, woke)
  {
    assert k1.tcbs[i] == k.tcbs[i];
  }

  /** The cleared ready queues. */
  method NewRings(tasks: nat, classes: nat) returns (rings: seq<IdRing>)
    requires 2 <= tasks <= 255
    ensures |rings| == classes
    ensures forall i :: 0 <= i < |rings| ==> fresh(rings[i]) && fresh(rings[i].slots)
    ensures forall i :: 0 <= i < |rings| ==> rings[i].Valid() && rings[i].slots.Length == tasks && rings[i].Contents() == []
    ensures forall i, j :: 0 <= i < j < |rings| ==> rings[i] != rings[j] && rings[i].slots != rings[j].slots
  {
    rings := [];
    while |rings| < classes
      invariant |rings| <= classes
      invariant forall i :: 0 <= i < |rings| ==> fresh(rings[i]) && fresh(rings[i].slots)
      invariant forall i :: 0 <= i < |rings| ==>
        rings[i].Valid() && rings[i].slots.Length == tasks && rings[i].Contents() == []
      invariant forall i, j :: 0 <= i < j < |rings| ==> rings[i] != rings[j] && rings[i].slots != rings[j].slots
    {
      var r := new IdRing(tasks);
      rings := rings + [r];
    }
  }

  class Kernel {
    const tcbs: array<Tcb>
    const ready: seq<IdRing>
    var current: int
    var tick: uint32
    var tickHz: uint32
    var policy: Policy
    var defaultSlice: uint16
    var pending: bool
    ghost var view: KState

    /** Every object the kernel owns. */
    ghost function Footprint(): set<object> {
      {this, tcbs} + (set r | r in ready) + (set r | r in ready :: r.slots)
    }

    /** The scalar fields and the task table agree with the view. */
    ghost predicate FieldsAgree()
      reads this, tcbs
    {
      && view.tcbs == tcbs[..] && view.current == current && view.tick == tick && view.tickHz == tickHz
      && view.policy == policy && view.defaultSlice == defaultSlice && view.pending == pending
    }

    /** The rings are separate objects over separate arrays and hold the view's queues. */
    ghost predicate RingsAgree()
      reads this, ready, set r | r in ready :: r.slots
    {
      && |view.rq| == |ready|
      && (forall i, j :: 0 <= i < j < |ready| ==> ready[i] != ready[j] && ready[i].slots != ready[j].slots)
      && (forall p :: 0 <= p < |ready| ==>
            ready[p].Valid() && ready[p].slots.Length == tcbs.Length && ready[p].Contents() == view.rq[p])
    }

    ghost predicate Valid()
      reads this, tcbs, ready, set r | r in ready :: r.slots
    {
      2 <= tcbs.Length <= 255 && -1 <= current < tcbs.Length && FieldsAgree() && RingsAgree()
    }

    /** hrt_init. */
    constructor (tasks: nat, classes: nat, cfg: Option<Config>)
      requires 2 <= tasks <= 255
      ensures Valid() && fresh(Footprint()) && view == Init(tasks, classes, cfg, false)
      ensures tcbs.Length == tasks && |ready| == classes && tick == 0 && current == -1 && !pending
      ensures forall t :: 0 <= t < tasks ==> tcbs[t].state.Unused?
      ensures forall p :: 0 <= p < classes ==> ready[p].Contents() == []
      ensures cfg.None? ==> tickHz == 1000 && policy.PriorityRoundRobin? && defaultSlice == 5
      ensures cfg.Some? ==> policy == cfg.value.policy
      ensures cfg.Some? ==> tickHz == (if cfg.value.tickHz == 0 then 1000 else cfg.value.tickHz)
      ensures cfg.Some? ==> defaultSlice == (if cfg.value.defaultSlice == 0 then 5 else cfg.value.defaultSlice)
    {
      var rings := NewRings(tasks, classes);
      ready := rings;
      tcbs := new Tcb[tasks](_ => Tcb(Unused, 0, 0, 0, 0, 0));
      current := -1;
      tick := 0;
      var c := if cfg.None? then Config(1000, PriorityRoundRobin, 5) else cfg.value;
      tickHz := if c.tickHz == 0 then 1000 else c.tickHz;
      policy := c.policy;
      defaultSlice := if c.defaultSlice == 0 then 5 else c.defaultSlice;
      pending := false;
      view := Init(tasks, classes, cfg, false);
    }

    /** hrt__pend_context_switch. */
    method PendContextSwitch()
      requires Valid()
      modifies this
      ensures Valid() && view == old(view).(pending := true)
    {
      pending := true;
      view := view.(pending := true);
    }

    /** The port clears its flag when it honours the request. */
    method ClearPending()
      requires Valid()
      modifies this
      ensures Valid() && view == old(view).(pending := false)
    {
      pending := false;
      view := view.(pending := false);
    }

    /** hrt__set_current. */
    method SetCurrent(id: int)
      requires Valid() && -1 <= id < tcbs.Length
      modifies this
      ensures Valid() && view == old(view).(current := id)
    {
      current := id;
      view := view.(current := id);
    }

    /** A write to one task control block. */
    method SetTcb(id: nat, t: Tcb)
      requires Valid() && id < tcbs.Length
      modifies this, tcbs
      ensures Valid() && view == old(view).(tcbs := old(view).tcbs[id := t])
      ensures tcbs[..] == old(tcbs[..])[id := t]
    {
      tcbs[id] := t;
      view := view.(tcbs := view.tcbs[id := t]);
    }

    /** rq_push. */
    method RqPush(p: nat, id: nat)
      requires Valid() && id < tcbs.Length
      modifies Footprint() - {tcbs}
      ensures Valid() && view == Spec.RqPush(old(view), p, id)
      ensures p < |ready| ==> ready[p].Contents() == if old(ready[p].count) == tcbs.Length then old(ready[p].Contents())
                                                     else old(ready[p].Contents()) + [id]
    {
      if p >= |ready| {
        return;
      }
      ready[p].Push(id);
      forall q | 0 <= q < |ready| && q != p
        ensures ready[q].Valid() && ready[q].Contents() == view.rq[q]
      {
      }
      view := Spec.RqPush(view, p, id);
    }

    /** rq_pop. */
    method RqPop(p: nat) returns (id: int)
      requires Valid() && p < |ready|
      modifies Footprint() - {tcbs}
      ensures Valid()
      ensures old(view).rq[p] == [] ==> id == -1 && view == old(view)
      ensures old(view).rq[p] != [] ==>
        && id == old(view).rq[p][0] < tcbs.Length
        && view == old(view).(rq := old(view).rq[p := old(view).rq[p][1..]])
    {
      id := ready[p].Pop();
      if id >= 0 {
        view := view.(rq := view.rq[p := view.rq[p][1..]]);
      }
    }

    /** hrt__make_ready. */
    method MakeReady(id: nat)
      requires Valid() && id < tcbs.Length
      modifies Footprint()
      ensures Valid() && view == Spec.MakeReady(old(view), id)
      ensures tcbs[id] == old(tcbs[id]).(state := Ready, sliceLeft := tcbs[id].sliceCfg)
    {
      var t := tcbs[id];
      SetTcb(id, t.(state := Ready, sliceLeft := t.sliceCfg));
      RqPush(t.prio, id);
    }

    /** hrt__pick_next_ready: pops the classes in order until one yields a task. */
    method PickNextReady() returns (id: int)
      requires Valid()
      modifies Footprint() - {tcbs}
      ensures Valid() && (view, id) == Spec.PickNextReady(old(view)) && 0 <= id < tcbs.Length
    {
      id := tcbs.Length - 1;
      var p := 0;
      while p < |ready|
        invariant 0 <= p <= |ready| && Valid() && view == old(view)
        invariant forall c :: 0 <= c < p ==> view.rq[c] == []
        invariant id == tcbs.Length - 1
      {
        var candidate := RqPop(p);
        if candidate >= 0 {
          return candidate;
        }
        p := p + 1;
      }
    }

    /** hrt_create_task; frame is the stack pointer the port prepares. */
    method CreateTask(a: CreateArgs) returns (id: int)
      requires Valid()
      modifies Footprint()
      ensures Valid() && (view, id) == Spec.CreateTask(old(view), a)
      ensures id == -1 <==> !a.hasEntry || !a.hasStack || a.words < 64
                            || forall t :: 0 <= t < tcbs.Length ==> !old(tcbs[t]).state.Unused?
      ensures id == -1 ==> view == old(view)
    {
      if !a.Acceptable() {
        return -1;
      }
      var i := 0;
      while i < tcbs.Length && !tcbs[i].state.Unused?
        invariant 0 <= i <= tcbs.Length
        invariant forall j :: 0 <= j < i ==> !tcbs[j].state.Unused?
      {
        i := i + 1;
      }
      assert i == LowestUnused(view.tcbs, 0);
      if i == tcbs.Length {
        return -1;
      }
      var slice := if a.attr.Some? then a.attr.value.timeslice else defaultSlice;
      SetTcb(i, Tcb(Ready, a.Prio(), slice, slice, 0, a.frame));
      RqPush(a.Prio(), i);
      id := i;
    }

    /** hrt_yield up to the hop into the scheduler. */
    method Yield()
      requires Valid() && 0 <= current
      modifies Footprint()
      ensures Valid() && view == YieldCurrent(old(view)) && pending
      ensures tcbs[current] == if old(tcbs[current].state.Ready?) then old(tcbs[current].(sliceLeft := tcbs[current].sliceCfg))
                               else old(tcbs[current])
    {
      var t := tcbs[current];
      if t.state.Ready? {
        SetTcb(current, t.(sliceLeft := t.sliceCfg));
        RqPush(t.prio, current);
      }
      PendContextSwitch();
    }

    /** hrt_sleep up to the hop into the scheduler. */
    method Sleep(ms: uint32)
      requires Valid() && 0 <= current
      modifies this, tcbs
      ensures Valid() && view == SleepCurrent(old(view), ms) && pending
      ensures tcbs[current].state.Sleep? && tcbs[current].wakeTick == (tick + MsToTicks(ms, tickHz)) % TWO32
      ensures tcbs[current] == old(tcbs[current]).(state := tcbs[current].state, wakeTick := tcbs[current].wakeTick)
    {
      var ticks := MsToTicks(ms, tickHz);
      SetTcb(current, tcbs[current].(wakeTick := (tick + ticks) % TWO32, state := TaskState.Sleep));
      PendContextSwitch();
    }

    /** hrt_task_delete up to the hop into the scheduler. */
    method TaskDelete()
      requires Valid()
      modifies this, tcbs
      ensures Valid() && view == DeleteCurrent(old(view))
      ensures 0 <= current < tcbs.Length - 1 ==> tcbs[current] == old(tcbs[current]).(state := Unused) && pending
      ensures !(0 <= current < tcbs.Length - 1) ==> view == old(view)
    {
      if current < 0 || current == tcbs.Length - 1 {
        return;
      }
      SetTcb(current, tcbs[current].(state := Unused));
      PendContextSwitch();
    }

    /** What a blocking primitive does to its caller once it is queued. */
    method BlockCurrent()
      requires Valid() && 0 <= current
      modifies this, tcbs
      ensures Valid() && view == Spec.BlockCurrent(old(view)) && pending
      ensures tcbs[current] == old(tcbs[current]).(state := Blocked)
    {
      SetTcb(current, tcbs[current].(state := Blocked));
      PendContextSwitch();
    }

    /** hrt__on_scheduler_entry. */
    method OnSchedulerEntry()
      requires Valid() && 0 <= current
      modifies Footprint()
      ensures Valid() && view == Spec.OnSchedulerEntry(old(view))
      ensures var t := old(tcbs[current]);
              if t.state.Ready? && policy != Priority && t.sliceCfg > 0 && t.sliceLeft == 0
              then tcbs[current] == t.(sliceLeft := t.sliceCfg) else view == old(view)
    {
      var t := tcbs[current];
      if !t.state.Ready? {
        return;
      }
      if policy.Sliced() && t.sliceCfg > 0 {
        if t.sliceLeft == 0 {
          SetTcb(current, t.(sliceLeft := t.sliceCfg));
          RqPush(t.prio, current);
        }
      }
    }

    /** hrt__schedule: returns the stack pointer of the task it makes current. */
    method Schedule(oldSp: nat) returns (sp: nat)
      requires Valid() && (oldSp != 0 ==> 0 <= current)
      modifies Footprint()
      ensures Valid() && view == Spec.Schedule(old(view), oldSp)
      ensures view.HasCurrent() && sp == view.tcbs[view.current].sp
    {
      if oldSp != 0 {
        var t := tcbs[current].(sp := oldSp);
        SetTcb(current, t);
        if t.state.Ready? {
          RqPush(t.prio, current);
        }
      }
      assert view == SwitchOut(old(view), oldSp);
      var next := PickNextReady();
      SetCurrent(next);
      sp := tcbs[next].sp;
    }

    /** One turn of the wake loop begun on k. */
    method WakeSlot(ghost k: KState, i: nat, woke: bool) returns (woke1: bool)
      requires Valid() && i < tcbs.Length == |k.tcbs| && HalfWoken(k, view, i, woke)
      modifies Footprint()
      ensures Valid() && HalfWoken(k, view, i + 1, woke1)
    {
      HalfWokenStep(k, view, i, woke);
      woke1 := woke;
      if tcbs[i].state.Sleep? && Signed32(tcbs[i].wakeTick - tick) <= 0 {
        MakeReady(i);
        woke1 := true;
      }
    }

    /** The wake loop of hrt__tick_isr; says whether it woke anybody. */
    method WakeSleepers() returns (woke: bool)
      requires Valid()
      modifies Footprint()
      ensures Valid() && view == WakeDue(old(view), 0) && (woke <==> AnyDue(old(view)))
      ensures pending == old(pending)
    {
      woke := false;
      var i := 0;
      while i < tcbs.Length
        invariant 0 <= i <= tcbs.Length == |old(view).tcbs| && Valid() && HalfWoken(old(view), view, i, woke)
      {
        woke := WakeSlot(old(view), i, woke);
        i := i + 1;
      }
    }

    /** The slice accounting of hrt__tick_isr; says whether the slice ran out. */
    method ChargeCurrent() returns (expired: bool)
      requires Valid()
      modifies this, tcbs
      ensures Valid() && view == ChargeSlice(old(view)) && (expired <==> SliceExpires(old(view)))
    {
      expired := false;
      if 0 <= current {
        var t := tcbs[current];
        if t.state.Ready? && policy.Sliced() && t.sliceCfg > 0 && t.sliceLeft > 0 {
          SetTcb(current, t.(sliceLeft := t.sliceLeft - 1));
          expired := t.sliceLeft == 1;
        }
      }
    }

    /** hrt__tick_isr. */
    method TickIsr()
      requires Valid()
      modifies Footprint()
      ensures Valid() && view == Spec.TickIsr(old(view))
    {
      tick := (tick + 1) % TWO32;
      view := AdvanceTick(view);
      var woke := WakeSleepers();
      var expired := ChargeCurrent();
      if woke || expired {
        PendContextSwitch();
      }
    }
  }
}
