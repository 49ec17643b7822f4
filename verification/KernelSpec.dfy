/** The kernel's task table, ready queues, dispatch and tick as functions on values.
    The class Kernel in KernelImpl.dfy is proved to compute exactly these functions. */
module KernelSpec {

  type uint8 = x: int | 0 <= x < 0x100
  type uint16 = x: int | 0 <= x < 0x1_0000
  type uint32 = x: int | 0 <= x < 0x1_0000_0000

  const TWO31: int := 0x8000_0000
  const TWO32: int := 0x1_0000_0000
  const TWO64: int := 0x1_0000_0000_0000_0000

  datatype Option<+T> = None | Some(value: T)

  datatype TaskState = Ready | Sleep | Blocked | Unused

  datatype Policy = Priority | RoundRobin | PriorityRoundRobin
  {
    predicate Sliced() { RoundRobin? || PriorityRoundRobin? }
  }

  /** Task control block. The saved stack pointer is an opaque number; 0 is NULL. */
  datatype Tcb = Tcb(state: TaskState, prio: uint8, sliceCfg: uint16, sliceLeft: uint16, wakeTick: uint32, sp: nat)

  /** The kernel's globals and the port's switch-pending flag. The number of task slots is
      |tcbs|, the number of priority classes |rq|; the last slot is the idle slot. */
  datatype KState = KState(tcbs: seq<Tcb>, rq: seq<seq<nat>>, current: int, tick: uint32, tickHz: uint32,
                           policy: Policy, defaultSlice: uint16, pending: bool)
  {
    function IdleId(): int { |tcbs| - 1 }
    predicate HasCurrent() { 0 <= current < |tcbs| }
  }

  // ------------------------------------------------------------------ initialisation

  datatype Config = Config(tickHz: uint32, policy: Policy, defaultSlice: uint16)

  /** hrt_init: a zero rate or default slice, or no configuration at all, means the built-in one. */
  function Init(tasks: nat, classes: nat, cfg: Option<Config>, pending: bool): (k: KState)
    ensures |k.tcbs| == tasks && |k.rq| == classes && k.tick == 0 && k.current == -1
    ensures forall t :: 0 <= t < tasks ==> k.tcbs[t].state.Unused?
    ensures forall p :: 0 <= p < classes ==> k.rq[p] == []
    ensures cfg.None? ==> k.tickHz == 1000 && k.policy.PriorityRoundRobin? && k.defaultSlice == 5
    ensures cfg.Some? ==> k.policy == cfg.value.policy
    ensures cfg.Some? ==> if cfg.value.tickHz == 0 then k.tickHz == 1000 else k.tickHz == cfg.value.tickHz
    ensures cfg.Some? ==> if cfg.value.defaultSlice == 0 then k.defaultSlice == 5 else k.defaultSlice == cfg.value.defaultSlice
  {
    var unused := Tcb(Unused, 0, 0, 0, 0, 0);
    var c := if cfg.None? then Config(1000, PriorityRoundRobin, 5)
             else Config(if cfg.value.tickHz == 0 then 1000 else cfg.value.tickHz, cfg.value.policy,
                         if cfg.value.defaultSlice == 0 then 5 else cfg.value.defaultSlice);
    KState(seq(tasks, i => unused), seq(classes, p => []), -1, 0, c.tickHz, c.policy, c.defaultSlice, pending)
  }

  // ------------------------------------------------------------------ ready queues

  /** rq_push: a bad class or a full ring drops the id. */
  function RqPush(k: KState, p: nat, id: nat): KState {
    if p >= |k.rq| || |k.rq[p]| >= |k.tcbs| then k else k.(rq := k.rq[p := k.rq[p] + [id]])
  }

  function MakeReady(k: KState, id: nat): (r: KState)
    requires id < |k.tcbs|
    ensures |r.tcbs| == |k.tcbs| && |r.rq| == |k.rq|
  {
    var t := k.tcbs[id];
    RqPush(k.(tcbs := k.tcbs[id := t.(state := Ready, sliceLeft := t.sliceCfg)]), t.prio, id)
  }

  /** The most urgent class at or after p that has a queued task; |rq| when there is none. */
  function FirstNonEmpty(rq: seq<seq<nat>>, p: nat): (r: nat)
    requires p <= |rq|
    ensures p <= r <= |rq|
    ensures forall c :: p <= c < r ==> rq[c] == []
    ensures r < |rq| ==> rq[r] != []
    decreases |rq| - p
  {
    if p == |rq| || rq[p] != [] then p else FirstNonEmpty(rq, p + 1)
  }

  /** hrt__pick_next_ready: pops the head of the most urgent non-empty class, or names the idle slot. */
  function PickNextReady(k: KState): (KState, int) {
    var p := FirstNonEmpty(k.rq, 0);
    if p < |k.rq| then (k.(rq := k.rq[p := k.rq[p][1..]]), k.rq[p][0]) else (k, k.IdleId())
  }

  // ------------------------------------------------------------------ task operations

  datatype TaskAttr = TaskAttr(priority: uint8, timeslice: uint16)

  /** Arguments of hrt_create_task; frame is the stack pointer the port prepares. */
  datatype CreateArgs = CreateArgs(hasEntry: bool, hasStack: bool, words: nat, attr: Option<TaskAttr>, frame: nat)
  {
    predicate Acceptable() { hasEntry && hasStack && words >= 64 }
    function Prio(): uint8 { if attr.Some? then attr.value.priority else 1 }
  }

  function LowestUnused(tcbs: seq<Tcb>, i: nat): (r: nat)
    requires i <= |tcbs|
    ensures i <= r <= |tcbs|
    ensures forall j :: i <= j < r ==> !tcbs[j].state.Unused?
    ensures r < |tcbs| ==> tcbs[r].state.Unused?
    decreases |tcbs| - i
  {
    if i == |tcbs| || tcbs[i].state.Unused? then i else LowestUnused(tcbs, i + 1)
  }

  function NewTcb(k: KState, a: CreateArgs): Tcb {
    var slice := if a.attr.Some? then a.attr.value.timeslice else k.defaultSlice;
    Tcb(Ready, a.Prio(), slice, slice, 0, a.frame)
  }

  /** hrt_create_task: the new state and the task id, -1 on failure. */
  function CreateTask(k: KState, a: CreateArgs): (KState, int) {
    var id := LowestUnused(k.tcbs, 0);
    if !a.Acceptable() || id == |k.tcbs| then (k, -1)
    else (RqPush(k.(tcbs := k.tcbs[id := NewTcb(k, a)]), a.Prio(), id), id as int)
  }

  function SetState(k: KState, id: nat, state: TaskState): KState
    requires id < |k.tcbs|
  {
    k.(tcbs := k.tcbs[id := k.tcbs[id].(state := state)])
  }

  function YieldCurrent(k: KState): KState
    requires k.HasCurrent()
  {
    var t := k.tcbs[k.current];
    (if t.state.Ready? then MakeReady(k, k.current) else k).(pending := true)
  }

  function SleepCurrent(k: KState, ms: uint32): KState
    requires k.HasCurrent()
  {
    var t := k.tcbs[k.current].(wakeTick := (k.tick + MsToTicks(ms, k.tickHz)) % TWO32, state := Sleep);
    k.(tcbs := k.tcbs[k.current := t], pending := true)
  }

  function DeleteCurrent(k: KState): KState
    requires k.current < |k.tcbs|
  {
    if k.current < 0 || k.current == k.IdleId() then k
    else SetState(k, k.current, Unused).(pending := true)
  }

  /** What a blocking primitive does to the caller after queueing it: mark it, then request a switch. */
  function BlockCurrent(k: KState): KState
    requires k.HasCurrent()
  {
    SetState(k, k.current, Blocked).(pending := true)
  }

  // ------------------------------------------------------------------ scheduler entry and PendSV

  /** The condition under which hrt__on_scheduler_entry requeues the current task. */
  predicate RotationDue(k: KState)
    requires k.HasCurrent()
  {
    var t := k.tcbs[k.current];
    t.state.Ready? && k.policy.Sliced() && t.sliceCfg > 0 && t.sliceLeft == 0
  }

  function OnSchedulerEntry(k: KState): KState
    requires k.HasCurrent()
  {
    if RotationDue(k) then MakeReady(k, k.current) else k
  }

  /** The first half of hrt__schedule: save the outgoing stack pointer and requeue a READY task. */
  function SwitchOut(k: KState, oldSp: nat): (r: KState)
    requires oldSp != 0 ==> k.HasCurrent()
    ensures |r.tcbs| == |k.tcbs| && |r.rq| == |k.rq|
  {
    if oldSp == 0 then k
    else
      var t := k.tcbs[k.current].(sp := oldSp);
      var k1 := k.(tcbs := k.tcbs[k.current := t]);
      if t.state.Ready? then RqPush(k1, t.prio, k.current) else k1
  }

  function Schedule(k: KState, oldSp: nat): KState
    requires oldSp != 0 ==> k.HasCurrent()
  {
    var (k1, next) := PickNextReady(SwitchOut(k, oldSp));
    k1.(current := next)
  }

  // ------------------------------------------------------------------ time

  /** hrt__ms_to_ticks with its 64-bit intermediate and 32-bit saturation. */
  function MsToTicks(ms: uint32, hz: uint32): uint32 {
    if ms == 0 || hz == 0 then 1
    else
      var t := (ms * hz + 999) % TWO64 / 1000;
      if t == 0 then 1 else if t > TWO32 - 1 then TWO32 - 1 else t
  }

  /** hrt_now_ms for a given tick. */
  function NowMs(tick: uint32, hz: uint32): uint32 {
    if hz == 0 then 0 else tick * 1000 / hz % TWO32
  }

  /** The value of a 32-bit word read as a signed integer. */
  function Signed32(x: int): int {
    var w := x % TWO32;
    if w < TWO31 then w else w - TWO32
  }

  predicate IsDue(t: Tcb, tick: uint32) {
    t.state.Sleep? && Signed32(t.wakeTick - tick) <= 0
  }

  /** The wake loop of hrt__tick_isr from slot i on. */
  function WakeDue(k: KState, i: nat): (r: KState)
    requires i <= |k.tcbs|
    ensures |r.tcbs| == |k.tcbs| && |r.rq| == |k.rq|
    decreases |k.tcbs| - i
  {
    if i == |k.tcbs| then k
    else if IsDue(k.tcbs[i], k.tick) then WakeDue(MakeReady(k, i), i + 1)
    else WakeDue(k, i + 1)
  }

  predicate AnyDue(k: KState) {
    exists i :: 0 <= i < |k.tcbs| && IsDue(k.tcbs[i], k.tick)
  }

  predicate SliceCharged(k: KState) {
    k.HasCurrent() && var t := k.tcbs[k.current];
    t.state.Ready? && k.policy.Sliced() && t.sliceCfg > 0 && t.sliceLeft > 0
  }

  predicate SliceExpires(k: KState) {
    SliceCharged(k) && k.tcbs[k.current].sliceLeft == 1
  }

  function ChargeSlice(k: KState): KState {
    if SliceCharged(k) then
      var t := k.tcbs[k.current];
      k.(tcbs := k.tcbs[k.current := t.(sliceLeft := t.sliceLeft - 1)])
    else k
  }

  function AdvanceTick(k: KState): KState {
    k.(tick := (k.tick + 1) % TWO32)
  }

  /** hrt__tick_isr. */
  function TickIsr(k: KState): KState {
    var k1 := AdvanceTick(k);
    var k2 := WakeDue(k1, 0);
    ChargeSlice(k2).(pending := k.pending || AnyDue(k1) || SliceExpires(k2))
  }
}
