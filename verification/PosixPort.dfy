/** The scheduler loop and tick handler of the POSIX port, on the kernel object. Each method is proved to
    take the kernel through the steps of KernelSystem that bear its name, whatever the system around it. */
module PosixPort {
  import opened KernelSystem
  import opened KernelImpl

  /** s is a cooperative system whose kernel is the object k. */
  ghost predicate Runs(k: Kernel, s: Sys)
    reads k.Footprint()
  {
    k.Valid() && Shape(s) && s.port.Cooperative? && s.k == k.view
  }

  lemma ClearKeepsShape(s: Sys)
    requires Shape(s) && Guard(s, LoopClear)
    ensures Shape(Next(s, LoopClear).s)
  {
    var s1 := Next(s, LoopClear).s;
    forall q
      ensures IdsBelow(Q(s1, q), |s1.k.tcbs|)
    {
      assert Q(s1, q) == Q(s, q);
    }
  }

  /** _tick_sighandler: the tick, and always a request. */
  method TickHandler(k: Kernel, ghost s: Sys)
    requires Runs(k, s)
    modifies k.Footprint()
    ensures k.Valid() && k.view == TickNext(s, true).s.k
  {
    k.TickIsr();
    k.PendContextSwitch();
  }

  /** One turn of hrt_port_enter_scheduler up to the jump into a task. */
  method SchedulerTurn(k: Kernel, ghost s: Sys) returns (dispatched: bool, ghost s1: Sys)
    requires Runs(k, s) && s.ctl.LoopHead?
    modifies k.Footprint()
    ensures k.Valid() && k.view == s1.k && (dispatched <==> s1.ctl.Running?)
    ensures if old(k.pending) then Shape(Next(s, LoopClear).s) && s1 == Next(Next(s, LoopClear).s, Dispatch).s else s1 == s
  {
    if !k.pending {
      return false, s;
    }
    ClearKeepsShape(s);
    k.ClearPending();
    var next := k.PickNextReady();
    dispatched := !(next < 0 || next == k.tcbs.Length - 1);
    if dispatched {
      k.SetCurrent(next);
    }
    s1 := Next(Next(s, LoopClear).s, Dispatch).s;
  }

  /** What the loop does when the task comes back. */
  method BackInScheduler(k: Kernel, ghost s: Sys)
    requires Runs(k, s) && s.ctl.Hopping?
    modifies k.Footprint()
    ensures k.Valid() && k.view == Next(s, SchedEntry).s.k
  {
    k.OnSchedulerEntry();
  }
}
