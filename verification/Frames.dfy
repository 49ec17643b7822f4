/** What steps leave as it was: saved stack pointers, priorities, configured slices, the kernel's settings. */
module Frames {
  import opened KernelSpec
  import opened PrimitivesSpec
  import opened KernelSystem
  import opened Invariants
  import opened Records
  import opened Timing

  /** The stack pointer this step saves for task t: its own at a switch-out, its first at creation. */
  function FrameSaved(s: Sys, st: Step, t: nat): Option<nat> {
    if st.PendSv? && st.oldSp != 0 && s.k.current == t then Some(st.oldSp)
    else if st.TaskCreate? && CreateTask(s.k, st.args).1 == t then Some(st.args.frame)
    else None
  }

  /** The stack pointer most recently saved for task t, `first` if none was saved in the run. */
  ghost function LastFrame(s: Sys, steps: seq<Step>, t: nat, first: nat): nat
    requires ValidRun(s, steps)
    decreases |steps|
  {
    if steps == [] then first
    else
      var saved := FrameSaved(s, steps[0], t);
      LastFrame(Next(s, steps[0]).s, steps[1..], t, if saved.Some? then saved.value else first)
  }

  /** Stack pointer, class and configured slice of task t stay, and so do time and settings. */
  ghost predicate Kept(s: Sys, s1: Sys, t: nat)
    requires t < |s.k.tcbs|
  {
    && |s1.k.tcbs| == |s.k.tcbs| && s1.k.tcbs[t].sp == s.k.tcbs[t].sp && SameAttributes(s, s1, t)
    && SameSettings(s.k, s1.k)
  }

  predicate SameAttributes(s: Sys, s1: Sys, t: nat)
    requires t < |s.k.tcbs| == |s1.k.tcbs|
  {
    s1.k.tcbs[t].prio == s.k.tcbs[t].prio && s1.k.tcbs[t].sliceCfg == s.k.tcbs[t].sliceCfg
  }

  predicate SameSettings(k: KState, k1: KState) {
    k1.tick == k.tick && k1.tickHz == k.tickHz && k1.policy == k.policy && k1.defaultSlice == k.defaultSlice
  }

  /** This step creates a task in slot t. */
  predicate TakesSlot(s: Sys, st: Step, t: nat) {
    st.TaskCreate? && CreateTask(s.k, st.args).1 == t
  }

  /** What step st does to those fields. */
  ghost predicate FieldsSet(s: Sys, st: Step, s1: Sys, t: nat)
    requires t < |s.k.tcbs|
  {
    var saved := FrameSaved(s, st, t);
    && |s1.k.tcbs| == |s.k.tcbs| && s1.k.tcbs[t].sp == (if saved.Some? then saved.value else s.k.tcbs[t].sp)
    && (!TakesSlot(s, st, t) ==> SameAttributes(s, s1, t))
    && s1.k.tickHz == s.k.tickHz && s1.k.tick == (if st.Tick? then (s.k.tick + 1) % TWO32 else s.k.tick)
    && s1.k.policy == (if st.SetPolicy? then st.policy else s.k.policy)
    && s1.k.defaultSlice == (if st.SetDefaultSlice? then st.slice else s.k.defaultSlice)
  }

  lemma WakeStepKeepsFields(s: Sys, st: Step, t: nat)
    requires Shape(s) && Guard(s, st) && t < |s.k.tcbs| && (st.SemGiveCall? || st.SemGiveIsr? || st.MutexUnlockCall?)
    ensures Kept(s, Next(s, st).s, t)
  {
    if st.MutexUnlockCall? {
      UnlockKeepsFields(s, st.i, t);
    } else {
      GiveKeepsFields(s, st.i, t);
    }
  }

  lemma GiveKeepsFields(s: Sys, i: nat, t: nat)
    requires Shape(s) && i < |s.sems| && t < |s.k.tcbs|
    ensures Kept(s, SemGiveCs(s, i).s, t)
  {
  }

  lemma UnlockKeepsFields(s: Sys, i: nat, t: nat)
    requires Shape(s) && s.k.HasCurrent() && i < |s.mutexes| && t < |s.k.tcbs|
    ensures Kept(s, MutexUnlockNext(s, i).s, t)
  {
  }

  lemma QueueOpKeepsFields(s: Sys, i: nat, item: Item, t: nat)
    requires Shape(s) && i < |s.queues| && t < |s.k.tcbs|
    ensures Kept(s, AfterSend(s, i, item), t)
    ensures s.queues[i].items != [] ==> Kept(s, AfterRecv(s, i), t)
  {
  }

  lemma SendStepKeepsFields(s: Sys, st: Step, t: nat)
    requires Shape(s) && Guard(s, st) && t < |s.k.tcbs| && (st.TrySendCall? || st.SendCall? || st.SendIsr?)
    ensures Kept(s, Next(s, st).s, t)
  {
    QueueOpKeepsFields(s, st.i, st.item, t);
  }

  lemma RecvStepKeepsFields(s: Sys, st: Step, t: nat)
    requires Shape(s) && Guard(s, st) && t < |s.k.tcbs| && (st.TryRecvCall? || st.RecvCall? || st.RecvIsr?)
    ensures Kept(s, Next(s, st).s, t)
  {
    QueueOpKeepsFields(s, st.i, [], t);
  }

  lemma ContinueKeepsFields(s: Sys, t: nat)
    requires Shape(s) && Guard(s, Continue) && t < |s.k.tcbs|
    ensures Kept(s, ContinueNext(s).s, t)
  {
    var pc := s.pcs[s.k.current];
    if pc.SendTry? || pc.SendRecheck? {
      QueueOpKeepsFields(s, pc.i, pc.item, t);
      SendCallKeepsFields(s, t);
    } else if pc.RecvTry? || pc.RecvRecheck? {
      QueueOpKeepsFields(s, pc.i, [], t);
      RecvCallKeepsFields(s, t);
    } else {
      LockCallKeepsFields(s, t);
    }
  }

  lemma SendCallKeepsFields(s: Sys, t: nat)
    requires Shape(s) && Guard(s, Continue) && t < |s.k.tcbs|
    requires var pc := s.pcs[s.k.current]; (pc.SendTry? || pc.SendRecheck?) && Kept(s, AfterSend(s, pc.i, pc.item), t)
    ensures Kept(s, ContinueNext(s).s, t)
  {
  }

  lemma RecvCallKeepsFields(s: Sys, t: nat)
    requires Shape(s) && Guard(s, Continue) && t < |s.k.tcbs|
    requires var pc := s.pcs[s.k.current];
             (pc.RecvTry? || pc.RecvRecheck?) && (s.queues[pc.i].items != [] ==> Kept(s, AfterRecv(s, pc.i), t))
    ensures Kept(s, ContinueNext(s).s, t)
  {
  }

  lemma LockCallKeepsFields(s: Sys, t: nat)
    requires Shape(s) && Guard(s, Continue) && t < |s.k.tcbs|
    requires var pc := s.pcs[s.k.current]; pc.MustYield? || pc.SemRecheck? || pc.MutexRecheck?
    ensures Kept(s, ContinueNext(s).s, t)
  {
  }

  lemma QuietStepKeepsFields(s: Sys, st: Step, t: nat)
    requires Shape(s) && Guard(s, st) && t < |s.k.tcbs|
    requires st.Start? || st.LoopClear? || st.Dispatch? || st.SchedEntry? || st.TaskYield? || st.TaskSleep?
             || st.TaskDelete? || st.SemTryTakeCall?
             || st.SemTakeCall? || st.MutexTryLockCall? || st.MutexLockCall?
    ensures Kept(s, Next(s, st).s, t)
  {
  }

  lemma SaveStepSetsFields(s: Sys, st: Step, t: nat)
    requires Shape(s) && Guard(s, st) && t < |s.k.tcbs| && (st.PendSv? || st.TaskCreate?)
    ensures FieldsSet(s, st, Next(s, st).s, t)
  {
  }

  lemma StepSetsFields(s: Sys, st: Step, t: nat)
    requires Shape(s) && Guard(s, st) && t < |s.k.tcbs|
    ensures FieldsSet(s, st, Next(s, st).s, t)
  {
    if st.PendSv? || st.TaskCreate? {
      SaveStepSetsFields(s, st, t);
    } else if st.Continue? {
      ContinueKeepsFields(s, t);
    } else if st.Tick? {
      WakeLoopRecords(AdvanceTick(s.k), 0, t);
      WakeLoopFrame(AdvanceTick(s.k), 0);
    } else if st.SemGiveCall? || st.SemGiveIsr? || st.MutexUnlockCall? {
      WakeStepKeepsFields(s, st, t);
    } else if st.TrySendCall? || st.SendCall? || st.SendIsr? {
      SendStepKeepsFields(s, st, t);
    } else if st.TryRecvCall? || st.RecvCall? || st.RecvIsr? {
      RecvStepKeepsFields(s, st, t);
    } else if !st.SetPolicy? && !st.SetDefaultSlice? {
      QuietStepKeepsFields(s, st, t);
    }
  }

  /** Over any run, the stack pointer hrt__schedule would load for task t is the one saved when t was last
      switched out, or its initial frame if it has not run since it was created. */
  lemma {:induction false} ResumesWhereSwitchedOut(s: Sys, steps: seq<Step>, t: nat)
    requires ValidRun(s, steps) && t < |s.k.tcbs|
    ensures |Run(s, steps).s.k.tcbs| == |s.k.tcbs|
    ensures Run(s, steps).s.k.tcbs[t].sp == LastFrame(s, steps, t, s.k.tcbs[t].sp)
    decreases |steps|
  {
    if steps != [] {
      StepSetsFields(s, steps[0], t);
      ResumesWhereSwitchedOut(Next(s, steps[0]).s, steps[1..], t);
    }
  }

  /** No creation of the run takes slot t. */
  ghost predicate NeverTaken(s: Sys, steps: seq<Step>, t: nat)
    requires ValidRun(s, steps)
    decreases |steps|
  {
    steps == [] || (!TakesSlot(s, steps[0], t) && NeverTaken(Next(s, steps[0]).s, steps[1..], t))
  }

  /** Over any run a task keeps the class and the slice it was created with, whatever it does and whatever is
      done to it: sleeping, parking, being woken, yielding, being preempted. */
  lemma {:induction false} ClassAndSliceFixed(s: Sys, steps: seq<Step>, t: nat)
    requires ValidRun(s, steps) && t < |s.k.tcbs| && NeverTaken(s, steps, t)
    ensures |Run(s, steps).s.k.tcbs| == |s.k.tcbs| && SameAttributes(s, Run(s, steps).s, t)
    decreases |steps|
  {
    if steps != [] {
      StepSetsFields(s, steps[0], t);
      ClassAndSliceFixed(Next(s, steps[0]).s, steps[1..], t);
    }
  }

  /** The last policy and the last default slice set in a run. */
  function LastPolicy(steps: seq<Step>, first: Policy): Policy {
    if steps == [] then first else LastPolicy(steps[1..], if steps[0].SetPolicy? then steps[0].policy else first)
  }

  function LastSlice(steps: seq<Step>, first: uint16): uint16 {
    if steps == [] then first else LastSlice(steps[1..], if steps[0].SetDefaultSlice? then steps[0].slice else first)
  }

  /** Over any run the tick counts the ticks, modulo 2^32 (LaterIsModular), and nothing else. */
  lemma {:induction false} TickCountsTicks(s: Sys, steps: seq<Step>)
    requires ValidRun(s, steps) && |s.k.tcbs| > 0
    ensures Run(s, steps).s.k.tick == Later(s.k.tick, Ticks(steps))
    decreases |steps|
  {
    if steps != [] {
      StepSetsFields(s, steps[0], 0);
      TickCountsTicks(Next(s, steps[0]).s, steps[1..]);
    }
  }

  /** Over any run the rate never changes, and policy and default slice are the last ones set. */
  lemma {:induction false} SettingsFixed(s: Sys, steps: seq<Step>)
    requires ValidRun(s, steps) && |s.k.tcbs| > 0
    ensures var k := Run(s, steps).s.k;
            && k.tickHz == s.k.tickHz && k.policy == LastPolicy(steps, s.k.policy)
            && k.defaultSlice == LastSlice(steps, s.k.defaultSlice)
    decreases |steps|
  {
    if steps != [] {
      StepSetsFields(s, steps[0], 0);
      SettingsFixed(Next(s, steps[0]).s, steps[1..]);
    }
  }
}
