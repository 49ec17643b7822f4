# A verified model of the HardRT kernel

HardRT is a small real-time kernel in C: a fixed table of tasks, one ready queue per priority class, a
periodic tick that wakes sleepers and charges time slices, counting semaphores and mutexes with direct
handoff, and message queues whose blocked callers retry after a wake-up. A cooperative port runs a scheduler
loop driven by a switch-pending flag; a preemptive port switches through `hrt__schedule`.

The project proves what these parts guarantee together over runs: interleavings of the critical sections of
every task with ticks and interrupt calls, for any number of tasks, classes, semaphores, mutexes and queues,
from any 32-bit tick value. Some interleavings make the code queue a task twice; which ones exactly is proved
too, and runs are the rest.

## Structure

| file | content |
|---|---|
| `KernelSpec.dfy`, `PrimitivesSpec.dfy` | each kernel operation and each critical section of a primitive as a function on values |
| `KernelImpl.dfy`, `Rings.dfy`, `Primitives.dfy`, `PosixPort.dfy` | the C objects as classes over arrays and ring indices, each method proved to compute its function |
| `KernelSystem.dfy` | the whole system as a step function: what a task has left to do of the call it is in, the port's control state, the events a step performs, runs |
| `Placement.dfy`, `WakeUps.dfy`, `Invariants.dfy` | the invariant of every run and what it says |
| `FifoLaw.dfy`, `Delivery.dfy`, `Locks.dfy`, `Timing.dfy`, `Rotation.dfy`, `Frames.dfy` | theorems about histories of runs |
| `Calls.dfy` | what each call must do: when it succeeds, what it changes, what it leaves as it was |
| `Records.dfy`, `Sequences.dfy` | which steps change a task record; facts about sequences |
| `Limits.dfy`, `Preemption.dfy`, `Doubled.dfy`, `Strays.dfy`, `Slices.dfy`, `Promptness.dfy` | where guarantees end: the exact conditions, what happens beyond them, and inputs that show it |

## How the system is modelled

- The number of task slots (2 to 255) and of priority classes are parameters. The last slot is the idle slot.
- A step is one critical section, one tick, one interrupt call, one creation, or one "queue or change
  myself, request a switch and leave for the scheduler". Between the fast path of a blocking call and its
  re-check, between a wake-up and the yield that follows it, and between leaving a task and entering the
  scheduler, ticks and interrupt calls come in, except those that the exact list below leaves out.
- The cooperative port: `LoopClear`, `Dispatch` and `SchedEntry` are the parts of one turn of the scheduler
  loop. The preemptive port: `PendSv` at any time a switch is pending. Both use the same kernel functions.
- Tick handlers that request a switch unconditionally (POSIX) and those that do not (Cortex-M) are both
  covered: the step `Tick` carries a flag.
- The stack pointer is an opaque number; 0 is NULL. A context switch is "control passes to task id".
- 32-bit wrap-around of the tick, the signed comparison of the tick handler, and the 64-bit intermediate of
  `hrt__ms_to_ticks` are written out. Task ids pass through 8-bit ring slots.
- Runs leave out two kinds of creation: into the idle slot, and into a class that does not exist. What
  becomes of such a task over every run is proved apart (`Strays.dfy`).
- Runs leave out the steps after which the scheduler queues a task a second time. These are, and the list is
  exact (`Preemption.ValidRunIff`, `Preemption.ExcludedStepBreaks`):
  - cooperative port: a tick that ends the slice of a task on its way into the scheduler;
  - preemptive port: `hrt_yield`, whether called by the application or by the kernel after a wake-up;
  - preemptive port: a tick or interrupt call that wakes a task on its way into the scheduler, that is after it
    parked or fell asleep and before the switch.
- As a consequence, on the preemptive port a task whose give, unlock, send or receive woke somebody takes no
  further step in any run (`Preemption.WakerIsFrozen`): the theorems say nothing about what it does after its
  call there, because the code has by then put it in two places.

## Where code and documentation differ

The model follows the code.

- `inc/hardrt.h:228` says that a sleep of 0 ms yields immediately; the code sleeps one tick
  (`src/core/hardrt_core.c:276-279`).
- `docs/API_C.md:73` promises at least `ms` milliseconds; a sleep of more than 2^31 ticks ends at the first
  tick (`Timing.SleepExactIff`, `Timing.LongSleepEndsAtOnce`).
- `README.md:109-110` describes handoffs at every expiry of a slice; on the preemptive port switching does not
  refresh a slice, so a task draws at most one expiry request while it stays READY (`Slices.SliceLedger`), and
  two tasks with slices of one tick hand over twice and then never again by ticks (`Slices.TwoHandoffsOnly`).
  A switch requested for another reason still rotates them (`Slices.SwitchRotatesIff`).
- `CMakeLists.txt:123-124` reserves the idle slot, but `hrt_create_task` hands it out like any other
  (`Strays.IdleSlotTaskIsLost`).
- `README.md:120-128` shows preemption by priority; a blocking send or receive that succeeds at its re-check,
  and `hrt_create_task`, make a better task READY without requesting a switch (`Promptness.PromptIff`).

## Model

| member | source | states |
|---|---|---|
| Invariants.RunKeepsInv | src/core/hardrt_core.c:68-588 | every run on either port, that is every sequence of steps without the ones left out (see Preemption.ValidRunIff), preserves the joint invariant: placement, wake-up counting, semaphore, mutex and pending-flag invariants |
| Invariants.ExactlyOnePlace | src/core/hardrt_core.c:320-407 | in every reachable state a task is running, or READY exactly once in the ready queue of its own class, or BLOCKED exactly once in exactly one waiter queue, or SLEEP or UNUSED in no queue; no queue is full, so no overflow or silent-drop branch is ever taken; slice_left never exceeds timeslice_cfg |
| Invariants.BootedIsInitial | src/core/hardrt_core.c:195-218 | hrt_init with or without a configuration, and the init calls of the primitives with any arguments, give a state from which the run theorems hold |
| Invariants.NeverStuck | src/port/posix/port_posix.c:156-207 | whenever the scheduler loop has control and any task is READY the switch-pending flag is set, including after re-check wake-ups that do not pend |
| Invariants.WokenTasksCoverQueue | src/core/hardrt_queue.c:75-239 | no lost wake-up: while a receiver is parked every stored item is matched by a woken READY receiver, while a sender is parked every free slot by a woken READY sender; both kinds are parked together only while at least `capacity` woken tasks are in flight |
| Invariants.QuiescentMeansNothingToTake | src/core/hardrt_queue.c:124-239 | with nobody READY, parked receivers imply an empty queue, parked senders a full one, parked takers an empty semaphore, parked lockers a locked mutex |
| Invariants.BestTaskRuns | src/core/hardrt_core.c:432-450 | on either port the task that gets the CPU has the best priority of all READY tasks, and the idle path is taken only if there is none |
| FifoLaw.RunFifo | src/core/hardrt_core.c:103-105 | for every ready and waiter queue and every run: ids taken followed by ids left equal ids present followed by ids added |
| FifoLaw.NoOvertaking | src/core/hardrt_core.c:147-160 | the task at position k of a queue moves up exactly one place per id taken from it and is itself the (k+1)-th taken |
| FifoLaw.PopsAreDispatches | src/core/hardrt_core.c:432-450 | over any run on either port the ids taken from the ready queue of a class are exactly the tasks of that class given the CPU, in order; no other step takes any |
| FifoLaw.DispatchedInTurn | src/core/hardrt_core.c:432-450 | the task at position k of its class moves up one place at each dispatch from that class and at no other step, and is its (k+1)-th dispatch |
| Delivery.RunLedger | src/core/hardrt_queue.c:75-239 | over any run, for every queue: items in it at the start and items enqueued equal items dequeued and items left, in order; for every task: calls opened equal calls completed and calls still open |
| Delivery.DeliveredInOrder | src/core/hardrt_queue.c:54-73 | from initialisation on, the items received followed by those stored are exactly the items of successful sends in order; at most `capacity` are stored |
| Delivery.BlockingSendsOnce | src/core/hardrt_queue.c:124-157 | each blocking send enqueues its item exactly once despite retries, and each blocking receive dequeues exactly once |
| Locks.RunLocks | src/core/hardrt_sem.c:81-177 | over any run at once: every semaphore's token balance, every mutex's ownership history replayed to its present owner, and every contested mutex's gains in waiter order |
| Locks.TokensConserved | src/core/hardrt_sem.c:129-177 | stored tokens + takes + handoffs = initial tokens + gives - gives lost to saturation; the store stays within max_count and is empty while anybody waits |
| Locks.GrantedByTheKthGive | src/core/hardrt_sem.c:95-127 | a taker parked at position k stays BLOCKED, one place further per give on that semaphore, until the (k+1)-th give, which is handed to it |
| Locks.MutualExclusion | src/core/hardrt_mutex.c:38-154 | the history of gains and drops replays legally, one owner at a time, and ends with `owner`; locked exactly while owned; waiters imply locked |
| Locks.WaitersOwnInOrder | src/core/hardrt_mutex.c:120-154 | the next owners of a contested mutex are its waiters in parking order; no lock or try_lock of another task comes first |
| Locks.OwnsByTheKthDrop | src/core/hardrt_mutex.c:69-154 | a locker parked at position k stays BLOCKED, one place further per drop of that mutex, until the (k+1)-th drop, which makes it owner; it stays owner until the next drop |
| Timing.DueIds | src/core/hardrt_sched.c:34-44 | the due sleepers of a class: exactly those, in increasing id order |
| Timing.TickSpec | src/core/hardrt_sched.c:28-77 | one tick appends to each class exactly its due sleepers in id order, changes no other record except the slice of the READY current task under a round-robin policy, and requests a switch exactly if some sleeper became READY or that slice just reached zero |
| Timing.SleepSetsDeadline | src/core/hardrt_core.c:307-309 | hrt_sleep puts the deadline exactly its tick count ahead, at any tick value |
| Timing.SleepsExactly | src/core/hardrt_sched.c:34-44 | a task with d <= 2^31 ticks to go sleeps through every run with fewer than d ticks, across the wrap; no other step wakes it |
| Timing.WakesAtTheLastTick | src/core/hardrt_sched.c:36-42 | the d-th tick makes it READY and queued in its class |
| Timing.SleepExactIff | src/core/hardrt_sched.c:38-39 | from any tick value the signed comparison keeps a task asleep for its first d-1 ticks if and only if d <= 2^31, and never beyond the d-th |
| Timing.LongSleepEndsAtOnce | src/core/hardrt_sched.c:38-42 | a sleep of more than 2^31 ticks ends at the next tick |
| Timing.MsToTicksLeast | src/core/hardrt_core.c:275-287 | the tick count is the least that covers the milliseconds, exactly 1 for 0 ms or 0 Hz and never less, saturating at 2^32-1; the 64-bit intermediate never overflows |
| Timing.SleepAgreesWithClock | src/core/hardrt_core.c:364-368 | without wrap or saturation hrt_now_ms advances across a sleep of ms by at least ms and by less than ms + 1 + 1000/hz |
| Rotation.SliceExpiresOnce | src/core/hardrt_sched.c:48-68 | a task that keeps the CPU with slice_left c draws exactly one expiry request, at its c-th tick, until refreshed; slice_left counts down to zero and stays (for a task switched out and in see Slices.SliceLedger) |
| Rotation.RoundRobin | src/core/hardrt_core.c:320-345 | if the m tasks of the best class only yield, the j-th dispatch runs task j mod m, and any m consecutive dispatches run each task once |
| Rotation.TurnsDifferByAtMostOne | src/port/posix/port_posix.c:171-207 | over runs of any length the turns of two such tasks differ by at most one |
| Frames.ResumesWhereSwitchedOut | src/core/hardrt_core.c:541-588 | over any run the stack pointer loaded for a task is the one saved when it was last switched out, or its initial frame |
| Limits.SlotRecycled | src/core/hardrt_core.c:220-266 | creation takes the lowest unused id, changes no other record, finds no stale entry of that id in any queue, and queues the task once, READY, with the attributes or the defaults (priority 1, default slice) |
| Strays.CreateInPlaceIff | src/core/hardrt_core.c:228-265 | judged without any ban on slots, a successful creation leaves every task in place, in the idle slot too, if and only if its class exists; otherwise the new task is READY in no queue at once |
| Strays.BadClassTaskIsLost | src/core/hardrt_core.c:71-78 | over every later run on either port a task created in a class that does not exist stays READY, in no queue, and is never given the CPU, also when it got the idle slot of the cooperative port |
| Strays.IdleSlotTaskIsLost | src/port/posix/port_posix.c:190-195 | over every later cooperative run a task created in the idle slot stays READY and is never given the CPU; it is in place if and only if no dispatch has popped it; after that it is in no queue at all |
| Strays.LostAfterFourSteps | src/port/posix/port_posix.c:190-195 | a concrete state and run: the creator deletes itself and the loop goes idle with the new task READY and lost |
| Limits.EntryKeepsPlacedIff | src/core/hardrt_core.c:502-519 | on the cooperative port scheduler entry keeps the placement invariant if and only if it does not rotate |
| Limits.HopSafeIff | src/core/hardrt_core.c:502-519 | such a rotation is caused by exactly one interleaving: a tick between a task's hop and the scheduler entry that ends its slice |
| Limits.PendSvKeepsPlacedIff | src/core/hardrt_core.c:559-561 | on the preemptive port a switch after a hop keeps the placement invariant if and only if the task on its way is not READY |
| Limits.YieldBreaksPreemptivePort | src/core/hardrt_core.c:335-344 | there hrt_yield followed by the switch it requests puts the task in two places, from every state |
| Preemption.PreemptiveHopSafeIff | src/core/hardrt_core.c:559-561 | there a step leads to such a switch if and only if it is a yield, called directly or after a wake-up, or a tick or interrupt call that wakes the task on its way |
| Preemption.ValidRunIff | src/core/hardrt_core.c:502-561 | the runs of all theorems are exactly the sequences of possible steps that contain none of these, nor on the cooperative port the slice-ending tick of Limits.HopSafeIff |
| Preemption.ExcludedStepBreaks | src/core/hardrt_core.c:502-561 | from every state, on either port, each excluded step, followed by any number of ticks and interrupt calls, keeps placement until the scheduler takes over, and the takeover breaks it |
| Doubled.LockReturnsWithoutOwnership | src/core/hardrt_mutex.c:97-112 | a concrete sequence of possible steps from a state with the invariant: a doubled entry dispatches a task that has parked on a mutex, still BLOCKED and waiting while another task owns it, so that its lock call returns success |
| Preemption.RunningAndQueued | src/core/hardrt_sem.c:115-123 | a concrete state: an interrupt gives the semaphore between a taker's parking and the switch, which leaves the task running and queued |
| Preemption.WakerIsFrozen | src/core/hardrt_sem.c:167-174 | on the preemptive port a task that has woken somebody stays READY before its yield and takes no step of its own over any run |
| Promptness.PromptIff | src/core/hardrt_queue.c:135-145 | on the preemptive port, over any run, a READY task of a better class than the running one always has a switch pending or a yield coming if and only if no re-check of a blocking send or receive and no creation makes such a task ready while no switch is pending |
| Promptness.OverdueMeansBetterReady | src/core/hardrt_core.c:432-450 | a better class than the running task's has a queued task exactly when some READY task is better |
| Promptness.CreatedTaskWaits | src/core/hardrt_core.c:259-265 | a concrete state: a created task of a better class is READY and no switch is requested |
| Slices.SliceLedger | src/core/hardrt_sched.c:48-68 | on the preemptive port, over any run in which a task stays READY, however often it is switched out and in: slice_left drops by exactly the ticks that find it on the CPU with slice left, and it draws one expiry request if they have used it up and none otherwise |
| Slices.SpentSliceStaysSpent | src/core/hardrt_core.c:541-588 | there a task whose slice has run out draws no further expiry request while it stays READY |
| Slices.SwitchRotatesIff | src/core/hardrt_core.c:559-561 | there a switch, whatever requested it and whatever slice is left, leaves the CPU to the running task if and only if no task of its class or a better one is queued |
| Slices.TwoHandoffsOnly | src/core/hardrt_sched.c:57-64 | a concrete family of runs: two READY tasks with slices of one tick hand over once each, then any number of ticks requests no further switch |
| Limits.OneTickSliceBreaksYield | src/core/hardrt_core.c:335-339 | on the cooperative port a task with a slice of one tick that yields and meets a tick before the scheduler is queued twice |
| Limits.LoneTaskQueuedTwice | src/core/hardrt_core.c:502-519 | a concrete state and run in which this happens: the ready queue ends as [0, 0] |
| Calls.LockCallIff | src/core/hardrt_mutex.c:45-61 | try_lock and the fast path of lock gain the mutex if and only if it is free; a failure changes no mutex |
| Calls.LockRecheckIff | src/core/hardrt_mutex.c:79-112 | the re-check of lock gains a free mutex, refuses its owner with nothing changed, and parks everybody else at the tail |
| Calls.UnlockIff | src/core/hardrt_mutex.c:127-153 | unlock succeeds if and only if the caller owns the mutex; then it is free if nobody waited, else owned by the first waiter, who is READY and returns from its call; otherwise nothing changes |
| Calls.TakeCallIff | src/core/hardrt_sem.c:70-79 | try_take and the fast path of take get a token if and only if one is stored, the last one too; a failure changes no semaphore |
| Calls.TakeRecheckIff | src/core/hardrt_sem.c:95-122 | the re-check of take gets a stored token, and parks at the tail otherwise |
| Calls.GiveIff | src/core/hardrt_sem.c:129-159 | a give is lost if and only if nobody waits and the store is full; otherwise it adds one token, or leaves the store alone and makes the first waiter READY to return from its call |
| Calls.WokenGoesOn | src/core/hardrt_queue.c:149-156 | a woken taker or locker returns from its call, a woken sender or receiver retries with the same item |
| Calls.SendIff | src/core/hardrt_queue.c:75-122 | try_send, its interrupt form and the fast path of send enqueue if and only if there is room; the caller yields, or a switch is requested, if and only if a receiver was woken; a failure changes nothing but the caller's place in send |
| Calls.RecvIff | src/core/hardrt_queue.c:159-205 | the same for receiving, if and only if an item is stored |
| Calls.SendAgainIff | src/core/hardrt_queue.c:128-156 | a later attempt of send is like the first; its re-check enqueues if there is room, without a yield, and parks otherwise |
| Calls.RecvAgainIff | src/core/hardrt_queue.c:211-238 | the same for receiving |
| Calls.SleepChangesTwoFields | src/core/hardrt_core.c:307-317 | hrt_sleep changes state and deadline of the caller, requests a switch, and nothing else |
| Calls.ParkChangesOneField | src/core/hardrt_sem.c:104-122 | parking changes the state of the caller, requests a switch, and nothing else in the kernel |
| Calls.YieldRefreshes | src/core/hardrt_core.c:335-344 | hrt_yield, called directly or after a wake-up, refreshes the caller to its configured slice, queues it at the tail of its class, requests a switch, and nothing else |
| Calls.FullQuantumAfterYield | src/core/hardrt_core.c:335-339 | over any run after a yield, until the task blocks or yields again, slice_left is the configured slice less the ticks that found it current, and the expiry request comes exactly when they have used it up |
| Calls.ExpiryAfterYield | src/core/hardrt_sched.c:48-68 | a task that yields, is dispatched before any tick and keeps the CPU draws its expiry request at exactly its timeslice_cfg-th tick |
| Calls.DeleteFreesSlot | src/core/hardrt_core.c:347-360 | hrt_task_delete makes the caller's slot unused, keeps the rest of its record and every other record, and requests a switch |
| Calls.FreeSlotStaysFree | src/core/hardrt_core.c:347-360 | over any run in which no creation takes it, a free slot stays unused, in no queue and never on the CPU: a deleted task does not come back |
| Calls.FreeSlotIsReused | src/core/hardrt_core.c:228-234 | while a slot is free an acceptable creation succeeds with an id of at most that slot |
| Calls.CreateRefusedIff | src/core/hardrt_core.c:223-239 | a creation is refused, with nothing changed, if and only if entry or stack is missing, the stack has fewer than 64 words, or no slot is free |
| Frames.ClassAndSliceFixed | src/core/hardrt_core.c:250-251 | over any run a task keeps the priority and the slice it was created with, whatever it does and whatever is done to it |
| Frames.SettingsFixed | src/core/hardrt_core.c:370-371 | over any run the tick rate never changes, and policy and default slice are the last ones set |
| Frames.TickCountsTicks | src/core/hardrt_sched.c:28-30 | over any run the tick advances by one per tick, modulo 2^32, and at no other step |
| Timing.NowMsIsFloor | src/core/hardrt_core.c:364-368 | hrt_now_ms is the number of whole milliseconds in the ticks counted, modulo 2^32, and 0 without a rate |
| Slices.ReadySliceLedger | src/core/hardrt_sched.c:48-68 | on either port the slice law of a task that stays READY and does not yield, however often it is switched out and in |
| KernelSpec.Init | src/core/hardrt_core.c:195-218 | rate, policy and default slice are the configured ones, with 1000 and 5 for zeros, and 1000, priority round robin and 5 without a configuration; tick 0, no current task, every slot unused, every queue empty |
| KernelSpec.FirstNonEmpty | src/core/hardrt_core.c:436-443 | the scan of the pick: the first class with a task, all before it empty |
| KernelSpec.LowestUnused | src/core/hardrt_core.c:228-234 | the scan of creation: the first unused slot, all before it in use |
| PrimitivesSpec.SemInit | src/core/hardrt_sem.c:61-68 | a maximum of 0 becomes 1; a count that fits is kept, a larger one becomes the maximum; nobody waits |
| Rings.UnrollPush | src/core/hardrt_core.c:103-105 | writing the tail slot of a ring appends to the sequence it represents |
| Rings.UnrollPop | src/core/hardrt_core.c:147-160 | advancing the head of a ring removes the first element of that sequence |
| Rings.IdRing.Push | src/core/hardrt_sem.c:34-45 | a push on the id ring appends, or drops the id when full; tail stays (head+count) mod N and ids stay in range |
| Rings.IdRing.Pop | src/core/hardrt_sem.c:47-59 | a pop removes and returns the first id, or returns -1 when empty |
| Rings.ItemsPush | src/core/hardrt_queue.c:57-60 | copying item_size bytes into the tail slot appends one item and leaves all stored items as they were |
| Rings.ItemsFrame | src/core/hardrt_queue.c:57-58 | slots at idx*item_size do not interfere: writing a free slot changes no stored item |
| Rings.ItemsPop | src/core/hardrt_queue.c:68-71 | advancing the head removes the first item, whose bytes are those of the head slot |
| Rings.MessageRing.Enqueue | src/core/hardrt_queue.c:54-62 | the byte ring appends the item, or refuses and changes nothing when full |
| Rings.MessageRing.Dequeue | src/core/hardrt_queue.c:65-73 | the byte ring returns and removes the first item, or nothing when empty |
| Rings.CopyIn | src/core/hardrt_queue.c:58 | memcpy: the bytes at the offset become the item, all others stay |
| KernelImpl.Kernel.constructor | src/core/hardrt_core.c:195-218 | hrt_init on fresh arrays and rings: the fields hold the configured rate, policy and default slice or the built-in ones, tick 0, no current task, every slot unused, every ring empty |
| KernelImpl.Kernel.RqPush | src/core/hardrt_core.c:68-111 | the ring of a class gains the id at its tail; a bad class or a full ring drops it |
| KernelImpl.Kernel.RqPop | src/core/hardrt_core.c:113-168 | the ring of a class loses and returns its head, -1 when empty |
| KernelImpl.Kernel.CreateTask | src/core/hardrt_core.c:220-266 | the scan loop and the writes to the table and the ring compute the creation function; -1, with nothing changed, exactly for a missing entry or stack, fewer than 64 words, or no unused slot |
| KernelImpl.Kernel.Sleep | src/core/hardrt_core.c:289-318 | the caller's record changes in state and deadline only; a switch is requested |
| KernelImpl.Kernel.Yield | src/core/hardrt_core.c:320-345 | a READY caller gets its configured slice back, keeps the rest of its record and is queued; a switch is requested in any case |
| KernelImpl.Kernel.TaskDelete | src/core/hardrt_core.c:347-360 | the caller's slot becomes unused with the rest of its record kept and a switch is requested; nothing happens outside a task or in the idle task |
| KernelImpl.Kernel.MakeReady | src/core/hardrt_core.c:374-407 | state, slice and ready ring updated together |
| KernelImpl.Kernel.PickNextReady | src/core/hardrt_core.c:432-450 | the loop over the classes pops the head of the first non-empty one, or names the idle slot with every ring unchanged |
| KernelImpl.Kernel.OnSchedulerEntry | src/core/hardrt_core.c:502-519 | requeues and refreshes the current task exactly when its slice is spent |
| KernelImpl.Kernel.Schedule | src/core/hardrt_core.c:541-588 | saves the outgoing stack pointer, requeues a READY task, and returns the stack pointer of the task it makes current |
| KernelImpl.Kernel.WakeSleepers | src/core/hardrt_sched.c:34-44 | the loop over the slots wakes exactly the due sleepers and reports whether there was one |
| KernelImpl.Kernel.TickIsr | src/core/hardrt_sched.c:28-77 | the tick handler computes the tick function |
| Primitives.Semaphore.constructor | src/core/hardrt_sem.c:61-68 | a fresh semaphore with clamped count |
| Primitives.Semaphore.TryTake | src/core/hardrt_sem.c:70-79 | succeeds if and only if a token is stored, and then takes exactly one; otherwise nothing changes |
| Primitives.Semaphore.TakeOrPark | src/core/hardrt_sem.c:97-122 | takes a token that appeared, or queues and blocks the caller and requests a switch |
| Primitives.Semaphore.GiveCommon | src/core/hardrt_sem.c:129-159 | hands the token to the first waiter, or stores it, saturating |
| Primitives.Semaphore.Give | src/core/hardrt_sem.c:167-181 | the giver yields exactly when a waiter was woken; callable outside a task when nobody waits |
| Primitives.Semaphore.GiveFromIsr | src/core/hardrt_sem.c:161-166 | a switch is requested, and reported, exactly when a waiter was woken |
| Primitives.MutexLock.TryLock | src/core/hardrt_mutex.c:38-62 | succeeds if and only if the caller is a task and the mutex is free, and then the caller owns it; otherwise nothing changes |
| Primitives.MutexLock.LockOrPark | src/core/hardrt_mutex.c:79-112 | acquires, refuses the owner, or queues and blocks the caller |
| Primitives.MutexLock.UnlockCommon | src/core/hardrt_mutex.c:120-154 | refuses if and only if the caller is no task or not the owner; otherwise ownership moves to the first waiter while the mutex stays locked, or the mutex is released |
| Primitives.MutexLock.Unlock | src/core/hardrt_mutex.c:138-147 | succeeds if and only if the caller is a task that owns the locked mutex; then the mutex is free, or owned by the first waiter; the former owner yields exactly after a handoff |
| Primitives.MessageQueue.constructor | src/core/hardrt_queue.c:37-51 | an empty queue over the caller's storage |
| Primitives.MessageQueue.TrySend | src/core/hardrt_queue.c:75-97 | appends and wakes the first receiver, or refuses and changes nothing; the sender yields exactly when it woke one; callable outside a task when nobody is woken |
| Primitives.MessageQueue.TrySendFromIsr | src/core/hardrt_queue.c:99-122 | the same with a switch request instead of the yield |
| Primitives.MessageQueue.SendOrPark | src/core/hardrt_queue.c:135-154 | one re-check of a blocking send: sends after all, or parks |
| Primitives.MessageQueue.TryRecv | src/core/hardrt_queue.c:159-180 | removes the first item and wakes the first sender, or refuses and changes nothing; callable outside a task when nobody is woken |
| Primitives.MessageQueue.TryRecvFromIsr | src/core/hardrt_queue.c:182-205 | the same with a switch request instead of the yield |
| Primitives.MessageQueue.RecvOrPark | src/core/hardrt_queue.c:218-236 | one re-check of a blocking receive: receives after all, or parks |
| PosixPort.TickHandler | src/port/posix/port_posix.c:117-121 | the signal handler takes the kernel through a tick step that always requests a switch |
| PosixPort.SchedulerTurn | src/port/posix/port_posix.c:181-199 | one turn of the loop up to the jump takes the kernel through the steps LoopClear and Dispatch, or nothing when no switch is pending |
| PosixPort.BackInScheduler | src/port/posix/port_posix.c:201-202 | the return into the loop is the step SchedEntry |

## Left out

- Context switching itself: ucontext, signals and timers, Cortex-M registers, stack frames and the PendSV assembly; only "control passes to id" and the stack pointer as a number remain.
- Interrupts inside the enqueue of `hrt_yield`, inside `rq_push` or between the writes of a block-and-hop: each is one step, which the code does not enforce with a critical section everywhere.
- The outer `for (;;)` of `hrt_queue_send` and `hrt_queue_recv` as a loop: it spans context switches, so it is a sequence of steps of the system rather than one method.
- Which of several competing tasks a message queue serves: a woken task retries, can lose to a newcomer and parks again at the tail, so only the counting and ordering laws are claimed.
- A mutex whose owner deletes itself stays locked under that id; ownership is by id, and a recycled id inherits it.
- `hrt_error`: the error code and the optional stall on error; an error return is modelled, its code is not. The build modelled has debugging off.
- `HRT_SCHED_RR` as one class blind to priority: the code always picks by class.
- The tick source check of `hrt_tick_from_isr` and the idle nap of the scheduler loop: neither touches kernel state.
- Calls of primitives between their initialisation and `hrt_start`: the methods allow them, runs start after them with empty queues.
- A task created in the idle slot of the preemptive port: it takes the place of the idle task there, which the model does not run.
- The null port, version and port identity, the C++ wrapper, examples, debug counters and test hooks: plumbing.
- Re-initialising a running kernel.
