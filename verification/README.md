# Kangaroos kernel: a verified model

This project models the single-core Kangaroos kernel and proves its guarantees over every run: the
scheduler with its intrusive lists, the tick and the context switch, and the primitives built on
them: mutexes with priority inheritance, condition variables, semaphores, once cells, channels, event
groups, memory pools, sleeping and timers. `dafny verify dfyconfig.toml` checks all of it.

## How it is built

**Code on the heap.** `Scheduler`, `Mutexes`, `Condvars`, `Semaphores`, `Onces`, `Channels`,
`EventGroups`, `Pools` and `Timers` hold the source's own loops over classes with real links: a `Tcb`
carries `allNext` and, in its Blocked state, `waitNext`; a `WaitHead` is the cell that the source
passes as `&mut *mut Tcb`; `Kernel` holds `CURRENT`, `ALL_TASKS`, `TICK` and the PendSV flag. Every
method keeps `Kernel.Valid()` and states its whole effect as a function of the old abstract state,
`k.st == Effect(old(k.st), ...)`.

**The same effects on values.** `KernelModel` and the `...Model` module of each primitive define
those functions. A kernel value `Kern` lists the tasks by spawn index (walking `ALL_TASKS` visits
them downwards, and the idle task, registered last, has the largest index) and maps each wait list to
the sequence of its tasks.

**Runs.** `SystemModel` puts the effects together into one state machine `Sys` with one `Step` for
each operation `Op`: the critical section of an API call by the running task together with the
context switch it requests, an interrupt-safe call at any moment, a tick, PendSV whenever its flag is
set, and the return of a blocking call. `LateTrigger` covers a task that was switched out between its
critical section and its `trigger_pendsv`. A `Trace` is a run: a boot state with any tasks and objects
and any sequence of steps, each enabled where the ones before it lead; `Reaches(tr, s)` says that it
leads to `s`, and a state is reachable if some run leads there. Beside the kernel's state a `Sys`
records what the guarantees speak about: where each task is inside a blocking call, live
guards and boxes, and what was sent, delivered, granted, started and waited for.

**From one to the other.** `Links` ties the steps to the code: wherever an operation is enabled, the
preconditions of the method that carries it out hold, the step makes of the kernel and of the object
what that method's contract says, and no other object differs.

**What each call does.** `Switching`, `Quanta`, `Handovers`, `Outcomes` and `FlagShares` say of each
operation, without the functions that define it, when it succeeds and everything it changes; the first
two also say over whole runs that a task resumes where it left off and gets its whole time slice.

`NestedLocks`, `ChainedLocks`, `Rendezvous`, `StalledSwitch` and `Starvation` spell out runs state by
state; `Scripts` replays them.

`Inv` is kept by every step (`Runs.StepKeeps`), family by family (`SemaphoreSteps`, `OnceSteps`,
`ChannelSteps`, `EventSteps`, `PoolSteps`, `MutexSteps`, `ClockSteps`, `Returns`); `Frames` carries
the other families' invariants over. `Guarantees`, `Priorities`, `Nesting`, `PriorityTheorems`, `RoundRobin`
and `Fairness` draw the conclusions.

## What holds only under a condition

* With mutexes nested, inheritance can be lost, because `unlock_internal` resets the priority to its
  base whatever else the task still owns and `lock` boosts the direct owner only, and so can a
  preemption. What survives any nesting: no task is below its base, and none is above it unless
  somebody who waits for one of its mutexes asks for that much (`Nesting.EveryBoostIsJustified`). So
  inheritance is exact, over all mutexes of every task, if and only if no owner is outranked by a
  task that waits for it (`Nesting.ExactIffNoInversion`).
* Which runs keep that: exactly those whose every step is `Harmless`
  (`Nesting.InheritanceHoldsIff`), and no preemption is missed in exactly those whose every `unlock` is
  `Covered` (`Nesting.PreemptionHoldsIff`). Both conditions are read off the state before the step. On
  such runs there is no unbounded inversion, whatever the nesting
  (`PriorityTheorems.NoUnboundedInversion`).
* Locking one mutex at a time is enough for both (`PriorityTheorems.DisciplinedIsHarmless`), but not
  needed: `NestedLocks.NestingCanBeHarmless`. In the next step of that run `unlock` loses both
  (`NestedLocks.NestingLosesBoth`); in `ChainedLocks.ChainLosesInheritance` `lock` loses the first.
* The documentation of `try_lock` (kangaroos/src/sync/mutex.rs:130-137) says that a lock taken with
  it gets no boost. The code of `lock` boosts whoever owns the mutex; the model follows the code.
* A channel strands nobody if and only if it can hold an item: `Guarantees.NobodyIsStranded` covers
  every capacity from 1 up, `Rendezvous.ZeroCapacityStrands` parks both sides of a channel of
  capacity 0.
* The bound on round-robin waiting counts every tick, and adds those that came while a switch was
  already due: on the hardware PendSV follows as soon as no other exception is active, but nothing in
  the kernel limits such ticks. `StalledSwitch.LateTicksAreUnbounded` has runs with any number of them.
* Among tasks of equal priority a wait list serves the latest first, so there is no bound on waiting in
  it: in `Starvation.EqualsCanStarve` one task takes any number of tokens while another of its own
  priority stays parked.
* Deadlines are compared as wrapped 64-bit counters. What is said about them in terms of elapsed time
  holds as long as the counter has not wrapped.
* `svc_first_task_sp` needs a Ready task of priority below 255; without one it would dereference null,
  which the method reports as `None`.

## Model

| member | source | states |
|---|---|---|
| Scheduler.Kernel.BlockAndPush | kangaroos/src/kernel/scheduler.rs:207-212 | the task becomes Blocked at the front of the list; every other list and task is as it was |
| Scheduler.Kernel.PopHighest | kangaroos/src/kernel/scheduler.rs:221-280 | null for an empty list; otherwise exactly the first waiter of minimum priority value leaves and the others keep their order; no `unreachable!()` is reached and both walks end |
| KernelModel.BestIndexIsBest | kangaroos/src/kernel/scheduler.rs:227-247 | nobody on the list outranks the one chosen, and everybody in front of it has strictly lower priority |
| Scheduler.Kernel.Unblock | kangaroos/src/kernel/scheduler.rs:186-193 | the task is Ready with a full quantum; the result says whether it outranks CURRENT |
| Scheduler.Kernel.FindNext | kangaroos/src/kernel/scheduler.rs:17-80 | the two passes return what one search in cyclic order after CURRENT would, or fail when nothing is runnable |
| KernelModel.NextIsFirstOfTopTier | kangaroos/src/kernel/scheduler.rs:22-78 | fails exactly when nothing is runnable; otherwise the first task in cyclic order among the runnable ones of minimum priority value |
| KernelModel.NextUnique | kangaroos/src/kernel/scheduler.rs:22-72 | there is one such task only |
| Scheduler.Kernel.Tick | kangaroos/src/kernel/scheduler.rs:86-166 | counts; does nothing else unless CURRENT is Running; otherwise wakes the due, and reports a preemption or an expired quantum with a peer |
| Scheduler.Kernel.WakeScan | kangaroos/src/kernel/scheduler.rs:103-129 | the fused pass wakes every sleeper that is due, skips CURRENT, and reports whether a Ready task outranks it after all wake-ups |
| Scheduler.Kernel.ConsumeQuantum | kangaroos/src/kernel/scheduler.rs:131-149 | one tick is charged; at zero the quantum is refilled and reported as expired |
| Scheduler.Kernel.PeerScan | kangaroos/src/kernel/scheduler.rs:151-162 | true if and only if another Ready task has the priority of CURRENT |
| KernelModel.WakeFromWakes | kangaroos/src/kernel/scheduler.rs:107-125 | the scan changes the sleepers that are due and nobody else |
| Scheduler.Kernel.PendsvSaveAndSwitch | kangaroos/src/kernel/scheduler.rs:330-352 | saves the stack pointer, retires a Running task with its quantum, dispatches the next one and returns its stack pointer |
| Scheduler.Kernel.SvcFirstTask | kangaroos/src/kernel/scheduler.rs:297-321 | launches the first Ready task of minimum priority value below 255; finds none if and only if there is none |
| Scheduler.Kernel.SystickHandler | kangaroos/src/kernel/mod.rs:101-104 | PendSV is raised exactly when `tick` asks for it |
| Scheduler.Tcb.Zeroed | kangaroos/src/kernel/tcb.rs:61-78 | the initial control block: Uninit, and every number, link and pointer zero |
| Scheduler.Kernel.SpawnInto | kangaroos/src/task.rs:98-138 | the control block is filled in and put in front of ALL_TASKS; all lists stay valid |
| Scheduler.Kernel.YieldNow | kangaroos/src/task.rs:146-158 | the quantum of a Running caller is zero and a switch is due |
| Scheduler.Kernel.Sleep | kangaroos/src/task.rs:175-189 | asleep until the current tick plus the duration, wrapping, with a switch due |
| Scheduler.Kernel.SleepUntil | kangaroos/src/task.rs:196-201 | asleep until the deadline, with a switch due |
| Scheduler.Kernel.Exit | kangaroos/src/task.rs:211-217 | Dead, with a switch due |
| Mutexes.Mutex.Lock | kangaroos/src/sync/mutex.rs:74-118 | claims a free mutex; otherwise boosts the owner to the caller's priority if that is higher, and parks the caller |
| Mutexes.Mutex.TryLock | kangaroos/src/sync/mutex.rs:144-153 | claims a free mutex, and leaves an owned one alone |
| Mutexes.Mutex.UnlockInternal | kangaroos/src/sync/mutex.rs:170-204 | the owner is back at its base priority; the best waiter becomes owner and Ready, or nobody owns the mutex |
| Condvars.Condvar.Wait | kangaroos/src/sync/condvar.rs:93-107 | the caller is on the list and the mutex passed on in one critical section, with a switch due |
| Condvars.Condvar.NotifyOne | kangaroos/src/sync/condvar.rs:115-133 | wakes the best waiter if there is one |
| Condvars.Condvar.NotifyAll | kangaroos/src/sync/condvar.rs:139-159 | wakes everybody and requests a switch if any of them outranks CURRENT |
| Semaphores.Semaphore.Take | kangaroos/src/sync/semaphore.rs:69-101 | takes a token or parks the caller |
| Semaphores.Semaphore.TryTake | kangaroos/src/sync/semaphore.rs:107-117 | takes a token if there is one |
| Semaphores.Semaphore.Give | kangaroos/src/sync/semaphore.rs:126-157 | hands the token to the best waiter, stores it, or drops it at the maximum |
| Onces.Once.Begin | kangaroos/src/sync/once.rs:76-108 | the first caller runs the closure, callers during it park, later ones return |
| Onces.Once.Finish | kangaroos/src/sync/once.rs:118-140 | the cell is Done and every waiter is woken |
| Onces.Once.IsCompleted | kangaroos/src/sync/once.rs:144-146 | true if and only if the cell is Done |
| Channels.Channel.Send | kangaroos/src/channel/mod.rs:99-143 | hands the value to the best waiting receiver, appends it to the queue that the ring stands for, or parks the caller with it |
| Channels.Channel.TrySend | kangaroos/src/channel/mod.rs:145-183 | the same without parking; false if and only if nothing was done |
| Channels.Channel.Recv | kangaroos/src/channel/mod.rs:185-244 | returns the oldest item and refills the ring from the best parked sender, or parks the caller with an empty slot |
| Channels.Channel.TryRecv | kangaroos/src/channel/mod.rs:246-287 | the same without parking |
| Channels.RingIndexIsModular | kangaroos/src/channel/mod.rs:34-39 | the ring's places are `(head + i) mod N` |
| EventGroups.EventGroup.Set | kangaroos/src/sync/event_group.rs:87-181 | both scans with removal in the loop; the flags left are returned and a switch requested if a woken task outranks CURRENT |
| EventGroups.EventGroup.SetFromIsr | kangaroos/src/sync/event_group.rs:280-342 | the same, with the request returned to the caller |
| EventGroups.EventGroup.ScanList | kangaroos/src/sync/event_group.rs:100-136 | the cursor loop visits every node once, although it unlinks nodes on the way |
| EventGroups.EventGroup.Clear | kangaroos/src/sync/event_group.rs:184-188 | the flags of the mask are gone, the rest stay |
| EventGroups.EventGroup.WaitAny | kangaroos/src/sync/event_group.rs:199-237 | consumes the common flags and leaves them in `wait_ptr`, or parks the caller with its mask |
| EventGroups.EventGroup.WaitAll | kangaroos/src/sync/event_group.rs:243-270 | consumes the whole mask, or parks the caller with it |
| Pools.Pool.constructor | kangaroos/src/mem/mod.rs:61-81 | the free list links all slots in order and ends in 0xFF |
| Pools.Pool.Alloc | kangaroos/src/mem/mod.rs:87-121 | takes the first free slot and stores the value, or does nothing |
| Pools.Pool.AllocBlocking | kangaroos/src/mem/mod.rs:130-182 | the same, or parks the caller with its value |
| Pools.Pool.Available | kangaroos/src/mem/mod.rs:187-198 | the walk along the free list ends and counts the free slots |
| Pools.Pool.Drop | kangaroos/src/mem/mod.rs:237-273 | the slot goes to the best waiter with that waiter's value inside, or in front of the free list |
| Timers.Timer.After | kangaroos/src/timer/mod.rs:156-162 | the deadline is the delay from now, wrapping |
| Timers.Timer.Every | kangaroos/src/timer/mod.rs:166-173 | the deadline is one period from now, wrapping |
| Timers.Timer.WaitBegin | kangaroos/src/timer/mod.rs:180-182 | the caller is asleep until the timer's deadline, with a switch due |
| Timers.Timer.WaitEnd | kangaroos/src/timer/mod.rs:180-185 | after the sleep a periodic timer is set one period on, a one-shot timer stays |
| Runs.StepKeeps | kangaroos/src/port.rs:16-47 | every step of the machine keeps the whole invariant; only a step that locks or unlocks a mutex changes a priority; but for a tick and PendSV, whoever is Ready, asleep or dead stays so, and no stack pointer changes |
| Links.SchedulerLinks | kangaroos/src/kernel/scheduler.rs:86-352 | wherever a tick, PendSV, `yield_now`, `sleep_until` or `exit` is enabled, the method that carries it out may be called (for PendSV, `find_next` finds a task) and the step changes the kernel as its contract says and no object |
| Links.LockLinks | kangaroos/src/sync/mutex.rs:74-204 | the same for `lock`, also at the end of `wait`, `try_lock` and `unlock`: the caller is Running, or is the owner, and only the kernel and that mutex change |
| Links.CondvarLinks | kangaroos/src/sync/condvar.rs:93-159 | the same for `wait`, `notify_one` and `notify_all` |
| Links.TokenLinks | kangaroos/src/sync/semaphore.rs:69-157 | the same for the operations of semaphores and once cells |
| Links.ChannelLinks | kangaroos/src/channel/mod.rs:99-287 | the same for channels, with every parked sender offering a value |
| Links.EventLinks | kangaroos/src/sync/event_group.rs:87-270 | the same for event groups, with a mask in every waiter's `wait_ptr` |
| Links.PoolLinks | kangaroos/src/mem/mod.rs:87-273 | the same for pools, with the slot of a live box in range and not free |
| Links.TimerLinks | kangaroos/src/timer/mod.rs:156-185 | the same for timers; the return of any other blocking call changes nothing on the heap |
| Switching.SwitchIsExact | kangaroos/src/kernel/scheduler.rs:330-352 | PendSV stores the stack pointer in the outgoing task and nowhere else, keeps both quanta, and changes nothing but the states of the outgoing and the incoming task; the incoming one is the first in cyclic order of the top tier |
| Switching.SpIsWrittenBySwitch | kangaroos/src/kernel/scheduler.rs:338 | no step of any primitive but PendSV changes a stack pointer, and that only the current task's |
| Switching.ResumesWhereItLeftOff | kangaroos/src/kernel/scheduler.rs:337-351 | on every run the stack pointer handed out for a task is the one it was last switched out with, or its spawn value |
| Switching.LaunchIsExact | kangaroos/src/kernel/scheduler.rs:297-321 | the launch starts the last spawned of the highest-priority tasks with its whole time slice, and changes nothing else |
| Quanta.TickIsExact | kangaroos/src/kernel/scheduler.rs:86-166 | a tick charges CURRENT exactly one tick unless a Ready task is above it, refills the quantum with its last, and asks for a switch if and only if a Ready task is above it, or the quantum ran out and another Ready task has its priority; it wakes exactly the due sleepers |
| Quanta.SliceIsGranted | kangaroos/src/kernel/scheduler.rs:131-162 | on every run a task that starts with a full quantum and is not disturbed is rotated out by a tick if and only if something above it is Ready, or the tick completes a multiple of `max(1, time_slice)` and a peer is Ready |
| Quanta.NotBeforeItsSlice | kangaroos/src/kernel/scheduler.rs:131-149 | with nothing above it, a task is not rotated out before its `max(1, time_slice)`-th tick |
| Handovers.WakeHands | kangaroos/src/kernel/scheduler.rs:186-280 | waking one waiter lets in the foremost one (nobody above it, everybody in front of it below it) with a full quantum, keeps the order of the rest, asks for a switch if and only if it is above CURRENT, and changes nothing else |
| Handovers.DrainHandsAll | kangaroos/src/sync/condvar.rs:139-159 | waking all lets everybody in with a full quantum and asks for a switch if and only if one of them is above CURRENT |
| Outcomes.ExitOutcome | kangaroos/src/task.rs:211-217 | the caller is Dead and a switch due; nothing else changes |
| Outcomes.SleepOutcome | kangaroos/src/task.rs:196-201 | the caller sleeps until the deadline and a switch is due; nothing else changes |
| Outcomes.YieldOutcome | kangaroos/src/task.rs:146-158 | the caller's quantum is zero and a switch is due; nothing else changes |
| Outcomes.LockOutcome | kangaroos/src/sync/mutex.rs:74-118 | a free mutex is taken and the kernel left alone; otherwise the owner has the minimum of both priorities and the caller is parked in front |
| Outcomes.TryLockOutcome | kangaroos/src/sync/mutex.rs:144-153 | succeeds if and only if the mutex is free; otherwise nothing changes |
| Outcomes.UnlockOutcome | kangaroos/src/sync/mutex.rs:170-204 | the caller is at its base; the foremost waiter is let in and owns the mutex, or nobody does |
| Outcomes.CondWaitOutcome | kangaroos/src/sync/condvar.rs:93-107 | the caller is parked in front on the condition variable and the mutex goes on as in `unlock` |
| Outcomes.NotifyOneOutcome | kangaroos/src/sync/condvar.rs:115-133 | the foremost waiter is let in, or nothing changes |
| Outcomes.NotifyAllOutcome | kangaroos/src/sync/condvar.rs:139-159 | all waiters are let in |
| Outcomes.TakeOutcome | kangaroos/src/sync/semaphore.rs:69-101 | one token fewer if there is one, otherwise the caller is parked in front |
| Outcomes.TryTakeOutcome | kangaroos/src/sync/semaphore.rs:107-117 | succeeds if and only if a token is left |
| Outcomes.GiveOutcome | kangaroos/src/sync/semaphore.rs:126-157 | the foremost waiter is let in and the count stays; without waiters the count goes up by one, to the maximum at most |
| Outcomes.BeginOutcome | kangaroos/src/sync/once.rs:76-108 | the first caller starts the closure, callers during it are parked, for later ones nothing changes |
| Outcomes.FinishOutcome | kangaroos/src/sync/once.rs:118-140 | the cell is Done and all waiters are let in |
| Outcomes.SendOutcome | kangaroos/src/channel/mod.rs:99-143 | parks if and only if no receiver waits and the ring is full; otherwise the foremost receiver has the value, or it is last in the ring |
| Outcomes.TrySendOutcome | kangaroos/src/channel/mod.rs:145-183 | succeeds if and only if a receiver waits or there is room; otherwise nothing changes |
| Outcomes.RecvOutcome | kangaroos/src/channel/mod.rs:185-244 | returns the oldest item and lets the foremost sender in with its value last, or parks if and only if the ring is empty |
| Outcomes.TryRecvOutcome | kangaroos/src/channel/mod.rs:246-287 | returns the oldest item if and only if there is one |
| Outcomes.WaitAnyOutcome | kangaroos/src/sync/event_group.rs:199-237 | parks if and only if no flag of the mask is set; otherwise the old flags are the disjoint union of those left and those returned, which are exactly the common ones |
| Outcomes.WaitAllOutcome | kangaroos/src/sync/event_group.rs:243-270 | parks if and only if some flag of the mask is not set; otherwise the old flags are the disjoint union of those left and the mask |
| Outcomes.ClearOutcome | kangaroos/src/sync/event_group.rs:184-188 | exactly the flags outside the mask are left; nobody is woken |
| FlagShares.SetServes | kangaroos/src/sync/event_group.rs:87-181 | the two scans serve the waiters as one pass over their masks in list order would, those of `wait_any` first, each with all it has in common with what is left, then those of `wait_all` with all or nothing; a switch is requested if and only if somebody served is above CURRENT |
| FlagShares.SetOutcome | kangaroos/src/sync/event_group.rs:87-181 | that is all that `set` changes |
| Outcomes.AllocOutcome | kangaroos/src/mem/mod.rs:87-121 | fails, changing nothing, if and only if every slot is held; otherwise the slot freed last is a live box with the value and no other slot differs |
| Outcomes.AllocBlockingOutcome | kangaroos/src/mem/mod.rs:130-182 | parks with the value if and only if every slot is held; otherwise the same with the slot in `wait_ptr` |
| Outcomes.AllocEndOutcome | kangaroos/src/mem/mod.rs:160-182 | `alloc_blocking` returns a live box for its slot, with the caller's value inside |
| Outcomes.DropOutcome | kangaroos/src/mem/mod.rs:237-273 | the slot goes to the foremost waiter with that waiter's value inside, or in front of the free list; no other slot differs |
| Outcomes.AfterOutcome | kangaroos/src/timer/mod.rs:156-162 | the new timer is due once, the delay from now |
| Outcomes.EveryOutcome | kangaroos/src/timer/mod.rs:166-173 | the new timer is due one period from now and has that period |
| Outcomes.WaitEndOutcome | kangaroos/src/timer/mod.rs:180-185 | a periodic timer moves on by one period, a one-shot timer stays |
| Runs.LaunchFinds | kangaroos/src/kernel/scheduler.rs:297-321 | from freshly spawned tasks with one below 255 the launch establishes the scheduler's invariant with nothing Ready above CURRENT |
| Runs.BootInv | kangaroos/src/task.rs:111-123 | the invariant holds when the first task is launched |
| Runs.Safety | kangaroos/src/port.rs:16-47 | the whole invariant holds in every reachable state |
| KernelProofs.TickKeeps | kangaroos/src/kernel/scheduler.rs:86-166 | a tick keeps the scheduler's invariant and every priority, and requests every preemption it makes due |
| KernelProofs.SwitchKeeps | kangaroos/src/kernel/scheduler.rs:330-352 | a switch keeps them too, whatever was due, and leaves nothing Ready above the task it selects |
| Guarantees.OneRunningTask | kangaroos/src/kernel/scheduler.rs:336-350 | only CURRENT is Running, it is unless a switch is due, and the idle task is always runnable |
| Guarantees.SwitchSucceeds | kangaroos/src/kernel/scheduler.rs:342-350 | `find_next` never panics, its choice is Ready, and afterwards exactly that task is Running |
| Guarantees.WaitListsAreSound | kangaroos/src/kernel/scheduler.rs:207-280 | all wait lists of all primitives are free of repetition, pairwise disjoint, and hold exactly the Blocked tasks |
| Guarantees.ParkedPointersFit | kangaroos/src/kernel/tcb.rs:27-60 | `wait_ptr` is what the code that reads it takes it for, in every reachable state |
| DrainOrder.DrainIsStableSort | kangaroos/src/sync/condvar.rs:145-152 | draining a list wakes its tasks one by one in the stable sort of the list by priority |
| DrainOrder.OrderIsStableSort | kangaroos/src/sync/once.rs:128-132 | popping the best waiter until the list is empty yields that sort |
| DrainOrder.StableSortUnique | kangaroos/src/kernel/scheduler.rs:221-280 | there is only one such order |
| KernelProofs.DrainDrains | kangaroos/src/sync/once.rs:128-132 | the drain ends with the list empty, all its tasks Ready, and nobody else touched |
| Guarantees.MutualExclusion | kangaroos/src/sync/mutex.rs:74-124 | at most one guard of a mutex is live and its task is the owner |
| Guarantees.OwnersAreGuarded | kangaroos/src/sync/mutex.rs:74-124 | conversely an owner has a live guard unless it was let out of `lock` and has not returned from it yet |
| Guarantees.NoBarging | kangaroos/src/sync/mutex.rs:182-199 | waiters imply an owner, and a task let out of `lock` owns the mutex already |
| Guarantees.WaitersAreNotified | kangaroos/src/sync/condvar.rs:139-159 | a waiter not yet notified is on the list, and `notify_all` lets it out |
| Guarantees.WaitIsAtomic | kangaroos/src/sync/condvar.rs:93-107 | one step puts the caller on the list and takes the mutex and its guard away |
| Guarantees.LockReturnsOwner | kangaroos/src/sync/condvar.rs:109-112 | `lock` and `wait` return only to the owner |
| Priorities.StepEffect | kangaroos/src/sync/mutex.rs:74-204 | every step of any primitive claims, contends for, gives up or ignores a mutex, and changes priorities in no other way |
| Priorities.ExactKept | kangaroos/src/sync/mutex.rs:86-111 | a step of a task that owns no mutex when it locks keeps inheritance exact |
| Priorities.PreemptionKept | kangaroos/src/sync/mutex.rs:179-203 | with exact inheritance no step misses a preemption |
| Priorities.PreemptionKeptIff | kangaroos/src/sync/mutex.rs:175-203 | for every enabled operation: it misses no preemption if and only if, when it is `unlock`, a waiter of that mutex is above the caller's base priority or nothing Ready is |
| Priorities.BaseKept | kangaroos/src/sync/mutex.rs:86-102 | with any nesting no step lifts a priority above its base or leaves a boost behind |
| PriorityTheorems.InheritanceIsExact | kangaroos/src/sync/mutex.rs:86-111 | on runs of harmless steps every task runs at the minimum of its base and of the priorities of all that wait for any of its mutexes |
| PriorityTheorems.OwnerIsAtLowest | kangaroos/src/sync/mutex.rs:86-111 | on runs that lock one mutex at a time: at the minimum of its base and of that mutex's waiters, or at its base |
| PriorityTheorems.PreemptionIsNeverMissed | kangaroos/src/kernel/scheduler.rs:99-129 | on runs whose every `unlock` is covered, unless a switch is due, CURRENT is Running and nothing Ready outranks it |
| PriorityTheorems.NoUnboundedInversion | kangaroos/src/sync/mutex.rs:79-118 | on runs that meet both conditions, nested or not: while the owner can run, what runs has at least the waiter's priority |
| PriorityTheorems.DisciplinedIsHarmless | kangaroos/src/sync/mutex.rs:86-111 | a run in which a task locks only while it owns no mutex meets both conditions |
| Nesting.EveryBoostIsJustified | kangaroos/src/sync/mutex.rs:86-102 | on every run, with any nesting: no priority is below the base, and one above it is asked for by somebody who waits for a mutex of that task |
| Nesting.ExactIffNoInversion | kangaroos/src/sync/mutex.rs:86-111 | in every reachable state: all priorities are the minimum of the base and of all waiters of all owned mutexes if and only if no owner is outranked by a task that waits for it |
| Nesting.InheritanceHoldsIff | kangaroos/src/sync/mutex.rs:86-204 | a run never leads through an inversion if and only if each of its steps is harmless in the state before it |
| Nesting.PreemptionHoldsIff | kangaroos/src/sync/mutex.rs:175-203 | a run never misses a preemption if and only if each of its `unlock`s is covered in the state before it |
| PriorityTheorems.NoLeakedBoost | kangaroos/src/sync/mutex.rs:175-180 | on every run priorities are at most the base, and a task owning no mutex is exactly at its base |
| Nesting.InheritanceKeptIff | kangaroos/src/sync/mutex.rs:86-204 | for every enabled operation: owners stay at or above their waiters if and only if, when it gives a mutex up (`unlock`, `wait`), no other mutex of the caller has a waiter above its base, and, when it queues up for one (`lock`, the end of `wait`), the owner does not itself wait for a task below the caller |
| ChainedLocks.ChainLosesInheritance | kangaroos/src/sync/mutex.rs:86-102 | a run whose last step, a `lock` behind a task that waits itself, leaves an owner below its waiter, although nobody was before |
| NestedLocks.NestingCanBeHarmless | kangaroos/src/sync/mutex.rs:86-111 | a run that meets both conditions although a task owns two mutexes while a task above it waits for one |
| NestedLocks.NestingLosesBoth | kangaroos/src/sync/mutex.rs:179-180 | a reachable state with nested locks where a preemption was missed and an owner is below its waiter |
| RoundRobin.PotentialFalls | kangaroos/src/kernel/scheduler.rs:131-162 | every counted tick brings a waiting task of the top tier one tick closer to being selected |
| RoundRobin.BoundedWait | kangaroos/src/kernel/scheduler.rs:131-162 | a Ready task of a fixed top tier that was not selected has seen at most the sum of the others' `max(1, time_slice)` ticks and the ticks that came while a switch was due |
| Fairness.RoundRobinIsBounded | kangaroos/src/kernel/scheduler.rs:131-162 | the same on every run whose every `unlock` is covered, where CURRENT is known to be of the tier |
| StalledSwitch.LateTicksAreUnbounded | kangaroos/src/kernel/mod.rs:101-104 | the second part of that bound is needed: for any n there is a disciplined run with a fixed top tier, time slices of one, and n ticks before the other task is selected |
| Starvation.EqualsCanStarve | kangaroos/src/kernel/scheduler.rs:207-280 | for any n there is a run all along which a task is parked on a semaphore while n tokens go to another task of its own priority |
| RoundRobin.YieldGivesWay | kangaroos/src/task.rs:146-158 | with a Ready peer the switch after `yield_now` selects another task of the tier, and one tick is left of the caller's turn |
| RoundRobin.EachTakesOneTurn | kangaroos/src/kernel/scheduler.rs:22-72 | with a fixed top tier of k tasks any k consecutive switches select each exactly once |
| Guarantees.TokensAreConserved | kangaroos/src/sync/semaphore.rs:69-157 | initial + gives = count + granted + dropped, count at most max, and waiters only at count 0 |
| Guarantees.ClosureStartsOnce | kangaroos/src/sync/once.rs:76-141 | the closure starts at most once, and tasks wait only while it runs |
| Guarantees.OnceMovesForward | kangaroos/src/sync/once.rs:80-141 | no step of any primitive moves a once cell back, and only its own calls move it |
| Guarantees.OnceNeverReverts | kangaroos/src/sync/once.rs:76-141 | nor does any run |
| Guarantees.CallOnceReturnsDone | kangaroos/src/sync/once.rs:76-141 | a caller that had to wait returns in state Done |
| Guarantees.CallOnceEndsDone | kangaroos/src/sync/once.rs:80-141 | after a critical section of `call_once` the caller is parked, about to run the closure it alone started, or the cell is Done |
| Guarantees.ValuesAreConserved | kangaroos/src/channel/mod.rs:99-287 | accepted values are the delivered ones followed by the ring, in order; every sent value is delivered, buffered, offered by its parked sender or rejected, exactly once |
| Guarantees.NobodyIsStranded | kangaroos/src/channel/mod.rs:34-39 | senders are parked only at a full ring and receivers only at an empty one; for N >= 1 never both |
| Guarantees.ReceiverGetsItsValue | kangaroos/src/channel/mod.rs:234-240 | a receiver let out of `recv` finds the value that was handed to it |
| Rendezvous.ZeroCapacityStrands | kangaroos/src/channel/mod.rs:111-134 | for N = 0 both sides can be parked at once |
| EventBits.SetSplitsFlags | kangaroos/src/sync/event_group.rs:92-174 | old flags and mask are the disjoint union of the flags left and of those each woken task finds in `wait_ptr` |
| EventSteps.SetIsDone | kangaroos/src/sync/event_group.rs:101-171 | after `set` nobody is left on either list whose condition holds; a task woken from `wait_any` got a non-empty part of its mask, one from `wait_all` the whole |
| Guarantees.NobodyIsMissed | kangaroos/src/sync/event_group.rs:199-270 | in every reachable state no parked `wait_any` mask overlaps the flags and no parked `wait_all` mask is contained in them |
| Guarantees.WaitAnyReturnsPart | kangaroos/src/sync/event_group.rs:199-237 | `wait_any` returns a non-empty part of its mask |
| Guarantees.SlotsArePartitioned | kangaroos/src/mem/mod.rs:87-273 | the free list and the held slots partition 0..N, a held slot contains its holder's value, and tasks wait only when no slot is free |
| Guarantees.AvailableIsRest | kangaroos/src/mem/mod.rs:187-198 | the free slots number N minus the held ones |
| Guarantees.TenantsHaveTheirOwn | kangaroos/src/mem/mod.rs:160-182 | a task let out of `alloc_blocking` has a slot nobody else has, with its own value |
| Guarantees.SleepIsNeverEarly | kangaroos/src/kernel/scheduler.rs:107-117 | only a tick wakes a sleeper, and only at or after its deadline |
| Guarantees.SleepIsNeverForgotten | kangaroos/src/kernel/scheduler.rs:107-125 | after a tick that found CURRENT Running nobody sleeps past its deadline |
| Guarantees.SleepReturnsOnTime | kangaroos/src/task.rs:175-201 | when `sleep` returns its deadline has passed |
| Guarantees.DeadStaysDead | kangaroos/src/task.rs:203-221 | no step of any primitive brings a task back that exited |
| Guarantees.TimerKeepsPace | kangaroos/src/timer/mod.rs:180-185 | the n-th wait returned no earlier than its deadline, start plus n + 1 periods for a periodic timer, and the timer stands at the next one |

## Left out

- Assembly stubs, stack frames, canaries, peripheral set-up and `wfi`: a stack pointer is an opaque
  value that is saved and handed back.
- The v8m copies of the launch and the switch, which add one register write to the same logic.
- Spawning after the first task was launched: runs start from the launch; `SpawnInto` itself is
  proved on any kernel state.
- Panics inside a once closure, forgotten mutex guards, and blocking calls from interrupt handlers,
  which the source forbids or does not handle.
- The data protected by a mutex and the addresses in `wait_ptr`: a `WaitPtr` says whether it is a
  parked value, an empty or filled receive slot, a slot index or an event mask. `Drop` and
  `MaybeUninit` appear as the record of where each value is.
- Flag words are sets of bit positions below 32: union, intersection and difference stand for `|`,
  `&` and `& !`.
- A class that owns the kernel and every primitive at once: `Links` relates the steps and the methods
  operation by operation, and that a method leaves the other objects alone is its `modifies` clause.
- Task and primitive names, `defmt` logging, `Default` and `const` constructors, and the plain getters
  `Semaphore::count`, `EventGroup::get` and `current_priority`.
- Duration and Instant arithmetic.
- Guarantees.TimerKeepsPace: assumes that the tick counter has not wrapped, as the source does.
