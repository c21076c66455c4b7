# Verified models of gvthread and KSVC

This project models the concurrent core of the gvthread runtime and of the KSVC syscall service in Dafny and proves what
their correctness rests on. `dafny verify dfyconfig.toml` checks everything.

## What is modelled

**Green-thread life cycle** (`Lifecycle*.dfy`). The scheduler, the worker-local io_uring path, spawning and the sleep
timer are one step machine over any number of workers and other threads. One step is one metadata store, one locked queue
operation, one register save or one completion taken from a ring. The kernel's results are an arbitrary function of the
request. The central invariant counts every thread and every pending wake-up: each allocated id is in exactly one place,
and each blocked thread has at most one request, completion or sleep entry that names it. Where the code does not meet
this, the exact condition is proved: a timer wake between a thread's store of Blocked and its worker's look at that state
puts the thread in two places, and three kinds of steps leave a thread blocked with nothing left to wake it. Workers pop
as `SimpleQueue::pop` prescribes, with their counters and random victims, and wait in their rings when they find nothing
and have requests in flight. In such runs a blocked thread can still run again exactly if something names it that is not
a completion a later poll will drop, and not every worker waits in its ring for a completion that cannot come.

**Ready queue** (`ReadyQueue*.dfy`). The work-stealing queue is a class with the source's operations, specified by
functions on its contents; conservation, the bounded wait behind the periodic global check (with the counter's wrap-around
and 32-bit truncation) and the one-worker delivery bound are proved about those functions for all operation sequences.
When a steal succeeds and what it takes is said of the random draws themselves. An uninterrupted pop of the life cycle's
step machine is this pop (`LifecyclePop.dfy`).

**Idle workers** (`Parking*.dfy`). Parking, the parked counter and the notifications of pushes as interleaved steps: no
id is lost, and no worker pool sleeps on queued work in the condvar. With the I/O hooks workers also wait in their
rings, where pushes do not reach them; the three steps that leave queued work to nobody are characterised exactly.

**Timers** (`TimerHeap.dfy`, `TimerFacts.dfy`, `TimerRuns.dfy`). The heap with lazy cancellation refines a plain set of
live timers. In every run of the timer thread a timer fires once, in the first poll at or after its deadline, late by at
most the minimum sleep and the thread's own lag, or by a polling interval if it was inserted while the thread slept.

**Submit ring** (`Words.dfy`, `RingSlots.dfy`, `SubmitRing.dfy`, `SubmitSteps.dfy`). The ring with its real counters
refines a bounded FIFO; the same ring with every load, compare-exchange, write and read as a separate step keeps its
occupancy and claims in all interleavings, and its contents exactly when the consumer does not overtake a writer.

**Dispatcher** (`ExecutorRings.dfy`, `Dispatcher*.dfy`). The dispatcher's rings as classes, and the dispatcher loop, user
space, the I/O backend's contract and the worker pool as one step machine, with conservation over every run and
exactly-once completion under the outstanding-request bound. Each delivered result is exactly the kernel's or the pool's
for that request, or the error of its refusal. The contract includes that a poll returns every completion
it takes; `BasicIoUring` breaks it when more are ready than one poll may return.

**Context switch** (`ContextSwitch.dfy`, `Coroutines.dfy`). The assembly routines on a small register machine (sections
3.2.1 and 3.2.2 of the System V AMD64 ABI), voluntary switches as coroutines on any number of CPUs, and the exact
condition under which the forced restore is faithful. Memory is words at integer addresses; the exact condition is for
8-byte aligned save areas and stack pointers.

**HTTP server** (`Http*.dfy`, `SendAll.dfy`, `HeaderScan.dfy`). The event loop's connection machine: received bytes,
state and reply of a connection follow from the completions on it alone. The model includes the completion its poll
takes out of the ring without returning when more than 128 are ready, the worker-local send loop, and the header-end
detection of the Go and Rust programs (section 2.1 of RFC 9112).

**Slot allocator, ready bitmap, kernel module** (`SlotAllocator.dfy`, `SlotSteps.dfy`, `ReadyBitmap.dfy`,
`BitmapSteps.dfy`, `KernelInstance.dfy`). Sequential classes with the source's loops, interleaved step machines beside
them, and the module's staged set-up with its unwinding.

`Basics.dfy` and `Bags.dfy` hold shared definitions and multiset sums.

## Reading the models

- Concurrent parts are sequentially consistent interleavings. Locked sections are single steps; so is the check and store
  in a wake, which is safe for the worker-local path because only the polling worker wakes its own parked threads.
- A run is a sequence of steps each of which is enabled when its turn comes; theorems quantify over all runs.
- The source's comments say that wakes hint the current worker. The code never sets the value behind that hint, so the
  hint is always absent; the model allows both.
- In the life cycle a flush may fail and a ring wait may end early, since the worker ignores both errors. Results that say
  that a run exists are for runs in which neither happens; results about all runs include them. Threads choose when to
  yield, block, sleep and finish, and the kernel chooses when a flushed request completes.
- Spurious failures of weak compare-exchanges are a parameter of sequential methods and a flag of steps.
- The rejected submit stores EAGAIN or ENOSYS; both take the same path, and the model stores EAGAIN.
- A failed CREATE leaves entry counts and sizes of the rings as it set them. What the instance holds is as before, which
  is what is proved.

## Model

| member | source | states |
|---|---|---|
| `LifecycleSteps.StepKeepsInv` | crates/gvthread-runtime/src/scheduler.rs:476-661 | every atomic step of a worker, the kernel, a spawner or the timer thread, in any interleaving, keeps the accounting of threads and wake-ups, unless it is a timer wake of a thread its worker has not let go of |
| `LifecycleSteps.InitialInv` | crates/gvthread-runtime/src/scheduler.rs:394-460 | the state before the first spawn satisfies that accounting |
| `LifecycleTheorems.RunKeepsInv` | crates/gvthread-runtime/src/scheduler.rs:394-460 | so does every state of every run without such a wake |
| `LifecycleTheorems.OnePlaceIffTimely` | crates/gvthread-runtime/src/scheduler.rs:277-288 | a run keeps every allocated id in exactly one place (queued, in one worker's or spawner's hands, or parked) if and only if no timer wake falls between the thread's store of Blocked and its worker's look at that state |
| `LifecycleTheorems.EarlyWakeDoubles` | crates/gvthread-runtime/src/scheduler.rs:628-661 | a wake inside that window puts the thread in two places at once |
| `LifecycleTheorems.QueuedOnceAndSaved` | crates/gvthread-runtime/src/scheduler.rs:510-534 | a queued id is queued once, is Ready with its registers saved, waits for nothing, and is in nobody's hands |
| `LifecycleTheorems.ReleasedAlone` | crates/gvthread-runtime/src/scheduler.rs:290-303 | a slot is released only when it is Finished, no queue, worker, spawner, request or sleep entry has its id, and afterwards it is nowhere |
| `LifecycleTheorems.ReadsOwnResult` | crates/ksvc-gvthread/src/syscall.rs:266-284 | the value a thread reads after a blocking worker-local call is the kernel's result of the request made in that call, across slot reuse and migration between workers |
| `LifecycleTheorems.CompletionFindsParked` | crates/ksvc-gvthread/src/worker_reactor.rs:192-212 | a completion is processed only after its thread has parked: the wake finds it Blocked, saved and waiting for that request, with the result in its slab entry, and makes it Ready |
| `LifecycleTheorems.BatchAlwaysFits` | crates/gvthread-runtime/src/ready_queue/simple.rs:301-309 | the local push whose result the batch grab ignores never fails |
| `LifecyclePop.UninterruptedPop` | crates/gvthread-runtime/src/ready_queue/simple.rs:280-317 | the steps of a pop that nobody interrupts, from its first look to its return, leave exactly the queues, counters and random states that the ready queue's pop gives, and the worker holds exactly the id it returns, or has found nothing |
| `LifecyclePop.PushesArePushes` | crates/gvthread-runtime/src/ready_queue/simple.rs:257-278 | every push of a worker, a spawner or the timer thread leaves the queues as the ready queue's push with that hint does |
| `LifecyclePop.QueuesAreFifo` | crates/gvthread-runtime/src/ready_queue/simple.rs:36-141 | every step of anybody takes from the front of each queue and adds at its back |
| `LifecycleLost.StepTickets` | crates/gvthread-runtime/src/timer/mod.rs:165-202 | a step that neither wakes a waiting thread nor loses its wake-up leaves the thread waiting and its request, completion or sleep entry in existence |
| `LifecycleLost.ForgottenIffLost` | crates/gvthread-runtime/src/timer/mod.rs:187-200 | step by step: a waiting thread is left with nothing that could wake it exactly by a timer that finds it not yet Blocked or by a poll that takes its completion as the surplus one |
| `LifecycleRuns.ForgottenIffMissed` | crates/gvthread-runtime/src/timer/mod.rs:165-202 | at the end of every run, a thread is blocked with nothing that could wake it if and only if a rejected submit began its current wait or a losing step hit that wait |
| `LifecycleRuns.OneRequestOnOwnRing` | crates/ksvc-gvthread/src/worker_reactor.rs:155-186 | a waiting thread has exactly one request, completion or sleep entry, or none if its wait was hit so; a request or completion is on the ring of the worker it blocked on, and the thread is parked or on its way to parking there |
| `LifecycleRuns.LosslessRunsKeepAll` | crates/ksvc-gvthread/src/worker_reactor.rs:155-212 | in a run without rejected submits and losing steps every waiting thread has exactly one, in its place |
| `LifecycleHopeless.ForgottenForever` | crates/gvthread-runtime/src/scheduler.rs:628-661 | a thread with nothing to wake it stays so, unqueued and not executing, in every continuation, premature wakes included |
| `LifecycleHopeless.HopelessIff` | crates/ksvc-module/src/basic_iouring.rs:355-371 | a waiting thread is hopeless if and only if nothing names it or its completion sits where a later poll will take it without returning it: at a position 256 modulo 257 of its ring |
| `LifecycleHopeless.HopelessForever` | crates/gvthread-runtime/src/scheduler.rs:628-661 | a hopeless thread never executes and is never queued, in every continuation, premature wakes included |
| `LifecycleResume.ResumesIff` | crates/gvthread-runtime/src/scheduler.rs:394-661 | from every state of a smooth run (flushes succeed, ring waits end with a completion, wakes carry no hint, no premature timer wake) with a timer thread: a waiting thread has a smooth continuation in which it executes again, with the pop counters and victim draws of the code, if and only if it is not hopeless and some worker is not barred in its ring |
| `LifecycleResume.BarredForever` | crates/ksvc-gvthread/src/worker_reactor.rs:214-247 | once every worker waits in its ring, or is bound to because a poll dropped a completion, with no request or completion left in it, no thread executes in any smooth continuation |
| `LifecycleBarred.LostCompletionBarsWorker` | crates/ksvc-gvthread/src/worker_reactor.rs:214-247 | a smooth run from the start that ends so: after 257 completions were ready at once, the request of the dropped one still counts as in flight, and the worker that runs out of work waits for ever |
| `LifecycleOverflow.CompletionsPileUp` | crates/ksvc-gvthread/src/worker_reactor.rs:155-247 | any number of threads can be parked on one worker that waits in its ring with all their completions ready, in a smooth run from the start |
| `LifecycleOverflow.SurplusIsHopeless` | crates/ksvc-module/src/basic_iouring.rs:355-371 | a run from the start to 257 ready completions: the last thread is still named by its completion, cannot run in any continuation, and the next poll leaves nothing that names it |
| `LifecycleLost.RejectedSubmitForgets` | crates/ksvc-gvthread/src/worker_reactor.rs:172-186 | the failing branch of submit always leads there: its wake finds the thread still Running, then the thread parks |
| `LifecycleLost.AcceptedSubmitCounts` | crates/ksvc-gvthread/src/worker_reactor.rs:172-174 | an accepted submit leaves exactly one request that will wake the thread |
| `LifecycleLost.MissedSleepForgets` | crates/gvthread-runtime/src/timer/mod.rs:226-258 | a sleep whose timer fires before Blocked is stored leads there |
| `LifecycleLost.PollOverflowForgets` | crates/ksvc-module/src/basic_iouring.rs:355-371 | with more completions ready than the limit, the one just past the limit is taken from the ring and not returned, and its thread is never woken |
| `LifecycleWitness.ThreadInTwoPlaces` | crates/gvthread-runtime/src/scheduler.rs:628-661 | a run from the start that puts a thread in two places: the timer wakes it right after Blocked is stored and before its registers are saved |
| `LifecycleWitness.SleeperIsForgotten` | crates/gvthread-runtime/src/timer/mod.rs:226-258 | a run from the start that leaves a sleeper with nothing to wake it |
| `LifecycleWitness.RejectedCallerIsForgotten` | crates/ksvc-gvthread/src/worker_reactor.rs:172-186 | a run from the start that leaves the caller of a rejected submit with nothing to wake it |
| `LifecycleRoundTrips.YieldRoundTrip` | crates/gvthread-runtime/src/scheduler.rs:575-619 | a yield on a worker with nothing else to do, whose next pop is not due to take a thread from the global queue, comes back to the state it left but for the worker's pop counter and ring counts |
| `LifecycleRoundTrips.IoRoundTrip` | crates/ksvc-gvthread/src/syscall.rs:266-284 | a blocking worker-local call parks, its worker finds nothing and waits in the ring, the completion wakes the thread through the global queue, and the call returns to the state it left, but for the kernel's result in the slab and the worker's own counts |
| `LifecycleRoundTrips.SpawnRoundTrip` | crates/gvthread-runtime/src/scheduler.rs:199-251 | a thread that is spawned, run and finished leaves the whole state as it was, but for the worker's own counts |
| `ReadyQueue.SimpleQueue.constructor` | crates/gvthread-runtime/src/ready_queue/simple.rs:195-206 | one empty local queue and a zero counter per worker |
| `ReadyQueue.SimpleQueue.LocalPush` | crates/gvthread-runtime/src/ready_queue/simple.rs:40-48 | appends unless 256 ids are queued, and says which |
| `ReadyQueue.SimpleQueue.LocalPop` | crates/gvthread-runtime/src/ready_queue/simple.rs:51-59 | takes the oldest id of a local queue |
| `ReadyQueue.SimpleQueue.StealHalf` | crates/gvthread-runtime/src/ready_queue/simple.rs:62-79 | removes the older half of a queue in order, nothing from a queue of one |
| `ReadyQueue.SimpleQueue.GlobalPop` | crates/gvthread-runtime/src/ready_queue/simple.rs:116-124 | takes the oldest id of the global queue |
| `ReadyQueue.SimpleQueue.PopBatch` | crates/gvthread-runtime/src/ready_queue/simple.rs:127-141 | removes the first ids up to the limit, in order |
| `ReadyQueue.SimpleQueue.RandomVictim` | crates/gvthread-runtime/src/ready_queue/simple.rs:209-219 | draws the next victim from the worker's own generator state and touches nothing else |
| `ReadyQueue.SimpleQueue.TrySteal` | crates/gvthread-runtime/src/ready_queue/simple.rs:222-247 | up to four draws; on a hit one id is returned and the rest moved to the thief's queue, spilling when full; ReadyQueueSteals.StealsIff says when and what, without this function |
| `ReadyQueue.SimpleQueue.Push` | crates/gvthread-runtime/src/ready_queue/simple.rs:257-278 | the hinted local queue if it has room, otherwise the global queue |
| `ReadyQueue.SimpleQueue.Pop` | crates/gvthread-runtime/src/ready_queue/simple.rs:280-317 | periodic global check, local, global with batch grab, steal, in this order; ReadyQueueSteals.PopOldest and PopSteals say what comes out, without this function |
| `ReadyQueueFacts.PushConserves` | crates/gvthread-runtime/src/ready_queue/simple.rs:257-278 | a push adds exactly its id to what is queued |
| `ReadyQueueFacts.PopConserves` | crates/gvthread-runtime/src/ready_queue/simple.rs:280-317 | a pop removes exactly the id it returns from what is queued, through batch grab and steal |
| `ReadyQueueFacts.PopPrompt` | crates/gvthread-runtime/src/ready_queue/simple.rs:280-317 | a worker with anything in its own or the global queue is never sent away, and a pop that finds nothing moves nothing |
| `ReadyQueueFacts.RunConserves` | crates/gvthread-runtime/src/ready_queue/simple.rs:222-317 | over any sequence of pushes and pops by any workers, initial plus pushed equals remaining plus popped, as multisets |
| `ReadyQueueSteals.StealsIff` | crates/gvthread-runtime/src/ready_queue/simple.rs:209-247 | a steal succeeds if and only if one of its draws, iterating the generator from the worker's state, is another worker with at least two ids; it returns the oldest id of the first such worker, the rest of the older half goes behind the thief's own ids in order and what does not fit behind the global queue, and the victim keeps the newer half |
| `ReadyQueueSteals.PopSteals` | crates/gvthread-runtime/src/ready_queue/simple.rs:280-317 | a pop that finds its own and the global queue empty returns an id if and only if one of min(n, 4) draws is such a worker, and then moves exactly these ids |
| `ReadyQueueSteals.PopOldest` | crates/gvthread-runtime/src/ready_queue/simple.rs:280-309 | any other pop returns the oldest id of the first queue that is not empty: the global one when the check is due, its own, the global one, of which at most 128 more become its own in order; no other queue is touched |
| `ReadyQueueFairness.LeavesInTime` | crates/gvthread-runtime/src/ready_queue/simple.rs:280-294 | an id with k ids ahead of it leaves the global queue within 61(k+1) pops of any one worker, whatever arrives or is taken meanwhile and wherever the wrapping, truncated counter stands |
| `ReadyQueueFairness.StealNeverSpills` | crates/gvthread-runtime/src/ready_queue/simple.rs:222-247 | a worker that steals with an empty queue never pushes to the global queue |
| `ReadyQueueFairness.OperationsAreEvents` | crates/gvthread-runtime/src/ready_queue/simple.rs:257-317 | every push and every pop by any worker changes the global queue as that bound assumes |
| `ReadyQueueFairness.GlobalWaitBounded` | crates/gvthread-runtime/src/ready_queue/simple.rs:280-309 | the bound for real sequences of queue operations |
| `ReadyQueueFairness.MovesTruly` | crates/gvthread-runtime/src/ready_queue/simple.rs:280-317 | following one queued occurrence through an operation with one worker: it is where the tracking says, and is returned when it says so |
| `ReadyQueueFairness.DeliveredInTime` | crates/gvthread-runtime/src/ready_queue/simple.rs:280-309 | with one worker a queued id is returned by a pop within 61(k+1)+256 pops from position k of the global queue and within 2(p+1) from position p of the local queue |
| `Parking.StepKeeps` | crates/gvthread-runtime/src/ready_queue/simple.rs:104-150 | every step of pushes, parks and pops, in any interleaving, keeps: searching and waiting workers have empty local queues, the parked counter is the number of workers inside park, and work with everybody waiting implies a push with its notification ahead |
| `Parking.NoIdleWithWork` | crates/gvthread-runtime/src/scheduler.rs:394-460 | in every interleaving, while an id is queued anywhere some worker is not in the condvar wait or some push still has its first notification ahead |
| `Parking.PendingPushWakes` | crates/gvthread-runtime/src/ready_queue/simple.rs:104-114 | that push cannot find the parked counter at zero, and its notification takes a worker out of the wait |
| `Parking.WaitersAreEmptyAndCounted` | crates/gvthread-runtime/src/ready_queue/simple.rs:143-150 | a waiting worker has an empty local queue and is covered by the parked counter |
| `ParkingConserves.EveryRunConserves` | crates/gvthread-runtime/src/ready_queue/simple.rs:36-317 | in every interleaving, as multisets, the ids in the global queue, in the local queues, in the hands of workers that are grabbing a batch or hauling stolen ids, and those that pops have returned are exactly the ids pushed |
| `ParkingOrder.QueuesAreFifo` | crates/gvthread-runtime/src/ready_queue/simple.rs:36-141 | every step takes from the front of each queue and adds at its back |
| `ParkingOrder.ReadersNotifyIffParked` | crates/gvthread-runtime/src/ready_queue/simple.rs:104-114 | whoever has pushed and looks at the parked counter goes on to notify if and only if it is positive, and does nothing else before |
| `ParkingOrder.LooksAreMade` | crates/gvthread-runtime/src/ready_queue/simple.rs:257-278 | a push to the worker's own queue is followed by one look at the parked counter, a push to the global queue by two |
| `ParkingOrder.OutLooksAreMade` | crates/gvthread-runtime/src/ready_queue/simple.rs:257-278 | so it is for pushes of other threads, which go to the global queue |
| `Parking.UncoversIff` | crates/gvthread-runtime/src/scheduler.rs:428-438 | with the I/O hooks: from a reachable state in which queued work has a worker out of condvar and ring or a pending push, a step ends this if and only if it is the last awake worker's ring wait with the global queue not empty and no push pending, the only pending push's look at a zero parked counter, or its notification that reaches nobody |
| `Parking.CoveredIff` | crates/gvthread-runtime/src/scheduler.rs:428-438 | work is covered so throughout a run if and only if the run contains none of those three steps |
| `Parking.RingWaitersAreNotNotified` | crates/gvthread-runtime/src/scheduler.rs:428-438 | a run from the start that does: a worker in its ring for the request of a thread it ran is not counted as parked, and the id pushed then is the only one queued, with nobody to come for it |
| `TimerHeap.HeapTimerBackend.constructor` | crates/gvthread-runtime/src/timer/impls/heap.rs:70-79 | an empty heap without marks |
| `TimerHeap.HeapTimerBackend.NewHandle` | crates/gvthread-runtime/src/timer/entry.rs:13-19 | every handle is issued once |
| `TimerHeap.HeapTimerBackend.HeapPush` | crates/gvthread-runtime/src/timer/impls/heap.rs:41-50 | the heap gives entries up by deadline, then by handle |
| `TimerHeap.HeapTimerBackend.Insert` | crates/gvthread-runtime/src/timer/impls/heap.rs:140-146 | adds the entry and returns its handle |
| `TimerHeap.HeapTimerBackend.Cancel` | crates/gvthread-runtime/src/timer/impls/heap.rs:148-156 | marks the handle; true if and only if it was not marked |
| `TimerHeap.HeapTimerBackend.Collect` | crates/gvthread-runtime/src/timer/impls/heap.rs:158-187 | the sweep pops what is due, drops what is marked with its mark, and prepares one successor per fired periodic timer |
| `TimerHeap.HeapTimerBackend.PollExpired` | crates/gvthread-runtime/src/timer/impls/heap.rs:158-200 | sweep, rescheduling after the sweep, and clearing of the marks when the heap is empty; one report per entry swept, in order, with its thread, worker and kind; terminates for every interval |
| `TimerHeap.HeapTimerBackend.NextDeadline` | crates/gvthread-runtime/src/timer/impls/heap.rs:202-208 | the deadline at the head of the heap, marked or not |
| `TimerHeap.HeapTimerBackend.Len` | crates/gvthread-runtime/src/timer/impls/heap.rs:210-214 | heap size less number of marks, not below zero |
| `TimerFacts.SweepFacts` | crates/gvthread-runtime/src/timer/impls/heap.rs:163-187 | exactly the due and unmarked entries fire, in (deadline, handle) order; everything later stays; exactly the marks of due entries are used up |
| `TimerFacts.SuccessorsMatch` | crates/gvthread-runtime/src/timer/entry.rs:197-208 | one successor per fired periodic timer, in firing order, with the next fresh handle, a deadline one interval after its own clock reading, and the fired timer's thread, worker and kind |
| `TimerFacts.PollRefines` | crates/gvthread-runtime/src/timer/impls/heap.rs:158-200 | a poll of the heap is a poll of the set of live timers, and reports each fired timer's thread, worker and kind in order: no stale mark ever suppresses another timer |
| `TimerFacts.InsertIff` | crates/gvthread-runtime/src/timer/impls/heap.rs:140-146 | an inserted entry becomes live if and only if its handle carries no mark |
| `TimerFacts.CancelRefines` | crates/gvthread-runtime/src/timer/impls/heap.rs:148-156 | cancelling removes exactly the timer with that handle, if it is pending, and a live timer's handle is never already marked |
| `TimerFacts.RunRefines` | crates/gvthread-runtime/src/timer/impls/heap.rs:139-200 | for every sequence of inserts, cancels (also of fired handles) and polls, the backend answers like the plain set of live timers: polls report thread, worker and kind of exactly the due ones in order, and a cancel answers true if it is the first of a pending timer, false if it is a repeated one |
| `TimerFacts.CountersCount` | crates/gvthread-runtime/src/timer/impls/heap.rs:139-200 | in every run the three counters count the inserts, the reports and the cancels that answered true |
| `TimerFacts.LenIff` | crates/gvthread-runtime/src/timer/impls/heap.rs:210-214 | `len` never over-reports, and is exact if and only if no mark is stale or nothing is live |
| `TimerFacts.PendingCancelsKeepLenExact` | crates/gvthread-runtime/src/timer/impls/heap.rs:148-156 | if only pending timers are cancelled, `len` is exact in every run |
| `TimerFacts.UnissuedMarkSuppresses` | crates/gvthread-runtime/src/timer/impls/heap.rs:148-156 | marking a handle before it is issued does suppress the timer later given it |
| `TimerFacts.NeverOversleeps` | crates/gvthread-runtime/src/timer/worker.rs:241-262 | the computed sleep ends no later than max(deadline, now + min_sleep) for every live timer, is zero when one is due, stays within the polling interval, and ignores deadlines only when nothing is live; with an empty heap it is the whole interval, and with nothing due at least min_sleep and up to the interval or an entry's deadline |
| `TimerFacts.FiresPromptly` | crates/gvthread-runtime/src/timer/worker.rs:210-236 | over one round of the timer thread, a live timer that is due by the next poll is itself reported and gone after it, no later than max(deadline, now + min_sleep); one that is not due does not fire and stays live |
| `TimerRuns.FiresOnTime` | crates/gvthread-runtime/src/timer/worker.rs:200-262 | over every run of the timer thread, with other threads inserting and cancelling while it sleeps and any bounded lag: a timer that is not cancelled fires in the first poll at or after its deadline, late by at most min_sleep and two lags |
| `TimerRuns.InsertedFiresOnTime` | crates/gvthread-runtime/src/timer/worker.rs:200-262 | a timer inserted while the thread sleeps is seen by the poll that ends this sleep, at most max(min_sleep, max_poll_interval) and a lag after it began, and then fires on time |
| `TimerRuns.FiredOnce` | crates/gvthread-runtime/src/timer/impls/heap.rs:158-200 | in every run no entry is reported twice, if each is inserted under a new handle |
| `Words.AndMask` | crates/ksvc-module/src/submit_ring.rs:177-181 | masking with a power of two less one is the remainder |
| `Words.SlotOfPosition` | crates/ksvc-module/src/submit_ring.rs:180-182 | a 64-bit counter truncated to 32 bits and masked addresses its position modulo the ring size, also across the 2^64 wrap |
| `Words.PowerOfTwoIff` | crates/ksvc-module/src/submit_ring.rs:109-111 | the header check accepts exactly the powers of two |
| `SubmitRing.SubmitRing.constructor` | crates/ksvc-module/src/submit_ring.rs:93-142 | a ring starting at any counter value is empty |
| `SubmitRing.SubmitRing.TryPush` | crates/ksvc-module/src/submit_ring.rs:156-198 | appends and never overwrites an unread entry; refuses if and only if the ring holds its size; spurious compare-exchange failures change nothing |
| `SubmitRing.SubmitRing.ReadEntries` | crates/ksvc-module/src/submit_ring.rs:235-240 | the read loop copies exactly the entries at the given positions, in order, also across the wrap |
| `SubmitRing.SubmitRing.DequeueBatch` | crates/ksvc-module/src/submit_ring.rs:224-250 | returns the oldest entries in order, as many as available, asked for and room for, and removes exactly those |
| `SubmitRing.SubmitRing.Len` | crates/ksvc-module/src/submit_ring.rs:260-264 | the number of entries, across the wrap |
| `SubmitRing.SubmitRing.IsEmpty` | crates/ksvc-module/src/submit_ring.rs:253-257 | true if and only if nothing is queued |
| `SubmitRing.Execute` | crates/ksvc-module/src/submit_ring.rs:156-250 | any sequence of pushes and dequeues executed on the ring leaves the contents and returns the answers of a bounded FIFO run on the same sequence |
| `SubmitRing.RunIsFifo` | crates/ksvc-module/src/submit_ring.rs:156-250 | over every such run, dequeued then remaining entries are the initial then accepted entries, in order, and never more than the ring size is held |
| `SubmitSteps.StepKeepsBase` | crates/ksvc-module/src/submit_ring.rs:156-250 | every interleaved load, compare-exchange, write, read and head store keeps head <= tail <= head + size and one claimant per position |
| `SubmitSteps.ClaimsAreUnique` | crates/ksvc-module/src/submit_ring.rs:170-184 | in every interleaving a claimed position belongs to one producer and to the entry it is pushing |
| `SubmitSteps.DequeueTakesAvailable` | crates/ksvc-module/src/submit_ring.rs:224-234 | a dequeue takes everything claimed, from the oldest on, unless that is more than it asked for |
| `SubmitSteps.DequeuesWhatWasClaimed` | crates/ksvc-module/src/submit_ring.rs:224-250 | if the consumer never reads a position before its claimant has written it, everything dequeued is, in order and without gap, what the claimants of positions 0, 1, 2, ... pushed |
| `SubmitSteps.AlwaysReadsOwnIffPatient` | crates/ksvc-module/src/submit_ring.rs:224-250 | in every run from the start, every read returns what the claimant of its position pushed if and only if the consumer never reads a position before its claimant has written it |
| `SubmitSteps.RefusedIff` | crates/ksvc-module/src/submit_ring.rs:159-166 | a producer is refused if and only if the head it reads has passed the tail it loaded, or that tail is current and the ring is full |
| `SubmitSteps.ImpatientConsumerReadsNothing` | crates/ksvc-module/src/submit_ring.rs:170-184 | a claim is readable before its entry is written: a run in which the consumer dequeues a slot nobody wrote |
| `SubmitSteps.OvertakenProducerIsRefused` | crates/ksvc-module/src/submit_ring.rs:159-166 | a run in which a producer overtaken between its two loads is refused although the ring is empty |
| `ExecutorRings.SubmitRing.constructor` | crates/ksvc-executor/src/lib.rs:75-87 | a consumer at the shared head |
| `ExecutorRings.SubmitRing.DequeueBatch` | crates/ksvc-executor/src/lib.rs:106-121 | the oldest entries in order, removed and published as consumed |
| `ExecutorRings.CompletionRing.constructor` | crates/ksvc-executor/src/lib.rs:141-154 | a producer at the shared tail with nothing unpublished |
| `ExecutorRings.CompletionRing.Available` | crates/ksvc-executor/src/lib.rs:170-173 | the free slots, counting unpublished completions as used |
| `ExecutorRings.CompletionRing.Push` | crates/ksvc-executor/src/lib.rs:176-193 | refused if and only if the ring is full; otherwise appended to the unpublished ones without touching an unread one |
| `ExecutorRings.CompletionRing.Flush` | crates/ksvc-executor/src/lib.rs:196-203 | publishes everything written, in order, and says how much |
| `DispatcherFacts.StepKeeps` | crates/ksvc-executor/src/lib.rs:243-376 | every step of the dispatcher, user space, the kernel or a pool thread keeps every request accounted for and the total load right |
| `DispatcherFacts.StepTidies` | crates/ksvc-executor/src/lib.rs:243-368 | which buffers can be in use at which point of the loop |
| `DispatcherFacts.StepHonest` | crates/ksvc-executor/src/lib.rs:288-353 | every completion carries exactly the result its request is owed: the backend's or the pool's for that request, or the error of its refusal if it was refused, or ENOSYS if the router knows no tier for it; and no refused request is still on its way |
| `DispatcherTheorems.EveryRunConserves` | crates/ksvc-executor/src/lib.rs:243-376 | in every run a submitted request is at one place, delivered once or dropped once, and nothing else is ever delivered |
| `DispatcherTheorems.DeliveredResults` | crates/ksvc-executor/src/lib.rs:288-353 | in every run a delivered completion of a pool request has the pool's result for it if it was not refused and EAGAIN if it was; of a backend request the kernel's result, or EAGAIN or ENOSYS by the kind of refusal; any other has ENOSYS |
| `DispatcherTheorems.RefusesIffNotTaken` | crates/ksvc-executor/src/lib.rs:300-353 | a step refuses a request if and only if it routes it to a backend that does not take it or to a pool whose queue is full |
| `DispatcherTheorems.ModestPoolResults` | crates/ksvc-module/src/fixed_pool.rs:81-90 | with outstanding requests within the bound every delivered completion of a pool request has the pool's result for it |
| `DispatcherOrder.CompletionsKeepTheirOrder` | crates/ksvc-executor/src/lib.rs:243-376 | in every run user space sees completions in the order in which they were pushed |
| `DispatcherOrder.RequestsAreRoutedInOrder` | crates/ksvc-executor/src/lib.rs:276-353 | in every run requests are routed in the order of submission, and no batch, buffer, queue or ring exceeds its limit |
| `DispatcherTheorems.ExactlyOnce` | crates/ksvc-executor/src/lib.rs:243-376 | with outstanding requests never above the completion ring size and the pool's queue depth nothing is dropped, so each request is on its way or delivered exactly once with its own corr_id; rests on a backend that returns every completion, which BasicIoUring does only up to the poll limit |
| `DispatcherTheorems.PoolNeverRefuses` | crates/ksvc-module/src/fixed_pool.rs:81-90 | within that bound the pool has room for everything dequeued |
| `DispatcherTheorems.IterationsEndClean` | crates/ksvc-executor/src/lib.rs:276-368 | every iteration ends with all completions published and notified, everything dequeued routed and everything queued to the backend kicked |
| `DispatcherTheorems.CrowdedRingDrops` | crates/ksvc-executor/src/lib.rs:344-351 | the bound is tight for every ring size n: with n + 1 outstanding requests a completion can be dropped |
| `ContextSwitch.AlignDownIs` | crates/gvthread-runtime/src/arch/x86_64/mod.rs:24-29 | the stack top is rounded down to a multiple of 16 |
| `ContextSwitch.FreshEntry` | crates/gvthread-runtime/src/arch/x86_64/mod.rs:18-54 | a fresh context enters its function with its argument and (rsp + 8) divisible by 16, and so does the cleanup after it, for any stack top |
| `ContextSwitch.ForcedRestoreIff` | crates/gvthread-runtime/src/arch/x86_64/mod.rs:94-121 | for 8-byte aligned save area and saved rsp, the forced restore reproduces all general registers, rip, flags and rsp if and only if its two pushes do not change the words it has yet to read |
| `ContextSwitch.ForcedRestoreOutside` | crates/gvthread-runtime/src/arch/x86_64/mod.rs:94-121 | in particular when the save area lies outside the 16 bytes below the saved rsp |
| `ContextSwitch.ForcedRestoreWrites` | crates/gvthread-runtime/src/arch/x86_64/mod.rs:112-119 | it overwrites exactly the two words below the restored stack pointer, which belong to the red zone |
| `Coroutines.SwitchSpec` | crates/gvthread-runtime/src/arch/x86_64/mod.rs:60-90 | one switch saves the leaver, changes nothing else but its return slot, and resumes the other |
| `Coroutines.EventKeeps` | crates/gvthread-runtime/src/arch/x86_64/mod.rs:60-90 | switches, set-ups and other code that respects save areas and return slots keep every suspended context intact |
| `Coroutines.ResumesExactly` | crates/gvthread-runtime/src/arch/x86_64/mod.rs:60-90 | after any run on any number of CPUs a resumed context has exactly the rsp, rbx, rbp, r12-r15 and return address it left with, or starts in the trampoline |
| `HttpServer.IdRoundTrip` | cmd/httpd/rust/ksvc/src/main.rs:48-50 | operation and index can be told apart again from a correlation id |
| `HttpServer.ConnSlab.constructor` | cmd/httpd/rust/ksvc/src/main.rs:161-168 | all slots free, slot 0 handed out first |
| `HttpServer.ConnSlab.Alloc` | cmd/httpd/rust/ksvc/src/main.rs:170-184 | fails if and only if every slot is live; otherwise the slot freed last is taken, with the given descriptor, and no other touched |
| `HttpServer.ConnSlab.Free` | cmd/httpd/rust/ksvc/src/main.rs:190-193 | the slot is free again; the slab stays sound if and only if it was live |
| `HttpServer.ConnSlab.Active` | cmd/httpd/rust/ksvc/src/main.rs:195-197 | live connections are what the free list leaves over |
| `HttpFacts.HandleKeeps` | cmd/httpd/rust/ksvc/src/main.rs:407-634 | handling any completion keeps operations and losses accounted for per connection, the fit between operation and state, and the partition of the slab |
| `HttpFacts.StepKeeps` | cmd/httpd/rust/ksvc/src/main.rs:402-634 | so does every step of the event loop and the kernel |
| `HttpFacts.AlwaysAccounted` | cmd/httpd/rust/ksvc/src/main.rs:402-634 | in every run the accept and each live connection have exactly one operation that is outstanding or lost, and a free slot has none |
| `HttpFacts.OneOperationEachIff` | cmd/httpd/rust/ksvc/src/main.rs:402-634 | exactly one accept and exactly one operation per live connection are outstanding throughout a run if and only if no poll in it found more than 128 completions ready and no handler submitted into a full submission queue |
| `HttpFacts.OneOperationEachIffNeverCrowded` | cmd/httpd/rust/ksvc/src/main.rs:402-444 | in runs whose flushes succeed: if and only if no poll found more than 128 ready |
| `HttpFacts.LosesIffOverflows` | crates/ksvc-module/src/basic_iouring.rs:355-371 | step by step: something is lost exactly in such a poll or submit |
| `HttpFacts.LostForever` | cmd/httpd/rust/ksvc/src/main.rs:402-634 | an accept or connection whose operation is lost has none for the rest of every run |
| `HttpWitness.ListenerIsLost` | cmd/httpd/rust/ksvc/src/main.rs:402-405 | a run from the start in which the accept's completion is the 129th: no accept is outstanding any more |
| `HttpFacts.RingNeverRejects` | cmd/httpd/rust/ksvc/src/main.rs:402-444 | if every poll follows a successful flush, at most 129 submissions are queued between flushes, so a 512-entry ring never rejects one |
| `HttpFacts.SlabStaysSound` | cmd/httpd/rust/ksvc/src/main.rs:155-193 | free list and live slots partition the slab, and a completion finds its connection live and waiting for it |
| `HttpFacts.FreedByOwnClose` | cmd/httpd/rust/ksvc/src/main.rs:627-630 | a slot is freed only by the completion of its own close |
| `HttpFacts.RepliesSentExactly` | cmd/httpd/rust/ksvc/src/main.rs:524-567 | every completed reply was transmitted exactly as built, in order, despite partial sends |
| `HttpReplies.ConnectionsFollowTheirTalks` | cmd/httpd/rust/ksvc/src/main.rs:293-303 | in every run the bytes a connection has received are the data of its receives since it was accepted or last reset, concatenated in order, and its state is the one its completions call for: closing if and only if a receive or send failed or a full buffer holds no request, otherwise receiving, sending, or at the right step of serving a file |
| `HttpReplies.RepliesAreCalledFor` | cmd/httpd/rust/ksvc/src/main.rs:446-617 | every completed reply is the one called for, transmitted exactly: what the request received asks for, not-found after a failed open, or the file's reply made of the request and the bytes read |
| `HttpReplies.DescriptorsKept` | cmd/httpd/rust/ksvc/src/main.rs:417-443 | a connection keeps the descriptor its accept returned until its slot is freed |
| `SendAll.WrSendAll` | crates/ksvc-gvthread/src/syscall.rs:345-361 | what is transmitted is always a prefix in order; success means all of it; an error is the first answer other than EAGAIN and EINTR |
| `HeaderScan.NextState` | cmd/httpd/go/main.go:175-189 | the four scanner states are the longest remembered prefix of CRLF CRLF, and determine the next one |
| `HeaderScan.ReadUntilHeaderEnd` | cmd/httpd/go/main.go:168-191 | the scanner stops at exactly the byte ending the first CRLF CRLF, or reads everything |
| `HeaderScan.FindHeaderEnd` | cmd/httpd/rust/ksvc/src/main.rs:204-209 | the window search finds the first CRLF CRLF or there is none |
| `HeaderScan.SameHeaderEnd` | cmd/httpd/rust/ksvc/src/main.rs:204-209 | both programs stop at the same byte of every stream |
| `HeaderScan.ParseRequest` | cmd/httpd/rust/ksvc/src/main.rs:204-223 | None if and only if there is no header end; the path is the bytes from offset 4 to the first space, or / for anything but a GET of 14 bytes |
| `SlotAllocator.SlotAllocator.constructor` | crates/gvthread-core/src/slot.rs:28-36 | nothing issued |
| `SlotAllocator.SlotAllocator.Allocate` | crates/gvthread-core/src/slot.rs:42-73 | the most recently released id, which leaves the stack, else the next fresh one, else an error exactly when neither exists; never a held id |
| `SlotAllocator.SlotAllocator.Release` | crates/gvthread-core/src/slot.rs:78-86 | the id goes on top of the stack, NONE is ignored; the allocator stays sound if and only if the id was held |
| `SlotAllocator.SlotAllocator.ReleaseBatch` | crates/gvthread-core/src/slot.rs:89-101 | the ids go on the stack in order and the count falls by the whole batch, NONE included; sound if and only if every id named was held and is named once |
| `SlotSteps.StepInv` | crates/gvthread-core/src/slot.rs:42-101 | every interleaved pop, load, compare-exchange, push and count update keeps each issued id in exactly one place |
| `SlotSteps.IdsArePartitioned` | crates/gvthread-core/src/slot.rs:42-101 | free, held, being handed out and never used ids partition 0..max_slots in every interleaving |
| `SlotSteps.ClaimsAreFresh` | crates/gvthread-core/src/slot.rs:45-69 | an id being handed out is held by nobody, not on the stack and in one thread's hands |
| `SlotSteps.SearchesUntilClaimed` | crates/gvthread-core/src/slot.rs:42-73 | a search claims the id released last if there is one; otherwise it ends only by claiming the next fresh id or by finding them used up |
| `SlotSteps.CountExactIff` | crates/gvthread-core/src/slot.rs:89-101 | at quiescence the count is the number of held ids if and only if no batch contained NONE |
| `SlotSteps.FailsIff` | crates/gvthread-core/src/slot.rs:42-60 | an allocation that found the stack empty fails if and only if no id is unused any more, whatever has been released since; all ids are then held or being handed out if and only if the stack is still empty |
| `SlotSteps.FailsWithFreeSlot` | crates/gvthread-core/src/slot.rs:42-60 | a run in which an allocation fails although a slot is free: it was released between the look at the stack and the load of the fresh counter |
| `ReadyBitmap.ReadyBitmap.constructor` | crates/gvthread-core/src/bitmap.rs:29-40 | no id ready |
| `ReadyBitmap.ReadyBitmap.Set` | crates/gvthread-core/src/bitmap.rs:44-55 | adds exactly the id, ignoring ids out of range |
| `ReadyBitmap.ReadyBitmap.Clear` | crates/gvthread-core/src/bitmap.rs:59-70 | removes exactly the id |
| `ReadyBitmap.ReadyBitmap.IsSet` | crates/gvthread-core/src/bitmap.rs:74-85 | membership |
| `ReadyBitmap.ReadyBitmap.TryClaimFromBlock` | crates/gvthread-core/src/bitmap.rs:115-137 | removes the lowest set bit of the block; None if and only if the block is zero |
| `ReadyBitmap.ReadyBitmap.FindAndClaim` | crates/gvthread-core/src/bitmap.rs:91-112 | None if and only if nothing is ready; otherwise removes exactly the returned id, the first in scan order and lowest in its block |
| `ReadyBitmap.ScanIsPermutation` | crates/gvthread-core/src/bitmap.rs:92-97 | the wrapped scan visits every block exactly once |
| `ReadyBitmap.XorshiftNonzero` | crates/gvthread-core/src/bitmap.rs:205-211 | the generator never reaches zero from a nonzero state |
| `ReadyBitmap.ReadyBitmaps.constructor` | crates/gvthread-core/src/bitmap.rs:170-180 | four empty levels and a nonzero seed per worker |
| `ReadyBitmap.ReadyBitmaps.NextHint` | crates/gvthread-core/src/bitmap.rs:202-215 | advances only the calling worker's state by one xorshift step and hints with the new state, or with 0 for an unknown worker |
| `ReadyBitmap.ReadyBitmaps.FindAndClaim` | crates/gvthread-core/src/bitmap.rs:200-232 | claims from the highest nonempty level looked at, the first id in scan order from the worker's next random block, and leaves all others alone; None if and only if all of them are empty |
| `BitmapSteps.ClaimedOnce` | crates/gvthread-core/src/bitmap.rs:115-137 | in every interleaving of sets, clears, loads and compare-exchanges an id is claimed at most once per time it was made ready |
| `BitmapSteps.UndisturbedClaim` | crates/gvthread-core/src/bitmap.rs:115-137 | a claimer undisturbed between load and exchange gets the lowest ready id of the block and clears only that one; it comes away empty only from a block without ready ids |
| `KernelInstance.PagesAreTight` | kmod/ksvc_ring.c:26-32 | one header page and exactly as many data pages as the entries need |
| `KernelInstance.GoodSizeIff` | kmod/ksvc_main.c:78-91 | a size is accepted if and only if it is a power of two between 16 and 4096 |
| `KernelInstance.FreePrefix` | kmod/ksvc_ring.c:86-88 | the unwind loop frees each page allocated so far once |
| `KernelInstance.RingAlloc` | kmod/ksvc_ring.c:34-92 | all pages, the array and the header, or nothing, and nothing exactly if the kernel refused something |
| `KernelInstance.RingFree` | kmod/ksvc_ring.c:94-110 | frees every page and the array once and forgets them |
| `KernelInstance.Instance.constructor` | kmod/ksvc_main.c:34-44 | a fresh instance holds nothing |
| `KernelInstance.Instance.SharedAlloc` | kmod/ksvc_shared.c:28-43 | one mapped page, or nothing |
| `KernelInstance.Instance.SharedFree` | kmod/ksvc_shared.c:45-52 | frees the shared page if there is one |
| `KernelInstance.Instance.Build` | kmod/ksvc_main.c:93-115 | both rings and the shared page with the computed page counts, or everything taken back |
| `KernelInstance.Instance.Create` | kmod/ksvc_main.c:63-153 | EBUSY on a created instance; otherwise succeeds if and only if both sizes are good and the kernel refuses nothing, with EINVAL exactly for a bad size; any failure gives back everything taken; success holds exactly the computed pages, arrays and eventfd reference |
| `KernelInstance.Instance.Unwind` | kmod/ksvc_main.c:146-152 | the error labels give back the shared page and both rings |
| `KernelInstance.Instance.Destroy` | kmod/ksvc_main.c:46-59 | releases everything held exactly once |
| `KernelInstance.Session` | kmod/ksvc_main.c:157-187 | any number of CREATE calls failing anywhere or succeeding, then release: every page, array and reference is back |

## Left out

- Weak memory orderings, real time, and wrap-around of timer handles, request numbers and memory addresses.
- Forced preemption (the Preempted state, signal delivery) and the generation check on sleep entries, which the
  deactivated metadata page makes ineffective.
- The shared (cross-thread) reactor, channels, `SchedMutex` and futex parking.
- Shutdown of the scheduler, the dispatcher and the pool; the dispatcher's LINKED and DRAIN flags.
- Building of io_uring submissions and opcode probing; the dispatcher's backend is modelled by its trait contract, and a
  successful flush is taken to submit everything queued.
- Ring memory layout and header fields beyond what indexing needs; the executor's counters are unbounded.
- The completion sink in `ring_completion.rs`, whose push does not advance the tail.
- In the HTTP server: descriptor clean-up on errors, response texts, content types, path checks and statistics.
- HttpFacts.RingNeverRejects: assumes successful flushes; the event loop discards the result of `flush_and_wait`, and
  HttpFacts.OneOperationEachIff gives the condition without that assumption.
- `mmap` in the kernel module and concurrent CREATE calls on one instance.
- 64-bit blocks of the bitmap are sequences of their bits; only the random generator uses machine words.
- Configuration, logging, statistics, the shared page, router tables, other servers and benchmarks: easy members only.
- ReadyQueue.SimpleQueue.Push: does not model the notifications, which Parking covers.
- SubmitSteps.DequeuesWhatWasClaimed: holds for consumers that never read an unwritten claim; the code does not enforce
  this, as SubmitSteps.ImpatientConsumerReadsNothing shows.
- TimerFacts.RunRefines: assumes that an entry is inserted before its handle is cancelled; TimerFacts.InsertIff gives the
  exact condition.
