# Verified models of a concurrency course and its benchmark library

The repository teaches concurrency with small lock-based components (queues, a thread pool, dining
philosophers, a parallel sort) and vendors the Google Benchmark library to time them. This project
models the protocols and the arithmetic cores of both in Dafny 4.11 and proves what they promise,
for any number of threads and any schedule.

`dafny verify dfyconfig.toml` checks everything. Nothing here is executed.

## How the models are built

A concurrent component is a machine: a `State` value holding the shared memory and one program
counter per thread, an `Action` per atomic step, `Enabled` and `Do`. A run is any sequence of
actions that is `Legal` from an `Init` state; `Exec` is the state it ends in. The number of threads,
the schedule and spurious wakeups are unconstrained. A section under one mutex is one step where
only holders of that mutex touch the data; in the two-lock queue every single memory access is a
step. A condition wait releases its mutex and joins the sleepers in one step. Main theorems quantify
over all runs (`requires Init(s0) && Legal(s0, acts)`).

Beside each machine stands a class with the source's fields. Its methods are the source's atomic
sections and update the fields in place; their postconditions tie old and new state to the same
effect functions the machine's `Do` uses, so a theorem about the machine is about those methods.

| file | models |
|---|---|
| `SimpleQueue.dfy` | the single-mutex queue with `notify_one` |
| `TwoLockQueue.dfy`, `TwoLockNodes.dfy` | the linked queue with separate head and tail locks: the machine, and the heap objects |
| `TwoLockRuns.dfy` | what every run of it keeps, and that it refines the single-mutex queue |
| `TwoLockProgress.dfy` | how many steps its operations take, and what one does that runs alone |
| `TwoLockWakeups.dfy` | which of its notifications are lost |
| `PhaseBarrier.dfy`, `ThreadManager.dfy`, `ThreadRuns.dfy`, `ThreadTermination.dfy` | the start/stop barrier, threads that leave it early and the main thread that waits for them: the machine and its invariant, what every run keeps, and why every schedule ends |
| `Counters.dfy` | per-thread results and user counters merged into a shared total |
| `MergeOrders.dfy` | in which orders the threads of a run can merge, and when that shows in the total |
| `BenchmarkState.dfy` | `KeepRunning`, the range-for iterator, pause, resume, skip and the checks around them |
| `ThreadPool.dfy` | the atomic task count, the work queue and `wait_all` |
| `PoolDraining.dfy` | when `wait_all` returns, in which order tasks start, and that a backlog drains |
| `Philosophers.dfy` | the fork ring and its deadlock |
| `ParallelSort.dfy`, `SortCompletion.dfy` | fork/join sort around `nth_element`, and how it comes to an end |
| `TrialLoop.dfy` | the loop that raises the iteration count until a run is reported |
| `Ranges.dfy` | `AddRange` and the odometer of `Ranges` |
| `LeastSquares.dfy` | the complexity fit |
| `Common.dfy` | counting threads, a few types |

## Where the code and what is said about it differ

* `push` of the two-lock queue notifies without the head lock, so a waiting consumer can miss it:
  `TwoLockWakeups.WakeupCanBeLost` gives a run. `TwoLockWakeups.WakeupsKeptExactly` says for every run
  when none is lost, and `TwoLockWakeups.MissStrands` that a missed one strands its consumer. Safety
  does not depend on it.
* Merging results is order-independent in all numbers but not in the counters' flags
  (`Counters.FlagsDependOnOrder`). The barrier lets a thread merge only after all threads with fewer
  arrivals, and allows every such order (`MergeOrders.OrdersExactly`); so all schedules end with the
  same result exactly if, for each counter, the threads of fewest arrivals that have it agree on its
  flags (`MergeOrders.ScheduleIndependent`).
* The pool's count is 32 bits wide: `wait_all` seeing zero means quiescence exactly while fewer than
  2^32 tasks are pending (`ThreadPool.ZeroMeansQuiet`), and a run reaches zero with 2^32 of them
  queued (`ThreadPool.ZeroWithTasksQueued`). A waiter on such a zero can be left without a notifier:
  `ThreadPool.WaitersCoveredExactly` says for every run when, `ThreadPool.WaiterForgottenAtTheWrap`
  gives one. Once fewer are pending again, no waiter on zero is forgotten
  (`ThreadPool.NoWaiterForgotten`).
* A `while` loop left by `break` in its last iteration with the timer paused passes every check of
  `RunInThread` although the loop never finished. `BenchmarkState.UnfinishedReturn` shows that this is
  the only such case, `BenchmarkState.BreakPassesChecks` that it happens.
* `AddRange` leaves out powers at or above `kint32max / mult`, even where they are below `hi` and
  fit: `Ranges.ListedExactly` has the exact condition, `Ranges.LastPowerMissing` an input.
* For a minimum time between 1/1.4 ns and 1 ns, and only there, the trial multiplier is below 1.4
  (`TrialLoop.MultiplierBounds`); `TrialLoop.SlowBelowOneNanosecond` gives a run of 1001 trials.
* The automatic complexity fit can name a curve of the wrong growth when an earlier curve is
  proportional to the right one at the measured sizes: `LeastSquares.AutoPicksFirstExact` says which
  curve it names, `LeastSquares.LinearLooksLogarithmic` gives linear times reported as lgN.

## Model

| member | source | states |
|---|---|---|
| `SimpleQueue.SimpleThreadSafeQueue.constructor` | src/SimpleThreadSafeQueue.h:10 | a new queue is empty |
| `SimpleQueue.SimpleThreadSafeQueue.PushSection` | src/SimpleThreadSafeQueue.h:15-20 | the locked part of push changes the queue as the machine's push section does |
| `SimpleQueue.SimpleThreadSafeQueue.WaitAndPopSection` | src/SimpleThreadSafeQueue.h:22-32 | from taking the mutex the caller either takes the front value or goes to sleep with the queue untouched |
| `SimpleQueue.SimpleThreadSafeQueue.TryPop` | src/SimpleThreadSafeQueue.h:34-43 | takes the front value, or reports empty and changes nothing |
| `SimpleQueue.WakeupsMatchedStep` | src/SimpleThreadSafeQueue.h:15-43 | no action leaves more values than woken consumers while someone sleeps |
| `SimpleQueue.NoLostWakeup` | src/SimpleThreadSafeQueue.h:15-32 | in every run, while a consumer sleeps the queue is no longer than the number of woken consumers, and if it is not empty one of them can pop its front at once |
| `SimpleQueue.FifoStep` | src/SimpleThreadSafeQueue.h:15-43 | one step moves values in at the back and out at the front only |
| `SimpleQueue.Fifo` | src/SimpleThreadSafeQueue.h:15-43 | in every run, values handed out followed by values still queued are exactly the initial values followed by those pushed, in order |
| `SimpleQueue.PopAnswers` | src/SimpleThreadSafeQueue.h:22-43 | in every run a pop answers with the oldest value pushed and not yet handed out; only when there is none does try_pop report empty and a waiting consumer sleep |
| `TwoLockQueue.InvInit` | src/OptimizedThreadSafeQueue.h:78-82 | a new queue is the empty chain with one dummy node |
| `TwoLockQueue.AllocStep` | src/OptimizedThreadSafeQueue.h:124 | allocating the new dummy, at any address not in use, keeps the invariant |
| `TwoLockQueue.TailWriteStep` | src/OptimizedThreadSafeQueue.h:126-129 | writing data or link of the tail node is invisible to every other thread and leaves the contents alone |
| `TwoLockQueue.MoveTailStep` | src/OptimizedThreadSafeQueue.h:130 | moving tail appends exactly the pushed value and keeps the invariant |
| `TwoLockQueue.CompareThread` | src/OptimizedThreadSafeQueue.h:39-43 | under the head lock, a tail value different from head proves a value is queued, however stale it is |
| `TwoLockQueue.TakeHeadStep` | src/OptimizedThreadSafeQueue.h:31 | moving head out is only done on a non-empty queue and keeps the invariant |
| `TwoLockQueue.AdvanceHeadStep` | src/OptimizedThreadSafeQueue.h:32 | moving next into head removes exactly the front value |
| `TwoLockQueue.FreeStep` | src/OptimizedThreadSafeQueue.h:99-115 | freeing the popped node touches no node any other thread or the queue still has |
| `TwoLockQueue.InvStep` | src/OptimizedThreadSafeQueue.h:29-68 | every micro-step of every operation keeps the chain, lock, ownership and thread invariants |
| `TwoLockQueue.InvRun` | src/OptimizedThreadSafeQueue.h:29-133 | so does every run |
| `TwoLockRuns.Ownership` | src/OptimizedThreadSafeQueue.h:29-68 | in every run, a node a popper past its check reads, unlinks or frees is disjoint from every node a pusher may write and from every other popper's node |
| `TwoLockRuns.MemorySafe` | src/OptimizedThreadSafeQueue.h:99-115 | no thread ever dereferences null or freed memory; an unlinked node has data and a successor, a freed one has no successor; `wait_and_pop` never returns an empty optional |
| `TwoLockRuns.NeverDeadlocked` | src/OptimizedThreadSafeQueue.h:36-68 | in every run, while any thread is in the middle of an operation and not asleep in it, some thread can take a step of its own, notify or return, though poppers nest the two locks |
| `TwoLockRuns.PushTakesEffect` | src/OptimizedThreadSafeQueue.h:130 | moving tail is one whole push section of the simple queue |
| `TwoLockRuns.PopTakesEffect` | src/OptimizedThreadSafeQueue.h:29-34 | unlinking head is one whole successful pop section, though the tail read may be stale |
| `TwoLockRuns.TailReadTakesEffect` | src/OptimizedThreadSafeQueue.h:23-27 | an empty try_pop answers at its tail read |
| `TwoLockRuns.OwnStep` | src/OptimizedThreadSafeQueue.h:23-133 | every step is one simple-queue section or invisible to its own caller |
| `TwoLockRuns.Simulates` | src/OptimizedThreadSafeQueue.h:23-133 | every action is matched by one simple-queue action with the same visible event, or by none |
| `TwoLockRuns.RefinesFrom` | src/OptimizedThreadSafeQueue.h:23-133 | a whole run maps to a legal simple-queue run with the same trace, ending in corresponding states |
| `TwoLockRuns.Linearizable` | src/OptimizedThreadSafeQueue.h:23-133 | every history of calls and returns, under every interleaving, is a history of the single-mutex queue, each operation taking effect atomically between its call and its return |
| `TwoLockProgress.StepUsesOne` | src/OptimizedThreadSafeQueue.h:23-133 | an own step uses up one of the steps an operation has left, and only a wakeup gives it ten again |
| `TwoLockProgress.StepsPerCall` | src/OptimizedThreadSafeQueue.h:23-133 | under any interleaving a push takes at most 5 own steps, a try_pop 10, a wait_and_pop 10 and 10 more each time it is woken |
| `TwoLockProgress.Takes` | src/OptimizedThreadSafeQueue.h:29-34 | a popper that has found a value returns the front value after five more own steps |
| `TwoLockProgress.PopAlone` | src/OptimizedThreadSafeQueue.h:36-68 | from every reachable state with both locks free, a pop followed by its own steps returns the front value after ten and the queue is the rest; on an empty queue try_pop says so after six, wait_and_pop sleeps after five |
| `TwoLockProgress.WokenPopAlone` | src/OptimizedThreadSafeQueue.h:57-68 | a woken consumer does the same |
| `TwoLockProgress.PushAlone` | src/OptimizedThreadSafeQueue.h:122-133 | from every reachable state with the tail lock free, a push has appended its value after five own steps and only has to notify |
| `TwoLockWakeups.OwnAccount` | src/OptimizedThreadSafeQueue.h:57-67 | a step adds no value it does not cover and gives up no cover without taking a value, unless it has just seen the queue empty |
| `TwoLockWakeups.LostByStep` | src/OptimizedThreadSafeQueue.h:57-62 | while someone waits and all queued values are accounted for, an action leaves one unaccounted for if and only if it is a needed notification that finds nobody asleep past a consumer bound to sleep |
| `TwoLockWakeups.WakeupsKeptExactly` | src/OptimizedThreadSafeQueue.h:122-132 | in every run, every queued value stays accounted for while anyone waits, if and only if no such notification fires |
| `TwoLockWakeups.CarefulRunsKeepWakeups` | src/OptimizedThreadSafeQueue.h:122-132 | in every run where no notification finds nobody asleep while a consumer is bound to sleep, the queue is no longer than the threads that still account for its values |
| `TwoLockWakeups.QuietSleepersHaveNothing` | src/OptimizedThreadSafeQueue.h:57-62 | when everyone is idle or asleep after a run without missed notifications, nobody sleeps on a value |
| `TwoLockWakeups.MissStrands` | src/OptimizedThreadSafeQueue.h:57-62 | from any reachable state with a consumer bound to sleep, a pusher about to notify and nobody asleep, the notification followed by the consumer's steps puts it to sleep on the same queue, short of a wakeup exactly if the notification was needed, and with nobody left if the pusher was the only cover |
| `TwoLockWakeups.WakeupCanBeLost` | src/OptimizedThreadSafeQueue.h:57-62 | a concrete run after which a consumer sleeps on a non-empty queue with all locks free and nobody left to notify |
| `TwoLockQueue.WholePush` | src/OptimizedThreadSafeQueue.h:122-131 | the statements of push, run without interference, append the value |
| `TwoLockQueue.WholePop` | src/OptimizedThreadSafeQueue.h:36-44 | head equals tail exactly when the queue is empty; otherwise the pop statements remove the front value |
| `TwoLockNodes.OptimizedQueue.constructor` | src/OptimizedThreadSafeQueue.h:78-82 | head and tail are the same fresh empty dummy |
| `TwoLockNodes.OptimizedQueue.AllocNode` | src/OptimizedThreadSafeQueue.h:124 | a fresh node joins the memory as the machine's allocation does |
| `TwoLockNodes.OptimizedQueue.WriteData` | src/OptimizedThreadSafeQueue.h:127 | writing through tail changes the memory as the machine says |
| `TwoLockNodes.OptimizedQueue.LinkNext` | src/OptimizedThreadSafeQueue.h:129 | same for the link |
| `TwoLockNodes.OptimizedQueue.MoveTail` | src/OptimizedThreadSafeQueue.h:130 | same for tail |
| `TwoLockNodes.OptimizedQueue.TakeHead` | src/OptimizedThreadSafeQueue.h:31 | moving from head leaves it null |
| `TwoLockNodes.OptimizedQueue.AdvanceHead` | src/OptimizedThreadSafeQueue.h:32 | head becomes the old successor, and the old node's link null |
| `TwoLockNodes.OptimizedQueue.Push` | src/OptimizedThreadSafeQueue.h:122-133 | on linked heap nodes, a push run alone appends its value and only adds fresh nodes |
| `TwoLockNodes.OptimizedQueue.TryPop` | src/OptimizedThreadSafeQueue.h:99-103 | a pop run alone takes the first value or reports empty without change |
| `PhaseBarrier.Barrier.constructor` | benchmark/src/mutex.h:101 | all threads running, phase 0, none entered |
| `PhaseBarrier.Barrier.EnterSection` | benchmark/src/mutex.h:132-149 | the part of `createBarrier` before the wait: CHECK failure, waiting in the current phase, or last |
| `PhaseBarrier.Barrier.WakeSection` | benchmark/src/mutex.h:138-149 | the wait predicate and what follows it, including becoming the last thread after a removal |
| `PhaseBarrier.Barrier.RemoveThread` | benchmark/src/mutex.h:114-118 | one running thread fewer; notifies exactly if somebody has entered |
| `ThreadManager.ArriveStep` | benchmark/src/mutex.h:132-149 | entering the barrier keeps the invariant and never fails the CHECK |
| `ThreadManager.WakeStep` | benchmark/src/mutex.h:142-149 | so does waking, also for a sleeper that becomes last |
| `ThreadManager.RemoveStep` | benchmark/src/mutex.h:114-118 | so does a removal, which wakes the sleepers if it completes their phase |
| `ThreadManager.MergeStep` | benchmark/src/benchmark.cc:273-283 | so does merging, which adds the thread's result once |
| `ThreadManager.DecrementStep` | benchmark/src/benchmark.cc:126 | so does the alive count, which is exact |
| `ThreadManager.PhaseAdvanced` | benchmark/src/mutex.h:147-149 | completing a phase, by arrival or by removal, re-establishes every invariant with exactly one new winner |
| `ThreadManager.InvStep` | benchmark/src/benchmark.cc:265-285 | every action of every thread and of the main thread keeps the invariant |
| `ThreadRuns.Lockstep` | benchmark/README.md:378-382 | in every run, when a thread has come out of its k-th wait, every live thread has made its k-th arrival, and every thread whose body makes fewer than k has left the barrier: none starts early, none leaves early, also when threads err out |
| `ThreadRuns.PhasesClose` | benchmark/src/mutex.h:132-149 | the CHECK never fails, live threads are at most one arrival apart, no waiter is more than one phase behind, and `entered_` counts exactly the waiters of the current phase |
| `ThreadRuns.OneWinnerPerPhase` | benchmark/src/mutex.h:104-112 | each completed phase gives true exactly once, to a thread that has made its arrival of that phase and come out of it, also when a removal completed it |
| `ThreadRuns.NoLostWakeup` | benchmark/src/mutex.h:110-118 | a sleeper that may leave is always matched by a thread whose pending notify_all will wake it |
| `ThreadRuns.NotAllAsleep` | benchmark/src/mutex.h:114-150 | threads never all sleep at the barrier |
| `ThreadRuns.NeverStuck` | benchmark/src/benchmark.cc:308-315 | until the main thread has joined everyone, some step other than a spurious wakeup is possible |
| `ThreadRuns.AllMerged` | benchmark/src/benchmark.cc:273-284 | when `WaitForAllThreads` has returned, the shared result is the merge of all threads' results, each exactly once |
| `ThreadRuns.ResultsAreSums` | benchmark/src/benchmark.cc:273-283 | every time, size and counter of it is then its exact sum over all threads |
| `MergeOrders.MergedBefore` | benchmark/src/benchmark.cc:273-284 | whoever has merged had no more arrivals to make than a thread that is about to |
| `MergeOrders.GuidedMove` | benchmark/src/benchmark.cc:265-285 | from any reachable state whose merges so far begin an order by arrivals, some step that is not a spurious wakeup goes on along it |
| `MergeOrders.Realizes` | benchmark/src/benchmark.cc:265-285 | and such steps lead to a whole run with exactly that merge order |
| `MergeOrders.OrdersExactly` | benchmark/src/benchmark.cc:265-285 | the merge orders of whole runs are exactly the permutations of the threads with non-decreasing numbers of arrivals |
| `MergeOrders.FirstIsLeast` | benchmark/src/counter.cc:37-52 | in such an order the first thread with a counter is one of fewest arrivals among those that have it |
| `MergeOrders.CanDecide` | benchmark/src/counter.cc:37-52 | each of those can be the one that decides the flags, in some whole run |
| `MergeOrders.ScheduleIndependent` | benchmark/src/benchmark.cc:273-283 | all whole runs end with the same shared result if and only if for each counter name the threads of fewest arrivals among those that have it agree on its flags |
| `ThreadTermination.Descends` | benchmark/src/benchmark.cc:265-285 | every step that is not a spurious wakeup lowers a rank fixed by the start state |
| `ThreadTermination.EveryScheduleEnds` | benchmark/src/benchmark.cc:308-315 | a run is at most the initial rank plus four steps per spurious wakeup long, and one that can only wake spuriously has joined all threads |
| `ThreadTermination.EveryRunCanFinish` | benchmark/src/benchmark.cc:308-315 | every run, wherever it stands, can go on without any spurious wakeup until all threads are joined |
| `Counters.CounterTable.IncrementBy` | benchmark/src/counter.cc:37-52 | the two loops compute the merge: shared names add up under the flags already there, all others are kept |
| `Counters.SharedResult.constructor` | benchmark/src/benchmark.cc:139-150 | a new shared result is all zero |
| `Counters.SharedResult.Add` | benchmark/src/benchmark.cc:273-283 | the locked section of `RunInThread` merges the thread's result in place |
| `Counters.MergedIsSumIn` | benchmark/src/benchmark.cc:273-283 | after any set of threads has merged, in any order, each quantity is the sum over that set |
| `Counters.MergedIsSum` | benchmark/src/benchmark.cc:273-283 | after all threads have merged it is the sum over all of them |
| `Counters.MergedNames` | benchmark/src/counter.cc:45-51 | a counter name is present afterwards exactly if some merged thread had it |
| `Counters.FirstDecides` | benchmark/src/counter.cc:38-51 | a merged counter has the flags of the first merged thread that has it |
| `Counters.SameResultExactly` | benchmark/src/counter.cc:37-52 | two merge orders give the same whole result if and only if, for each counter, the first threads to merge it in the two orders give it equal flags |
| `Counters.OrderMattersExactly` | benchmark/src/counter.cc:37-52 | for any number of threads, merging in any permutation gives the same whole result if and only if any two threads sharing a counter name give it equal flags |
| `Counters.IncrementCommutes` | benchmark/src/counter.cc:37-52 | two tables merge to the same table in either order if and only if names in both carry equal flags |
| `Counters.FlagsDependOnOrder` | benchmark/src/counter.cc:38-44 | a concrete pair of tables where the order shows |
| `BenchmarkState.State.constructor` | benchmark/src/benchmark.cc:397-417 | the initial fields, for counts the CHECKs accept |
| `BenchmarkState.State.Pause` | benchmark/src/benchmark.cc:419-423 | aborts unless started, unfinished, error-free and running; otherwise stops the timer only |
| `BenchmarkState.State.Resume` | benchmark/src/benchmark.cc:425-428 | same for starting it, without requiring that it was stopped |
| `BenchmarkState.State.Skip` | benchmark/src/benchmark.cc:430-442 | records the error, ends the loop count and stops a running timer |
| `BenchmarkState.State.Start` | benchmark/src/benchmark.cc:453-458 | one barrier arrival, then the timer unless there was an error |
| `BenchmarkState.State.Finish` | benchmark/src/benchmark.cc:460-469 | stops the timer unless there was an error, repairs the count, arrives at the barrier |
| `BenchmarkState.State.KeepRunningOnce` | benchmark/include/benchmark/benchmark.h:432-441 | one evaluation of `KeepRunning` on the fields, with size_t wrap-around |
| `BenchmarkState.Step` | benchmark/src/benchmark.cc:397-469 | any move of any client either aborts, exactly as listed, or keeps the invariant |
| `BenchmarkState.AbortsExactly` | benchmark/src/benchmark.cc:265-272 | after any moves whatever, the next move aborts in exactly the listed cases |
| `BenchmarkState.UnfinishedReturn` | benchmark/src/benchmark.cc:271 | a return passes the checks without an error and without the loop having finished if and only if a while loop is left in its last iteration with the timer paused |
| `BenchmarkState.BreakPassesChecks` | benchmark/src/benchmark.cc:271 | a concrete client that does so |
| `BenchmarkState.ProtocolHolds` | benchmark/include/benchmark/benchmark.h:568 | clients that follow the documented protocol, pausing between iterations included as long as the timer runs at the end of the last, never abort; on every exit path `iterations()` equals the requested count, and without an error the body ran exactly that often between exactly two barrier arrivals |
| `BenchmarkState.LoopContinues` | benchmark/include/benchmark/benchmark.h:606-651 | exactly when a loop test lets the body run again, for both loop styles, with and without errors |
| `BenchmarkState.TimerRunsExactly` | benchmark/src/benchmark.cc:419-469 | after any moves that have not aborted, the timer runs if and only if the client is inside the loop, has not skipped, and its last pause, if any, was followed by a resume |
| `BenchmarkState.PauseResumeUndone` | benchmark/src/benchmark.cc:419-428 | a pause and a resume while the timer runs change nothing |
| `ThreadPool.Pool.CountUp` | src/ThreadPool.h:66 | the 32-bit increment |
| `ThreadPool.Pool.CountDown` | src/ThreadPool.h:27 | the 32-bit decrement and whether the old value was 1 |
| `ThreadPool.Pool.PushTask` | src/ThreadPool.h:67 | the task joins the back of the work queue |
| `ThreadPool.Pool.TryPopTask` | src/ThreadPool.h:24 | takes the front task or reports none |
| `ThreadPool.PendingStep` | src/ThreadPool.h:19-38 | submitters between increment and push, plus queued tasks, plus workers between pop and decrement change only by fetch_add and fetch_sub |
| `ThreadPool.CountStep` | src/ThreadPool.h:19-38 | the counter is that number modulo 2^32, always |
| `ThreadPool.TasksStep` | src/ThreadPool.h:19-38 | every task stays in exactly one place until it has run once |
| `ThreadPool.ZeroMeansQuiet` | src/ThreadPool.h:70-76 | in every run no task runs twice, and a zero count means every task submitted so far, by clients or tasks, has run exactly once, if and only if fewer than 2^32 are pending |
| `PoolDraining.ReturnsOnlyWhenQuiet` | src/ThreadPool.h:70-76 | whenever a step lets a thread out of `wait_all`, in any run, the count was zero, and every task submitted so far had run exactly once if and only if fewer than 2^32 were pending |
| `PoolDraining.ReturnsWhenQuiet` | src/ThreadPool.h:70-76 | on a quiet pool with the mutex free, a caller of `wait_all`, or a woken waiter, returns with its own steps |
| `PoolDraining.StartInOrder` | src/ThreadPool.h:19-38 | in every run tasks started, followed by those queued, are the tasks pushed, in that order |
| `PoolDraining.Drains` | src/ThreadPool.h:19-38 | every step but new work and spurious wakeups lowers a rank |
| `PoolDraining.EveryBacklogDrains` | src/ThreadPool.h:19-38 | a run is at most 3n + 6 times as long as the new work in it, and a pool with a worker has no other step left if and only if nobody is doing anything and no task is queued; then every task has run exactly once and every `wait_all` has returned |
| `PoolDraining.EveryRunCanFinish` | src/ThreadPool.h:19-38 | every run of a pool with a worker can go on without new work until then |
| `ThreadPool.ZeroWithTasksQueued` | src/ThreadPool.h:64-75 | a run after which the count is zero with 2^32 tasks queued |
| `ThreadPool.NeverUnderflows` | src/ThreadPool.h:27 | a decrement never meets a zero count within that bound |
| `ThreadPool.WaitStep` | src/ThreadPool.h:27-31 | every action keeps a pending notifier for waiters when no task is pending, however many were pending before |
| `ThreadPool.NoWaiterForgotten` | src/ThreadPool.h:70-76 | in every run, when the count is zero with fewer than 2^32 tasks pending, a `wait_all` caller asleep or about to sleep is covered by a worker between its last fetch_sub and its notify, which is blocked at most by a waiter that can move |
| `ThreadPool.CoveredStep` | src/ThreadPool.h:27-31 | while waiters on a zero count are covered, whatever is pending, an action uncovers one if and only if it is a fetch_add that wraps the count to zero under a waiter nobody is about to notify |
| `ThreadPool.WaitersCoveredExactly` | src/ThreadPool.h:70-76 | in every run, waiters on a zero count are covered at every moment if and only if no such fetch_add happens |
| `ThreadPool.WaiterForgottenAtTheWrap` | src/ThreadPool.h:64-76 | a run that leaves a client asleep on a zero count with nobody about to notify |
| `Philosophers.Table.constructor` | src/6_deadlock_detection.cpp:43-49 | all forks are free |
| `Philosophers.Table.TryLock` | src/6_deadlock_detection.cpp:125-128 | a fork is taken exactly if it was free |
| `Philosophers.Table.Unlock` | src/6_deadlock_detection.cpp:124-131 | leaving the block frees the fork |
| `Philosophers.SeatForks` | src/6_deadlock_detection.cpp:85-88 | a seat's forks are its own and its right neighbour's, for any index |
| `Philosophers.InvStep` | src/6_deadlock_detection.cpp:116-134 | forks and philosophers always agree on who holds what |
| `Philosophers.NeighboursNeverEatTogether` | src/6_deadlock_detection.cpp:124-131 | in every run, for any seats taken, an eater alone holds both its forks and its neighbour does not eat |
| `Philosophers.BlockedNext` | src/6_deadlock_detection.cpp:125-128 | where nothing can move, a philosopher waits for a fork its right neighbour holds as first fork |
| `Philosophers.AroundTheRing` | src/6_deadlock_detection.cpp:125-128 | so does everyone around the ring, by induction |
| `Philosophers.StuckIffCircle` | src/6_deadlock_detection.cpp:116-134 | a reachable state with an active philosopher has no step if and only if all seats are taken and each holds its first fork and waits for the second |
| `Philosophers.EmptySeatNeverStuck` | src/6_deadlock_detection.cpp:116-134 | with any seat empty no run gets stuck |
| `Philosophers.MealsFinish` | src/6_deadlock_detection.cpp:124-131 | with any seat empty, all meals begun can be finished from every state that keeps the forks |
| `Philosophers.EveryoneCanEat` | src/6_deadlock_detection.cpp:116-134 | with any seat empty, from every reachable state, every philosopher who has not stopped can be brought to eat without anyone stopping |
| `Philosophers.OnlyStopStops` | src/6_deadlock_detection.cpp:119-132 | a philosopher has stopped if and only if he was told to |
| `Philosophers.DeadlockReachable` | src/6_deadlock_detection.cpp:116-134 | with every seat taken, for any n, some run does get stuck |
| `ParallelSort.StepInRange` | src/9_thread_pool.cpp:31-44 | a step of any call rearranges only that call's range and never a pivot already placed |
| `ParallelSort.InvStep` | src/9_thread_pool.cpp:31-44 | a step anywhere in the tree of calls keeps every other call's partition and progress |
| `ParallelSort.EveryInterleavingSorts` | src/9_thread_pool.cpp:31-44 | whenever the outermost call has returned, under any interleaving, its range is sorted, a permutation of the input, and the rest untouched |
| `ParallelSort.SortedUnique` | src/9_thread_pool.cpp:16-44 | sorted sequences with the same elements are equal |
| `SortCompletion.StepsBounded` | src/9_thread_pool.cpp:31-44 | a run makes at most 4n + 1 steps other than `nth_element`'s swaps, and has returned exactly when it has made a number fixed by n |
| `SortCompletion.SwapsPartition` | src/9_thread_pool.cpp:39 | from any state of a range, swaps within it can reach a partition |
| `SortCompletion.EveryRunCanFinish` | src/9_thread_pool.cpp:31-44 | every run, wherever it stands, can be continued until the outermost call has returned with its range sorted |
| `ParallelSort.SameResult` | src/9_thread_pool.cpp:31-44 | any two complete runs end with the same array |
| `ParallelSort.CallsCommute` | src/9_thread_pool.cpp:41-43 | steps of the forked and the inline call enable each other unchanged and commute |
| `SortCompletion.LogarithmicDepth` | src/9_thread_pool.cpp:31-44 | at every moment calls are nested at most 1 + log2 of the length deep |
| `ParallelSort.Split` | src/9_thread_pool.cpp:24 | one partition pass of the quickselect |
| `ParallelSort.NthElement` | src/9_thread_pool.cpp:24 | the contract of section 28.7.2 of ISO/IEC 14882:2017, met in place by quickselect |
| `ParallelSort.SingleThreadedSort` | src/9_thread_pool.cpp:16-28 | sorts its range in place, a permutation, and nothing outside changes |
| `ParallelSort.SortsAgree` | src/9_thread_pool.cpp:16-44 | every complete run of the parallel sort gives what the single-threaded sort gives |
| `TrialLoop.MultiplierBounds` | benchmark/src/benchmark.cc:363-371 | an unreported trial's multiplier is above 1 and at most 14, and at least 1.4 if and only if the minimum time is outside the band between 1/1.4 ns and 1 ns |
| `TrialLoop.NextTrial` | benchmark/src/benchmark.cc:363-377 | the next count is strictly larger, at most 14 times as large, never above 10^9, and outside that band at least 5/4 as large unless capped |
| `TrialLoop.SlowBelowOneNanosecond` | benchmark/src/benchmark.cc:303-379 | a minimum time in the band and timings whose trials are 1, 2, 3, ..., 1001 iterations |
| `TrialLoop.PathAt` | benchmark/src/benchmark.cc:303-379 | the same along the whole sequence of trials, for any timings with a positive minimum time, and any non-negative timings otherwise |
| `TrialLoop.PathGrows` | benchmark/src/benchmark.cc:303-379 | outside the band every unreported trial k has at least 1.25^k iterations and fewer than 10^9 |
| `TrialLoop.FewTrials` | benchmark/src/benchmark.cc:303-379 | outside the band there are at most 94 trials, the logarithm of 10^9 to base 1.25 |
| `TrialLoop.StopsAtOnce` | benchmark/src/benchmark.cc:342-359 | each reporting condition ends the trials at the first trial that meets it, and an explicit count gives one trial |
| `TrialLoop.RetriedExactly` | benchmark/src/benchmark.cc:322-350 | on the raw measurements: a trial is retried if and only if no count was requested, no error occurred, it had fewer than 10^9 iterations, its time on the chosen clock, per thread for manual and real time, is below the minimum, and manual time is used or real time per thread is below five minimums |
| `TrialLoop.FollowedExactly` | benchmark/src/benchmark.cc:342-377 | the same decides which trials of a complete sequence are followed by another |
| `TrialLoop.NextByValue` | benchmark/src/benchmark.cc:361-377 | the next count by value: doubled, tenfold, or the integer nearest to 1.4 minimum times over the measured time of the count, and when each; at least one more and at most 10^9 |
| `TrialLoop.OneCompletePath` | benchmark/src/benchmark.cc:303-379 | what is measured determines the trials |
| `TrialLoop.TypicalTrials` | benchmark/src/benchmark.cc:303-379 | ten milliseconds an iteration and half a second: the trials are 1, 10 and 70 |
| `TrialLoop.RunBenchmark` | benchmark/src/benchmark.cc:303-379 | the nested loops end; the first repetition makes the complete sequence of trials; all repetitions report its last count, as benchmark/src/statistics.cc:100-102 assumes |
| `Ranges.Fits` | benchmark/src/benchmark_register.cc:258 | the multiplication never exceeds int32 |
| `Ranges.LimitFits` | benchmark/src/benchmark_register.cc:255-258 | the loop's limit is the last number whose product with mult fits in int32 |
| `Ranges.PartialExtends` | benchmark/src/benchmark_register.cc:258-263 | one loop step keeps the list increasing and complete up to the current power |
| `Ranges.PartialEnds` | benchmark/src/benchmark_register.cc:258-267 | at the loop's end, by break or by limit, all interior powers are there |
| `Ranges.AddRange` | benchmark/src/benchmark_register.cc:247-268 | fails exactly on the CHECKs; otherwise appends lo, exactly the powers of mult strictly between lo and hi and below kint32max / mult, and hi, strictly increasing |
| `Ranges.ListedExactly` | benchmark/src/benchmark_register.cc:258-263 | a power of mult strictly between lo and hi is in the list if and only if it is below kint32max / mult |
| `Ranges.LastPowerMissing` | benchmark/src/benchmark_register.cc:258 | 2^30 is missing between 1 and kint32max |
| `Ranges.BumpInPlace` | benchmark/src/benchmark_register.cc:314-320 | the inner loop updates the counter array as the carry function says |
| `Ranges.BumpCounts` | benchmark/src/benchmark_register.cc:314-320 | bumping adds one to the number the counter stands for, and wraps from the last tuple to zero |
| `Ranges.DigitsOfValue` | benchmark/src/benchmark_register.cc:302-321 | a counter is the mixed-radix notation of its value |
| `Ranges.DigitsAreCounter` | benchmark/src/benchmark_register.cc:302-321 | and every number below the product has such a notation, with that value |
| `Ranges.EveryTupleOnce` | benchmark/src/benchmark_register.cc:304-321 | every index tuple is enumerated at exactly one position |
| `Ranges.BuildLists` | benchmark/src/benchmark_register.cc:294-300 | one list per range, and their sizes' product; fails exactly if a range is bad |
| `Ranges.ReadTuple` | benchmark/src/benchmark_register.cc:305-310 | reads one value per list off the counter |
| `Ranges.Enumerate` | benchmark/src/benchmark_register.cc:302-321 | appends exactly the Cartesian product, tuple i picked by the digits of i with the first coordinate fastest, and the odometer ends at all zeros |
| `Ranges.DigitAt` | benchmark/src/benchmark_register.cc:314-320 | each digit by itself: the number over the product of the sizes before it, modulo its size |
| `Ranges.CountingIsProduct` | benchmark/src/benchmark_register.cc:302-321 | enumerating by counting appends exactly the tuples with one value from each list, each once, the j-th value of the i-th tuple changing once per round of all coordinates before it |
| `Ranges.FirstFastest` | benchmark/src/benchmark_register.cc:308-320 | the first value of the i-th tuple is element i modulo its size of the first list |
| `Ranges.RangesOf` | benchmark/src/benchmark_register.cc:292-323 | the whole call: it fails exactly on the CHECKs; otherwise earlier arguments stay, the lists are the ranges' lists, and what is appended is their Cartesian product in that order |
| `LeastSquares.FitCurve` | benchmark/src/complexity.cc:76-111 | the loops compute the optimal coefficient and the normalised residual, or neither for an all-zero curve |
| `LeastSquares.CoefficientIsBest` | benchmark/src/complexity.cc:96-97 | any other coefficient is worse by exactly its squared distance times the sum of squared curve values, so the minimiser is unique |
| `LeastSquares.ZeroCurve` | benchmark/src/complexity.cc:96-104 | an all-zero curve leaves the same residual for every coefficient |
| `LeastSquares.RecoversCoefficient` | benchmark/src/complexity.cc:76-111 | times that lie on c times the curve give back c and no residual |
| `LeastSquares.FitsConstant` | benchmark/src/complexity.cc:28-44 | equal times fit the constant curve with themselves as coefficient and no residual |
| `LeastSquares.FitsLogarithm` | benchmark/src/complexity.cc:36-37 | times c lg(n) fit lgN with coefficient c and no residual, if not all are zero |
| `LeastSquares.FitsLine` | benchmark/src/complexity.cc:30-31 | times c n fit N so, unless all sizes are zero |
| `LeastSquares.FitsLineLogarithm` | benchmark/src/complexity.cc:38-39 | times c n lg(n) fit NlgN so |
| `LeastSquares.FitsSquare` | benchmark/src/complexity.cc:32-33 | times c n n fit N^2 so |
| `LeastSquares.FitsCube` | benchmark/src/complexity.cc:34-35 | times c n n n fit N^3 so |
| `LeastSquares.RmsOfOneAndThree` | benchmark/src/complexity.cc:99-108 | the normalised root mean square by its value on one input |
| `LeastSquares.SignedSquareOrders` | benchmark/src/complexity.cc:107-108 | for a positive mean, comparing normalised RMS values is comparing residuals |
| `LeastSquares.Contest` | benchmark/src/complexity.cc:137-143 | one more curve replaces the best so far exactly when strictly better |
| `LeastSquares.MinimalLeastSq` | benchmark/src/complexity.cc:120-150 | fails exactly on the CHECKs; fits the requested curve, or the first of the six with the least RMS |
| `LeastSquares.AutoIsBest` | benchmark/src/complexity.cc:129-143 | with a positive mean time no curve with any coefficient beats the automatic fit, and every earlier curve with any coefficient is strictly worse |
| `LeastSquares.AutoExplainsExactTimes` | benchmark/src/complexity.cc:129-143 | if the times lie on one of the six curves the automatic fit leaves no residual and is no later than that curve |
| `LeastSquares.AutoPicksFirstExact` | benchmark/src/complexity.cc:129-143 | times that lie on some of the six curves are attributed to the first of these, with its coefficient: to the curve they came from if and only if no earlier one carries them |
| `LeastSquares.AutoNamesEach` | benchmark/src/complexity.cc:129-143 | each of the six names is given to times of its own curve at the sizes 1, 2 and 4 |
| `LeastSquares.LinearLooksLogarithmic` | benchmark/src/complexity.cc:129-143 | linear times at sizes 2 and 4 are reported as lgN |

## Left out

- Liveness of `data_cond` in the two-lock queue beyond accounting: that a covering thread gets to run is up to the scheduler.
- The two-lock queue's `try_pop(T&)`, `wait_and_pop(T&)` and `empty()`, which do not compile when instantiated, and its destructor.
- A push whose allocation throws, and element types whose moves throw.
- Weak memory orders: atomics and mutexes are sequentially consistent.
- Thread-pool construction, destruction and the `done` flag, tasks that throw, and tasks that themselves call `wait_all`.
- Philosophers: one seat only, or one seat given to two philosophers, where a `std::mutex` would be locked twice by its holder or shared; thinking and eating times; logging. Stopping is allowed whenever the flag is tested.
- `hierarchical_mutex` and `Logger` are not part of this model; nor are `concurrent_map` and the exercises' `main` functions.
- `ParallelSort` in the parallel model: `nth_element` is any sequence of swaps within the range that ends partitioned; that it can end from any state is proved, that it does end only for the quickselect of the sequential sort.
- The parallel sort's threads share elements of type `int`; thread creation failures are not modelled.
- `ThreadManager`: a benchmark body is the number of barrier arrivals it makes, any number per thread; what it does in between, and the checks there, are `BenchmarkState`. Thread creation is not modelled.
- `BenchmarkState.Step`: the debug assertion that an iterator is not advanced past its end is not modelled; the time sums of `ThreadTimer` are parameters elsewhere, only whether it runs is kept.
- `Counters.SharedResult.Add`: integer fields do not overflow; label, error flag and error message are left out (`TrialLoop` takes the error flag as input).
- Overflow of the int fields of `Barrier`, and of `total` in `Ranges` beyond size_t.
- `TrialLoop.RunBenchmark`: timings are arbitrary reals given by a function of repetition and iteration count, non-negative ones if the minimum time is not positive; report creation, `ComputeStats`, `ComputeBigO` and names are left out.
- Rounding, infinities and NaN: doubles are reals, a division by zero gives no number, RMS values are compared by their signed squares, and `log2` is a parameter.
- `Finish` of counters, `SameNames`, `Arg`, `Range`, `DenseRange` and other registration calls: single expressions or variants of what is modelled.
- Reporters, colour output, flags, system information, clocks, the regex wrapper, tools and build files: input and output, or library calls.
