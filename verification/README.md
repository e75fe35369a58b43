# Verified models of the pthread exercises

A Dafny model of five programs of the repository that synchronise threads, and proofs about every run
of them. The programs are

| program | what it is | files here |
|---|---|---|
| `pthreads/pthreads10.c` | thread pool with a bounded queue and a shutdown flag | `ShutdownPool*.dfy` |
| `pthreads/pthreads6.c` | thread pool that adds a worker when its queue is full | `GrowingPool*.dfy` |
| `pthreads/pthreads3.c` | blocking queue between a producer and a consumer | `ProducerConsumer.dfy`, `BlockingQueueObject.dfy` |
| `pthreads/pthreads1.c` | append-only cache behind a read-write lock | `SharedCache*.dfy` |
| `pthreads/pthreads4.c` | rate limiter on a counting semaphore | `RateLimiter.dfy` |

`Runs.dfy` (runs of a machine, potentials), `Histories.dfy` (the events that runs show), `Threads.dfy`
(wake-up rule of condition variables, sums over families of threads), `Ring.dfy` (the circular buffer),
`Tasks.dfy` (where tasks are) and `PoolSpec.dfy` (what a thread pool is) hold what the programs share. To
check the whole project, use `dafny verify dfyconfig.toml`.

## How a program is modelled

Each program is a state machine on values. A thread has a program counter; each value of it names the
C line (or the lines executed together with the mutex held) that the thread executes next, and the
function `Next` says what that does, or `None` if the thread is blocked there. A run is any sequence of
possible steps, so it covers every interleaving of any number of threads, for any capacity. Nothing in
`Next` assumes that a thread owns the mutex it is supposed to own, or that an index is in range: a line
that would access the array out of bounds has no step, and both facts are proved.

The machines follow IEEE Std 1003.1-2017. Waiting on a condition variable releases the mutex in the same
step; a signal wakes at least one waiter if there is one, possibly several; a woken thread competes for
the mutex with everybody else and tests its condition again; a wait may end without a signal (the steps
named `Spurious...`), and only the lemmas that say so exclude that. Mutexes are of type NORMAL: a thread
that locks a mutex it owns blocks.

The modules named `...Object` hold the C structs as classes, with their arrays and indices, and the code
of their functions as methods that update the fields in place. `Valid()` of such a class contains the
invariant of its machine. A method `...Line` is the C code at one program point; it accesses the arrays
without testing the index, as the source does. A method `...Step` shows that `Valid()` puts these
accesses in range, that the code does exactly what `Next` says, and that it keeps `Valid()`; all further
results are lemmas about `Next`.

For each pool one invariant is kept by every step, and one potential is lowered by every step that a
thread of the pool takes. The first gives the safety results. The second bounds every run by what its
calls and spurious wakeups pay for, so that the states in which no thread can step are where every run
leads; lemmas characterise those states completely.

The machines do not do too little either. For each program a theorem named `StepIff` says exactly which
steps are possible in a reachable state, so no thread waits for anything that it should not wait for, and
`WaitSets` says who falls asleep and who is woken in each step. `PoolSpec.dfy` describes both pools
without threads, as a bounded first-in first-out queue; `HistoriesIff` proves that the histories of each
pool are exactly those of that queue, in both directions. The reachable states of the rate limiter
(`ReachableIff`), the progress of producer and consumer (`CountsIff`), and the orders in which the writers
of the cache can publish (`OrdersIff`) are characterised exactly as well.

## What is true of the code as written, and what is not

* pthreads10.c. The guard of line 68 suggests that destroy releases blocked submitters. It broadcasts
  only `queue_not_empty`. For any number of workers and joins, and without further calls and spurious
  wakeups, a submitter returns in some continuation if and only if it was not asleep on
  `queue_not_full` when the flag was set (`CanReturnIff`); in every continuation in which submitters and
  workers come to rest before destroy frees the pool, exactly those submitters are out
  (`ReturnsIffAwake`). Some run gets a submitter to sleep there at that moment if and only if there are
  more calls than the capacity (`StrandsIff`).
* pthreads10.c. Destroy does not wait for submitters before lines 112-117 free the pool. When it joins
  exactly the existing workers, it can free the pool under every submitter that is inside its call
  (`FreedDuringCallIff`), asleep or not. So a submitter returns in every schedule if and only if it is
  out already, or fewer workers exist than destroy joins and it is not asleep (`ReturnsForSureIff`).
* pthreads10.c, corrected. With a broadcast on `queue_not_full` (variant `WakesSubmitters`) one
  continuation brings all submitters out of their calls (`AllCanReturnIff`), and they are all out
  whenever submitters and workers come to rest before destroy frees the pool (`BroadcastReleasesAll`).
  With a destroy that also waits for calls in progress (variant `WakesAndDrains`) the pool is never
  freed during a call, all submitters return and so does destroy (`DrainingIsSafe`).
* pthreads10.c. The join loop of line 109 counts to `THREAD_POOL_SIZE`, not to the number of threads
  created; destroy returns if and only if the two agree (`StuckAfterDestroy`).
* pthreads6.c. A submit that passes the growth test of line 99 locks `pool_mutex` at line 100 and again,
  inside `add_worker`, at line 120. It then never returns, and no thread ever acquires `queue_mutex`
  again (`GrowthStallsForEver`); a submit at its growth test can return if and only if the test fails
  and the pool has not been freed (`ReturnsIffNoGrowth`). Some run with n calls stalls in this way if and
  only if init started fewer workers than the maximum and n is at least the capacity (`StallsIff`). No
  worker is ever added (`NeverGrowsAsWritten`). The variant `WithoutRelock` leaves the second lock out.
* pthreads6.c. Workers have no exit, so destroy blocks in its first join (`WhenNothingCanStep`). It
  comes to its end in some run if and only if init could not create a single thread (`DestroyReturnsIff`).
* pthreads1.c. The comment of lines 31-36 describes a scan; the loop of lines 39-46 returns in its first
  round. Both are modelled (variants `AsCoded` and `Documented`). On a non-empty cache they agree if and
  only if the key is that of entry 0 or of no other live entry, on an empty one if and only if the
  leftover content of entry 0 is not the key (`CodedAgreesIff`). A lookup that disagrees is reachable
  (`CodedMissesPublishedKey`).
* pthreads1.c. On an empty cache the coded lookup can hand out a pointer to an entry that nobody has
  published (`EmptyCacheAnswers`). That entry keeps its content in every continuation if and only if no
  writer begins with anything else (`CodedPointerIsStableIff`).
* pthreads1.c. Line 47, the end of `cache_lookup` without a value, is never reached (`LookupAnswers`,
  `Cache.Lookup`).

## Model

| member | source | states |
|---|---|---|
| Ring.PutAppends | pthreads/pthreads10.c:75-78 | storing at the tail of a queue that is not full appends to the queued items, also when the tail wraps around, and keeps the indices consistent |
| Ring.TakeRemovesOldest | pthreads/pthreads10.c:94-96 | removing at the head of a non-empty queue yields the oldest item and leaves the others in order |
| Threads.WakeCounts | pthreads/pthreads10.c:79 | a signal turns exactly the released waiters into woken threads |
| ShutdownPoolSafety.InvStep | pthreads/pthreads10.c:66-118 | every step of every thread, call or spurious wakeup keeps the invariant of the pool |
| ShutdownPoolSafety.CriticalSectionsExclude | pthreads/pthreads10.c:66-108 | no two threads are ever between lock and unlock, and the queue is only written when it has room and read when it is not empty, within bounds |
| ShutdownPoolSafety.NoLostWakeup | pthreads/pthreads10.c:66-102 | before shutdown, with the mutex free: if a worker sleeps, the woken workers still to run are at least the queued tasks; if a submitter sleeps, the woken submitters are at least the free slots |
| ShutdownPoolSafety.FirstInFirstOut | pthreads/pthreads10.c:75-98 | in every reachable state the removed tasks followed by the queue are the accepted tasks in acceptance order |
| ShutdownPoolSafety.ExactlyOnce | pthreads/pthreads10.c:66-102 | every accepted task is queued, held by a worker, or started, in one place and once |
| ShutdownPoolSteps.StepIff | pthreads/pthreads10.c:66-118 | in every reachable state exactly these steps are possible: a thread waits only for another critical section to end if it wants the mutex, for a wakeup if it sleeps, for the exit of the worker it joins; every idle submitter can make any new call, every sleep can end, and no access is out of bounds |
| ShutdownPoolSteps.WaitSets | pthreads/pthreads10.c:68-107 | step by step, a worker falls asleep iff it finds every accepted task removed and the flag not set, a submitter iff it finds the queue full and the flag not set; signals, broadcasts and spurious wakeups wake exactly the threads they name, and nobody else is touched |
| ShutdownPoolSteps.SignalWakesAnyWorkers | pthreads/pthreads10.c:79 | the signal of submit can take any non-empty set of the sleeping workers, one alone for instance, out of the wait set, and leaves every other worker where it is |
| ShutdownPoolSteps.SignalWakesAnySubmitters | pthreads/pthreads10.c:97 | the same for the signal of a worker and the sleeping submitters |
| ShutdownPoolHistories.HistoriesIff | pthreads/pthreads10.c:66-107 | in every variant the histories of calls, acceptances, refusals, removals, starts and ends of tasks and the shutdown are exactly those of a bounded first-in first-out queue that can be closed |
| ShutdownPoolLiveness.EveryThreadStepDescends | pthreads/pthreads10.c:66-118 | every step of a submitter, worker or destroyer lowers one potential; calls and spurious wakeups raise it by a bounded amount |
| ShutdownPoolLiveness.EveryRunEnds | pthreads/pthreads10.c:66-118 | the number of thread steps of a run is bounded by its calls and spurious wakeups, with barging and multiple wakeups |
| ShutdownPoolLiveness.RunIsBounded | pthreads/pthreads10.c:66-118 | the same bound from any reachable state, in terms of its potential |
| ShutdownPoolLiveness.RunsToStuck | pthreads/pthreads10.c:66-118 | from every reachable state the threads alone reach a state in which none can step, in at most as many steps as the potential |
| ShutdownPoolLiveness.StuckBeforeShutdown | pthreads/pthreads10.c:66-102 | deadlock freedom: when no thread can step and destroy was not called, the queue is empty, nobody is blocked in submit, all workers wait for work and every submitted task has been started exactly once |
| ShutdownPoolLiveness.StuckAfterDestroy | pthreads/pthreads10.c:83-118 | after destroy was called, when no thread can step: all workers have exited, destroy has returned iff num_threads equals THREAD_POOL_SIZE, and the accepted tasks are the started ones plus the queue that line 113 frees |
| ShutdownPoolLiveness.NoWorkerSleepsAfterBroadcast | pthreads/pthreads10.c:87-107 | from the broadcast on no worker is in the wait set, in any continuation |
| ShutdownPoolLiveness.FrozenAfterShutdown | pthreads/pthreads10.c:68-98 | once the flag is set no continuation changes the queue or accepts a task; the only tasks still started are those that workers already hold |
| ShutdownPoolLiveness.StrandedForEver | pthreads/pthreads10.c:68-108 | as written, without spurious wakeups, the set of submitters asleep on queue_not_full never changes after the flag is set |
| ShutdownPoolLiveness.FreedDuringCallIff | pthreads/pthreads10.c:104-118 | at the unlock of destroy, when it joins exactly the existing workers: some continuation without further calls frees the pool while a given submitter is inside its call iff that submitter is inside a call now |
| ShutdownPoolLiveness.CanReturnIff | pthreads/pthreads10.c:68-110 | when the flag is set, for any number of workers and joins and without further calls and spurious wakeups: a submitter can return in some continuation iff it is not asleep on queue_not_full or the added broadcast is there |
| ShutdownPoolLiveness.AllCanReturnIff | pthreads/pthreads10.c:68-110 | all submitters return in one and the same such continuation iff none is asleep there when the flag is set or the added broadcast is there |
| ShutdownPoolLiveness.ReturnsIffAwake | pthreads/pthreads10.c:68-110 | as written, when destroy has released the mutex and not freed the pool, and neither submitters nor workers can step, a submitter is out of its call iff it was not asleep when the flag was set; one that was asleep never returns, whether the pool is freed or not |
| ShutdownPoolLiveness.ReturnsForSureIff | pthreads/pthreads10.c:66-118 | as written, a submitter returns under every schedule iff, when the flag is set, it is out already, or fewer workers exist than destroy joins and it is not asleep |
| ShutdownPoolLiveness.BroadcastReleasesAll | pthreads/pthreads10.c:104-117 | with a broadcast on queue_not_full added, every submitter is out of its call when destroy has released the mutex and not freed the pool, and neither submitters nor workers can step; if destroy also waits for calls in progress, when it has freed the pool too |
| ShutdownPoolLiveness.DrainingIsSafe | pthreads/pthreads10.c:104-117 | with that wait the pool is never freed during a call, and a run can only end with destroy and all submitters returned |
| ShutdownPoolReach.StrandsIff | pthreads/pthreads10.c:66-107 | with n calls of submit some run has a submitter asleep on queue_not_full when the flag is set iff there is a submitter and n exceeds the capacity |
| ShutdownPoolObject.ThreadPool.constructor | pthreads/pthreads10.c:50-64 | init yields the initial state of the machine, with its invariant |
| ShutdownPoolObject.ThreadPool.SubmitStep | pthreads/pthreads10.c:66-81 | submit, updating the struct in place, keeps the invariant, stores within bounds, does exactly the step of the machine and is blocked exactly where the machine is |
| ShutdownPoolObject.ThreadPool.WorkStep | pthreads/pthreads10.c:83-102 | the same for the worker loop |
| ShutdownPoolObject.ThreadPool.DestroyStep | pthreads/pthreads10.c:104-118 | the same for destroy |
| ShutdownPoolObject.ThreadPool.Call | pthreads/pthreads10.c:66-108 | a new call, or a wait that ends without a signal, keeps the invariant and does exactly the step of the machine |
| GrowingPoolSafety.InvStep | pthreads/pthreads6.c:76-191 | every step keeps the invariant of the growing pool, in both variants |
| GrowingPoolTheorems.NoLostWakeup | pthreads/pthreads6.c:89-157 | as for the other pool, while workers are being added |
| GrowingPoolTheorems.TasksAreConserved | pthreads/pthreads6.c:89-158 | the removed tasks followed by the queue are the accepted tasks in order; a submitted task is with its submitter or accepted, never both; an accepted one is queued, held or started, in one place and once |
| GrowingPoolSteps.StepIff | pthreads/pthreads6.c:76-191 | in every reachable state exactly these steps are possible: a thread waits only for another critical section of queue_mutex, for any critical section of pool_mutex, its own included, for a wakeup, or for ever if it joins a worker |
| GrowingPoolSteps.WaitSets | pthreads/pthreads6.c:90-178 | step by step, a worker falls asleep iff it finds every accepted task removed, a submitter iff it finds the queue full; signals, the broadcast and spurious wakeups wake exactly the threads they name |
| GrowingPoolSteps.SignalWakesAnyWorkers | pthreads/pthreads6.c:97 | the signal of submit can take any non-empty set of the sleeping workers out of the wait set and leaves every other worker where it is |
| GrowingPoolSteps.SignalWakesAnySubmitters | pthreads/pthreads6.c:156 | the same for the signal of a worker and the sleeping submitters |
| GrowingPoolSteps.BroadcastWakesAll | pthreads/pthreads6.c:175-179 | every worker asleep at some moment while destroy owns queue_mutex is woken, and none asleep, when destroy is about to release it, and the release leaves them so |
| GrowingPoolSteps.NobodySleepsAtTheRelease | pthreads/pthreads6.c:178-179 | in every reachable state in which destroy is about to release queue_mutex no worker is in the wait set |
| GrowingPoolHistories.HistoriesIff | pthreads/pthreads6.c:76-161 | the histories of calls, acceptances, attempts to add a worker, removals, starts and ends of tasks are exactly those of a bounded first-in first-out queue in which a submit that fills the queue below the maximum holds up acceptances and removals until it has tried to add a worker, or for ever as written |
| GrowingPoolTheorems.OnlyCycleIsTheRelock | pthreads/pthreads6.c:89-133 | a holder of pool_mutex never asks for queue_mutex; the waiting threads form a closed chain iff a submitter is at line 120, and then the chain is that submitter alone; none without the relock |
| GrowingPoolTheorems.GrowthStallsForEver | pthreads/pthreads6.c:99-134 | as written, after a growth test that succeeds, no continuation moves a task, lets a submit return or another thread acquire queue_mutex |
| GrowingPoolTheorems.ReturnsIffNoGrowth | pthreads/pthreads6.c:99-108 | as written, a submit at its growth test can return in some continuation iff the test fails and the pool has not been freed |
| GrowingPoolTheorems.NeverGrowsAsWritten | pthreads/pthreads6.c:99-134 | as written, in every run the number of threads and the set of workers stay what init made them |
| GrowingPoolReach.StallsIff | pthreads/pthreads6.c:89-120 | as written, with n calls of submit some run reaches a submit that stalls for ever iff there is a submitter, init created fewer threads than max_threads, and n is at least the capacity, which is not 0 |
| GrowingPoolTheorems.GrowthBound | pthreads/pthreads6.c:62-133 | the number of threads never decreases nor exceeds max_threads, and handles below it are never overwritten, in every run and whatever pthread_create answers |
| GrowingPoolTheorems.GrowthCheckAddsAtMostOne | pthreads/pthreads6.c:99-107 | until the submit that made a growth check returns, at most one worker is created and counted |
| GrowingPoolGrowth.GrowthAddsIff | pthreads/pthreads6.c:99-133 | without the relock, from a growth test to the return of its submit: a creation is attempted iff the queue is full and there are fewer threads than max_threads, and the number of threads and of workers is one more at the return iff that creation succeeded, else the same |
| GrowingPoolGrowth.GrowthHappens | pthreads/pthreads6.c:99-133 | without the relock, when the test succeeds in a pool that is not freed, the submit can return with one thread more, and, if the creation fails, with the same number |
| GrowingPoolTheorems.BelowCapacity | pthreads/pthreads6.c:199-204 | with fewer submissions than the capacity no submitter waits, the growth branch is never entered and the number of threads stays what init made it |
| GrowingPoolLiveness.EveryThreadStepDescends | pthreads/pthreads6.c:76-191 | every thread step, including creating a worker, lowers one potential |
| GrowingPoolLiveness.EveryRunEnds | pthreads/pthreads6.c:76-191 | the number of thread steps of a run is bounded by its calls and spurious wakeups |
| GrowingPoolLiveness.RunsToStuck | pthreads/pthreads6.c:76-191 | from every reachable state the threads alone reach a state in which none can step |
| GrowingPoolLiveness.WhenNothingCanStep | pthreads/pthreads6.c:148-183 | without the relock, or when no growth happened: a run that can go no further has an empty queue, every submitted task started exactly once, all workers waiting at line 151 and a called destroyer blocked in its first join |
| GrowingPoolLiveness.DestroyReturnsIff | pthreads/pthreads6.c:163-191 | destroy comes to its end in some run iff init could not create a single thread, in both variants |
| GrowingPoolObject.ThreadPool.constructor | pthreads/pthreads6.c:44-74 | init yields the initial state, with the invariant and as many workers as creations succeeded, up to max_threads |
| GrowingPoolObject.ThreadPool.AddWorker | pthreads/pthreads6.c:110-134 | called with pool_mutex free: returns 0 and adds one counted worker, or returns -1 and changes neither the count nor the counted handles |
| GrowingPoolObject.ThreadPool.SubmitStep | pthreads/pthreads6.c:89-134 | submit with add_worker inside it, updating the struct in place, keeps the invariant, accesses both arrays within bounds and does exactly the step of the machine |
| GrowingPoolObject.ThreadPool.GrowLine | pthreads/pthreads6.c:99-133 | the code of the growth branch and of add_worker inside it does exactly the step of the machine |
| GrowingPoolObject.ThreadPool.WorkStep | pthreads/pthreads6.c:148-159 | the same for the worker loop |
| GrowingPoolObject.ThreadPool.DestroyStep | pthreads/pthreads6.c:175-190 | the same for destroy |
| GrowingPoolObject.ThreadPool.Call | pthreads/pthreads6.c:76-175 | a new call, or a wait that ends without a signal, keeps the invariant and does exactly the step of the machine |
| ProducerConsumer.InvStep | pthreads/pthreads3.c:38-91 | every step keeps the invariant: the queue holds exactly the numbers stored and not removed |
| ProducerConsumer.OutputIsAPrefix | pthreads/pthreads3.c:73-91 | in every run the consumer's output is a prefix of 1..n and between 0 and capacity items are in transit |
| ProducerConsumer.RunsEndWithEverythingDelivered | pthreads/pthreads3.c:73-91 | with capacity at least 1 there is no deadlock: a run can only end with both threads finished, output 1..n and an empty queue |
| ProducerConsumer.EveryRunEnds | pthreads/pthreads3.c:38-91 | a run has at most 17 n + 2 steps, plus three for each spurious wakeup |
| ProducerConsumer.StepIff | pthreads/pthreads3.c:38-91 | in every reachable state a thread that is not done waits only for the other one to leave its critical section or for a wakeup; it falls asleep exactly when it finds the queue full or empty, and is woken exactly by the signal of the other one or spuriously |
| ProducerConsumer.CountsIff | pthreads/pthreads3.c:73-91 | exactly the numbers a of stored and b of removed items with b <= a <= n and a - b within the capacity occur (nothing with capacity 0) |
| BlockingQueueObject.BlockingQueue.ProduceStep | pthreads/pthreads3.c:38-81 | the producer and enqueue, updating the struct in place, keep the invariant, store within bounds and do exactly the step of the machine |
| BlockingQueueObject.BlockingQueue.ConsumeStep | pthreads/pthreads3.c:50-91 | the same for the consumer and the dequeue that the comment describes |
| SharedCache.CodedAgreesIff | pthreads/pthreads1.c:30-47 | over an empty cache the coded loop and the documented scan agree iff the content of entry 0 is not the key; over any other, iff the key is that of entry 0 or of no other live entry |
| SharedCache.FirstMatchIsEarliest | pthreads/pthreads1.c:31-36 | the documented scan returns the earliest entry with the key, or none exactly if there is none |
| SharedCacheTheorems.InvStep | pthreads/pthreads1.c:30-94 | every step of a reader or writer keeps the invariant of the cache |
| SharedCacheTheorems.LiveEntriesAreComplete | pthreads/pthreads1.c:38-60 | readers and writers exclude each other, and the entries below the count are complete published entries even while a writer is half way through the next one |
| SharedCacheTheorems.LookupAnswers | pthreads/pthreads1.c:38-47 | the answer of a concurrent lookup is that of its variant on the entries published at that moment; the end of the function without a value is never reached |
| SharedCacheLookups.StepIff | pthreads/pthreads1.c:30-94 | in every reachable state a writer is kept waiting only by a thread inside its critical section and a reader only by a writer inside its own; every reader outside a lookup can start one |
| SharedCacheLookups.ReadersTogether | pthreads/pthreads1.c:38 | any set of readers can be inside a lookup at the same time |
| SharedCacheLookups.LookupIsLinearizable | pthreads/pthreads1.c:30-47 | what a lookup has returned, in whatever run, is the answer of its variant on the cache at one moment between its call and its return |
| SharedCacheLookups.PublishedKeyIsFound | pthreads/pthreads1.c:38-42 | a lookup that starts when its key is published (as entry 0, as coded) never returns NULL, and once it has returned the reader has a pointer to the first published entry with the key, a live one |
| SharedCacheLookups.MissingKeyIsNull | pthreads/pthreads1.c:37-46 | a key not published by the end of the lookup is answered with NULL by the documented scan, and every key other than that of entry 0, once there is one, by the coded loop |
| SharedCacheTheorems.PointerIsStable | pthreads/pthreads1.c:40-42 | a value pointer to a live entry denotes the same key and value in every continuation after the unlock |
| SharedCacheTheorems.CodedPointerIsStableIff | pthreads/pthreads1.c:37-54 | the entry that a hit of the coded lookup points to is entry 0, live iff the count is at least 1, and keeps its content in every continuation iff it is live or every writer begins with exactly that entry or with none |
| SharedCacheTheorems.EmptyCacheAnswers | pthreads/pthreads1.c:37-42 | from every initial state a reader can get a pointer to an entry that is not live |
| SharedCacheTheorems.CodedMissesPublishedKey | pthreads/pthreads1.c:39-45 | two entries with different keys can be published after which the coded lookup answers NULL for the second key |
| SharedCacheTheorems.ProgramOrder | pthreads/pthreads1.c:79-92 | what each writer has published is a prefix of its program, in order |
| SharedCacheTheorems.FinalCount | pthreads/pthreads1.c:49-61 | when all writers are done, count is the smaller of the adds and MAX_CACHE_SIZE, and exactly the adds beyond the size returned -1 |
| SharedCacheReach.OrdersIff | pthreads/pthreads1.c:49-94 | the writers can publish in exactly the orders that name no writer more often than its program is long and fit into the cache |
| SharedCacheLiveness.EveryThreadStepDescends | pthreads/pthreads1.c:30-94 | every step of a reader or writer, in either variant, lowers one potential; only the start of a lookup raises it |
| SharedCacheLiveness.EveryRunEnds | pthreads/pthreads1.c:30-94 | a run has at most 9 steps a writer, 7 an add and 2 MAX_CACHE_SIZE + 5 a lookup |
| SharedCacheLiveness.WhenNothingCanStep | pthreads/pthreads1.c:30-94 | no deadlock: when no thread can step, every writer has finished and no reader is inside a lookup |
| SharedCacheTheorems.WritersTimesAdds | pthreads/pthreads1.c:79-94 | if writers times adds fits into the cache no add fails and the final count is the product |
| SharedCacheTheorems.EntryZeroHasTheFirstKey | pthreads/pthreads1.c:81-86 | if every writer starts with the same key, entry 0 has it in every reachable state with an entry |
| SharedCacheObject.Cache.Lookup | pthreads/pthreads1.c:37-47 | the loop of the source, entered at -1, always returns a value, namely the first answer of the coded loop: entry 0 or NULL |
| SharedCacheObject.Cache.LookupAll | pthreads/pthreads1.c:31-36 | the documented scan returns the earliest live match |
| SharedCacheObject.Cache.Add | pthreads/pthreads1.c:49-61 | appends and returns 0, or returns -1 and changes nothing when the cache is full |
| SharedCacheObject.Cache.WriteStep | pthreads/pthreads1.c:49-94 | the writer thread, updating the struct in place, keeps the invariant, writes within bounds and does exactly the step of the machine |
| SharedCacheObject.Cache.ReadStep | pthreads/pthreads1.c:30-47 | the same for a lookup |
| RateLimiter.PermitsAreConserved | pthreads/pthreads4.c:25-54 | in every state of every run the semaphore value plus the holders is max_requests, so at most max_requests threads hold a permit |
| RateLimiter.RunsComplete | pthreads/pthreads4.c:69-78 | with at least one permit a run can only stop with every thread done and all permits returned; without permits no thread gets past its acquire |
| RateLimiter.StepIff | pthreads/pthreads4.c:35-78 | in every reachable state a thread that is not done can go on, except at its acquire while max_requests threads hold a permit |
| RateLimiter.ReachableIff | pthreads/pthreads4.c:25-78 | the reachable states are exactly those in which value plus holders is max_requests (and nobody has moved if that is 0) |
| RateLimiter.HoldersIff | pthreads/pthreads4.c:35-44 | exactly the numbers up to the smaller of max_requests and the threads occur as the number of simultaneous holders |
| RateLimiter.Limiter.TaskStep | pthreads/pthreads4.c:69-78 | the thread, updating the semaphore in place, keeps the permits and does exactly the step of the machine |

## Left out

- `demos/`, `demos/docs/miniserver.c`: callbacks over Sofia-SIP, whose protocol state machine is in a library that is not part of this model.
- The server loop of `pthreads/pthreads10.c` (lines 132-224): sockets and select. It never reaches destroy, so the pool is modelled as an API with arbitrary callers.
- `pthreads/pthreads2.c`, `pthreads5.c`, `pthreads7.c`, `pthreads8.c`, `pthreads9.c`, `pthreads11.c`: bodies that are comments or stubs, or guarantees of the C library only.
- Sleeps, printing, random delays, allocation failure, signals that interrupt `sem_wait`, buffer sizes of strings: abstracted away; keys and values are strings of any length and each `strcpy` is one step.
- `task_t **tasks[1]` (`pthreads/pthreads10.c:26`): modelled as the array of tasks as which lines 54, 75 and 94 use it.
- Indices are unbounded integers: the proved bounds (between 0 and the capacity) rule out overflow of a C `int`.
- Tasks are opaque, return, and do not submit to the pool that executes them; every call submits a new task.
- What freed memory does: destroy is called at most once, and a call of submit, a step on the mutex or a wakeup in a freed pool has no successor. That a thread can get to such a point is proved (`FreedDuringCallIff`).
- Creation of the workers is finished when the first step happens; a worker that the operating system starts later is one whose first step comes later.
- A cache of size 0: the coded loop would read outside the array (`pthreads/pthreads1.c:40`), a step that has no successor; MAX_CACHE_SIZE is 10.
- A join on a slot of `threads` in which no thread was stored is undefined in POSIX; the model lets it wait for ever. Starting more threads than `threads` has room for is excluded.
- `bqueue_create`, `bqueue_dequeue` (`pthreads/pthreads3.c`): the source has only their comments; the steps follow the comments.
- Fairness: no result depends on it. Results about the end of runs speak of runs that can go no further, and the bounds on runs show that every run with finitely many calls and spurious wakeups gets there.
