# MassiveThreads: a verified model of its lock-light protocols

MassiveThreads runs many user-level threads on a few workers. This Dafny 4.11 project models
the parts of it whose correctness is an argument over interleavings or over memory layout, and
proves what they promise. `dafny verify dfyconfig.toml` checks all of it.

How things are modelled:

- A protocol that several workers run at once is a state machine on values: a `State`, an
  `Enabled` predicate and a `Next` function whose steps are the single shared accesses of the
  code, one program point each. Theorems are about every run from an initial state (`Runs`,
  `Exec`), or about every state that satisfies an invariant shown to hold over every run.
  Some state fields are history variables: they record what happened and no step looks at them.
- Code that one worker runs alone is a class with the fields of the source (`RunQueue.Queue`,
  `SleepQueue.Queue`, `Allocator.Store`, `Tls.Tree`, `TlsKeys.KeyAllocator`), or a method with the
  loop of the source (`JoinCounter.CalcBits`).
- A failed `myth_assert` or an `exit` is a program point of its own, shown to be out of reach.
- A module whose name ends in `Answers` says what the calls of a machine are answered. It reads
  calls, arrivals and returns off the acts and program points of a run, not off history
  variables, and says that a call left alone is answered in a bounded number of steps.

The modules:

- `RunQueueTso`, `RunQueueTsoInv`, `RunQueueTsoSteps`, `RunQueueTsoTheorems`,
  `RunQueueTsoAnswers`: the work-stealing run queue on x86-TSO. Each worker has a FIFO buffer of
  stores; the exchange of the read barrier and the compare-and-swap of the lock wait for it to be
  empty; a write barrier is no step (`src/myth_mem_barrier_func.h:33-47`,
  `src/myth_spinlock_func.h:39-52`). A memmove and straight-line stores enter the buffer together
  but leave it one at a time. An owner that steals from its own queue would be a peer with a
  buffer of its own. Sequential consistency is the runs that flush at once.
- `RunQueue`: the same bodies on an array, without interference. Both modules use the one
  sequential deque, `RunQueueTsoInv.Apply`.
- `HintCache`: the sequence lock over the hint of a run queue.
- `Mutex`, `MutexAnswers`, `Barrier`, `BarrierAnswers`, `JoinCounter`, `JoinCounterAnswers`,
  `InternalBarrier`, `LazyMutex`: blocking synchronisation. A waiter reserves its seat first and
  enters the sleep queue after its context has been saved; threads are not preempted in between.
- `Felock`, `FelockAnswers`, `FelockRuns`, `FelockTheorems`: the full/empty lock. Its mutex is the
  machine of `Mutex`, step by step; its conditions have queues of their own.
- `SleepQueue`: the locked list of sleepers and the collecting of n of them.
- `Lifecycle`, `LifecycleAnswers`: the exit of one thread against its one join, tryjoin or detach.
- `Scheduler`, `SchedulerInv`, `SchedulerSteps`, `SchedulerTheorems`, `SchedulerQueues`,
  `SchedulerAnswers`: where every thread is, from creation to exit, on any number of workers. Run
  queues are the abstract deques of `RunQueueTsoInv.Apply`; a pop may find nothing at any time.
- `CreateJoin`: the binary tree of `myth_create_join_various_ex`.
- `SizeClass`, `AllocatorHeap`, `Allocator`: size classes, free lists, pages and stacks.
- `Tls`, `TlsKeys`: the tree of thread-local values and the allocator of keys.
- `Base`, `Counting`, `Arithmetic`: small notions shared by the others.

Where code and comments differ, the code is followed: the "invalid state" of the barrier that
`src/myth_sync_func.h:241-246` describes is not in it.

Five promises are false as they stand. Each has the exact condition under which it holds, for
all runs, and a run that breaks it without:

- a peek answers from one publication: if and only if the counter moves by less than 2^32 in its
  last round (`HintCache.SoundIff`, `HintCache.WrapTearsARead`);
- sleepers on a full/empty lock are not stranded: if and only if every wait_and_lock is to end in
  mark_and_signal, or there are fewer than three threads (`FelockTheorems.StrandsIff`);
- while that lock is free, a thread contending for the present status is awake: if and only if
  there are fewer than three threads, or three that keep to this (`FelockTheorems.AwakeIff`); what
  holds for any number of them is `FelockTheorems.FreeMeansContended`;
- detach may free a finished descriptor without the lock: if and only if the exiter does not hold
  the lock (`Lifecycle.FastDetachIsUnsafeIffLocked`, `Lifecycle.FastDetachDoesRace`);
- creating and joining many threads is the documented loop: if and only if result slots do not
  overlap, or there are not two (`CreateJoin.LikeTheLoopIff`).

Two more have a condition on their input: requests above 1 GiB (`SizeClass.ServedIff`) and a
negative number of threads (`CreateJoin.ReturnsIffNonNegative`).

## Model

| member | source | states |
|---|---|---|
| RunQueueTsoSteps.StepGood | src/myth_wsqueue_func.h:151-412 | every step of one owner and any number of thieves, peekers and passers, store-buffer flushes included, keeps the invariant and is exactly one operation of a sequential deque on the abstract queue, or none |
| RunQueueTsoSteps.PopFenceGood | src/myth_wsqueue_func.h:209-224 | the race of pop against take: having announced top and drained, pop reads base and goes on with or without the lock; either way the invariant holds, by which a pop without the lock reads above every slot that a thief or passer may touch, and the queue is unchanged |
| RunQueueTsoSteps.TakeFenceGood | src/myth_wsqueue_func.h:291-311 | the other side: having announced base + 1 and drained, a thief reads top and goes on or takes its announcement back; either way the invariant holds, by which the slot it will read is below all that the owner may take, and the queue is unchanged |
| RunQueueTsoSteps.PopFastReads | src/myth_wsqueue_func.h:214-221 | the slot that pop reads without the lock holds the last thread of the queue |
| RunQueueTsoSteps.TakeReads | src/myth_wsqueue_func.h:293-299 | the slot that a thief reads holds the first thread of the queue |
| RunQueueTsoSteps.ShiftStores | src/myth_wsqueue_func.h:171-177 | the stores of a compaction, once drained, put the queued block in its new place and touch nothing else but the slots and the two ends |
| RunQueueTsoSteps.PushShiftGood | src/myth_wsqueue_func.h:161-182 | the compaction of push, or its overflow, keeps the invariant and the queued sequence |
| RunQueueTsoSteps.PutShiftGood | src/myth_wsqueue_func.h:385-406 | the compaction of put and the store that follows it keep the invariant and add one thread in front of the same sequence |
| RunQueueTsoTheorems.RunKeepsInv | src/myth_wsqueue_func.h:101-412 | from a good state every run stays good and is a run of the sequential deque |
| RunQueueTsoTheorems.EveryRunIsADequeRun | src/myth_wsqueue_func.h:151-412 | every run from an empty queue is a run of the sequential deque, with the threads the bodies actually read as the ends of the queue at those moments |
| RunQueueTsoTheorems.NothingLostNothingDoubled | src/myth_wsqueue_func.h:151-412 | what was inserted is what was removed plus what is queued, as multisets |
| RunQueueTsoTheorems.EachWorkerGetsWhatItTook | src/myth_wsqueue_func.h:194-311 | what a worker is returned is what its bodies took from the queue, in the same order, with at most the last one still in its hand |
| RunQueueTsoTheorems.OverflowMeansFull | src/myth_wsqueue_func.h:163-169 | in every reachable state: under the lock push and put go on to their overflow abort exactly when every slot of the array is queued |
| RunQueueTsoTheorems.LockedNullMeansEmpty | src/myth_wsqueue_func.h:250-257 | under the lock pop answers NULL only for an empty queue; nothing is promised of the unlocked NULLs |
| RunQueueTsoTheorems.AccessesInBounds | src/myth_wsqueue_func.h:151-412 | no slot access leaves the array, whatever tentative base and top are in memory |
| RunQueueTsoTheorems.HintIsTheBase | src/myth_if_native.c:699-838 | with push, pop, hinted take and hinted peek only, the cached thread is the one at the logical base, or a store that replaces it is already on its way from the lock holder |
| RunQueueTsoAnswers.EveryRequestIsSettled | src/myth_wsqueue_func.h:151-412 | in every run what each worker was asked to push, put or pass, read off the calls, is settled in that order and at the end that the call names: added by the deque operation, or refused; at most the last request is under way |
| RunQueueTsoAnswers.RefusalIsRight | src/myth_wsqueue_func.h:163-170 | push and put refuse, with their abort, only when every slot is queued; pass only when its trylock fails or the base is at the bottom, and answers so |
| RunQueueTsoAnswers.PassIsAnswered | src/myth_wsqueue_func.h:345-367 | pass answers 1 exactly when it has added its thread |
| RunQueueTsoAnswers.QuickPopNull | src/myth_wsqueue_func.h:198-202 | pop answers NULL at once only for an empty queue, or a single thread that a lock holder is at work on, and always for an empty queue that no peer is at work on |
| RunQueueTsoAnswers.TakeNull | src/myth_wsqueue_func.h:296-311 | a take goes on under the lock only to the first thread of a queue that has one, and gives up with a calm owner only if nothing is queued |
| RunQueueTsoAnswers.QuickTakeNull | src/myth_wsqueue_func.h:277-281 | the unlocked check of take, undisturbed, answers NULL exactly for an empty queue |
| RunQueueTsoAnswers.EveryTakeIsAnswered | src/myth_wsqueue_func.h:272-316 | every take ends with the thread at the base, or without one only where it has seen none, peeks, is declined by its decision function or gives way to the lock holder |
| RunQueueTsoAnswers.EveryBodyIsTheOneCalled | src/myth_wsqueue_func.h:264-412 | each peer is in the body that it was last called for |
| RunQueueTsoAnswers.OwnerRunsOut | src/myth_wsqueue_func.h:151-262 | every step and flush of the owner is one less of a bounded number |
| RunQueueTsoAnswers.PeerRunsOut | src/myth_wsqueue_func.h:264-367 | so is every step and flush of a peer |
| RunQueue.Queue.constructor | src/myth_wsqueue_func.h:101-122 | an empty queue in the middle of the array |
| RunQueue.Queue.Clear | src/myth_wsqueue_func.h:133-148 | an empty queue goes back to the middle |
| RunQueue.Queue.Shift | src/myth_wsqueue_func.h:172-178 | the memmove and the new ends keep the contents |
| RunQueue.Queue.Push | src/myth_wsqueue_func.h:151-191 | adds at the top, compacting first if the top is reached; aborts if and only if the array is full; keeps the hint |
| RunQueue.Queue.Pop | src/myth_wsqueue_func.h:194-262 | removes the last thread, or answers NULL for an empty queue; a hint of the last thread goes with it |
| RunQueue.Queue.Take | src/myth_wsqueue_func.h:272-316 | removes the first thread, or answers NULL for an empty queue |
| RunQueue.Queue.TryPass | src/myth_wsqueue_func.h:345-367 | adds in front unless the base is at the bottom of the array |
| RunQueue.Queue.Put | src/myth_wsqueue_func.h:379-412 | adds in front, compacting first at the bottom; aborts if and only if the array is full |
| RunQueue.Queue.HintedTake | src/myth_if_native.c:699-758 | removes the first thread if the decision function accepts it, and then invalidates the hint; otherwise nothing changes |
| RunQueue.Queue.HintedPeek | src/myth_if_native.c:762-838 | answers the first thread from the hint cache, which afterwards holds it; an empty queue leaves the cache as it was; the queue is unchanged |
| HintCache.NextKeeps | src/myth_if_native.c:731-836 | every step of publishers, invalidators and readers keeps what each reader has read consistent while the counter has not moved |
| HintCache.ReadsOnePublication | src/myth_if_native.c:818-836 | a peek that leaves its retry loop, with fewer than 2^31 publications during its last round, returns the thread and the hint prefix of one single publication; without a retry the size is exactly the smaller of the published and the requested one |
| HintCache.SoundIff | src/myth_if_native.c:818-836 | the exact condition: for every bound b, all peeks whose last round sees the counter move by at most b return one publication if and only if b is less than 2^32 |
| HintCache.ReadsAreBounded | src/myth_if_native.c:824-834 | however often it retries it copies no more than the caller asked for at first, and stays within the cache |
| HintCache.WrapTearsARead | src/myth_if_native.c:818-836 | a run in which the counter moves by exactly 2^32, 2^31 publications, in the middle of a round: seq is the same again and the peek returns one thread with the hint of another |
| HintCache.PubsAreAsked | src/myth_if_native.c:731-816 | the publications are those that the calls ask for, in order, with the hint cut to the cache |
| HintCache.ReadersAreAsked | src/myth_if_native.c:762-836 | each peek has the size and the buffer that it was called with |
| HintCache.SizeIsAnswered | src/myth_if_native.c:824-836 | a peek leaves in *psize the size that it got, which is what it asks for when it has to go round again |
| HintCache.ReadingRunsOut | src/myth_if_native.c:818-836 | while nobody publishes each step of a peek is one less of a bounded number |
| HintCache.PublishingRunsOut | src/myth_if_native.c:731-816 | so is each step of a publisher |
| Mutex.NextKeeps | src/myth_sync_func.h:471-626 | every step of lock, trylock and unlock, of dispatching and leaving a worker, and of handing the locked mutex over to the callback of a condition wait keeps the invariant |
| Mutex.MutualExclusion | src/myth_sync_func.h:471-626 | at most one thread owns the lock bit, and the bit is set from the acquiring compare-and-swap until the wakee is dequeued |
| Mutex.NoLostWakeup | src/myth_sync_func.h:520-626 | waiters announced + unlockers that announced but have not dequeued = seats reserved + sleepers queued; a free mutex with waiters has a woken thread about to retry |
| Mutex.SleepersAreNotForgotten | src/myth_sync_func.h:520-626 | while somebody sleeps, somebody owns the mutex or is about to retry |
| Mutex.AssertionsHold | src/myth_sync_func.h:520-626 | if only holders unlock, the exit and all assertions of lock, clear and unlock are out of reach |
| Mutex.DequeueSpinIsServed | src/myth_sync_func.h:172-200 | the dequeue spin waits for a queued thread, or for one that has reserved its seat on another worker and whose next step enters the queue |
| MutexAnswers.EveryPointServesTheCall | src/myth_sync_func.h:471-626 | each agent is where its last call, read off the acts, puts it: inside that call, holding what lock, trylock or a hand-over gave it, or outside, but never outside after lock |
| MutexAnswers.EveryAnswerIsRight | src/myth_sync_func.h:471-626 | every act begins a call, answers it rightly or leaves it pending: lock and trylock are granted by setting a clear lock bit, trylock is refused only while the bit is set, unlock ends with the bit cleared |
| MutexAnswers.LockAlone | src/myth_sync_func.h:520-551 | lock left alone has a free mutex after at most four steps, and sleeps in the queue of a taken one |
| MutexAnswers.TryAlone | src/myth_sync_func.h:471-486 | trylock left alone takes a free mutex, in two steps from its start, and refuses a taken one |
| MutexAnswers.UnlockAlone | src/myth_sync_func.h:592-626 | unlock left alone clears the word when nobody waits |
| MutexAnswers.UnlockWakes | src/myth_sync_func.h:612-618 | otherwise it takes the first sleeper from the queue, clears the bit and leaves the sleeper about to retry |
| Barrier.NextKeeps | src/myth_sync_func.h:852-878 | every step of a fixed set of participants, down to single reads and swings of the sleep stack pointers, keeps the invariant |
| BarrierAnswers.NobodyPassesEarly | src/myth_sync_func.h:852-878 | counting arrivals and returns as the schedule shows them, by whichever way a participant leaves: nobody has returned more often than everybody has arrived, nobody has arrived twice more often than another, and who has arrived and not returned is inside |
| BarrierAnswers.CallsComeFirst | src/myth_sync_func.h:852-864 | each call arrives once, by its compare-and-swap, before it can return |
| BarrierAnswers.OneSerialPerGeneration | src/myth_sync_func.h:865-876 | of the returns that the schedule shows exactly one in each round is serial: the k-th serial return is the k-th return of its thread, and when nobody is inside all have returned as often as there were serial returns |
| BarrierAnswers.ArrivesAlone | src/myth_sync_func.h:852-864 | a participant left alone arrives in at most three steps |
| BarrierAnswers.SleepsAlone | src/myth_sleep_queue_func.h:236-246 | and then comes to sleep at the top of the stack |
| BarrierAnswers.LeadingRunsOut | src/myth_sync_func.h:865-872 | each undisturbed step of the last arriver is one less of a bounded number, and the last is its return |
| Barrier.NoExcess | src/myth_sync_func.h:853-860 | the exit for excess threads is unreachable |
| Barrier.NoAba | src/myth_sleep_queue_func.h:228-236 | when the pop of the leader succeeds, the successor it read earlier is still the right one |
| Barrier.LeaderCollectsAllOthers | src/myth_sync_func.h:335-411 | the last arriver pops exactly the n - 1 other participants of its generation, each once |
| Barrier.PopSpinIsServed | src/myth_sync_func.h:374-387 | its spin on an empty stack waits for a participant of its generation that is about to push itself |
| JoinCounter.CalcBits | src/myth_sync_func.h:895-902 | the least number of bits that holds its argument |
| JoinCounter.NextKeeps | src/myth_sync_func.h:929-971 | every step of wait and decrement, of dispatching and of leaving a worker keeps the invariant |
| JoinCounter.FieldsNeverMix | src/myth_sync_func.h:929-971 | the fields of the word are the decrements done, at most n, and the seats reserved: decrements never carry into the waiters |
| JoinCounter.NoEarlyReturn | src/myth_sync_func.h:929-945 | no step from any point of wait returns before n decrements; the assertion after a wakeup holds; the exit for excess decrements needs n decrements done |
| JoinCounter.WakesEachOnce | src/myth_sync_func.h:962-967 | the last decrement dequeues only registered waiters, none of them twice, and asks for as many as there are |
| JoinCounter.WakesThemAll | src/myth_sync_func.h:962-967 | when it is through, every registered waiter has been woken and the queue is empty |
| JoinCounter.SleepersHaveHope | src/myth_sync_func.h:929-971 | who sleeps still awaits a decrement, or the last one is collecting the sleepers |
| JoinCounter.DequeueSpinIsServed | src/myth_sync_func.h:258-274 | the dequeue spin waits for a thread that has reserved its seat on another worker and whose next step enters the queue |
| JoinCounterAnswers.DecsArePassed | src/myth_sync_func.h:947-971 | the calls of dec that a run shows to have passed are what the word says, at most n |
| JoinCounterAnswers.EveryAnswerIsRight | src/myth_sync_func.h:929-971 | whatever way it goes, wait returns only when n calls of dec have passed; dec passes when fewer have, exits only when n have, and the last goes on to wake |
| JoinCounterAnswers.WaitAlone | src/myth_sync_func.h:929-945 | wait left alone returns when all decrements are done and else sleeps in the queue |
| JoinCounterAnswers.DecAlone | src/myth_sync_func.h:947-969 | dec left alone does one decrement |
| JoinCounterAnswers.WakingRunsOut | src/myth_sync_func.h:258-297 | each step of the waking is one less of a bounded number, and the last returns |
| Felock.NextKeeps | src/myth_sync_func.h:1006-1028 | every step of lock, unlock, wait_and_lock and mark_and_signal, those of the mutex and of the callbacks of the condition included, keeps the invariant |
| FelockTheorems.EveryRunIsAMutexRun | src/myth_sync_func.h:1006-1028 | all that lock, unlock, the waits and the callbacks do to the mutex is a run of the Mutex machine, whose theorems hold of it |
| FelockAnswers.EveryPointServesTheCall | src/myth_sync_func.h:1006-1028 | the status is that of the last mark, and each thread is in or behind the call that it made last, with the status that the call names |
| FelockTheorems.ReturnsWithStatus | src/myth_sync_func.h:1014-1021 | wait_and_lock returns to the one owner of the mutex, with the status that its last call asked for, which is that of the last mark |
| FelockTheorems.NoMissedSignal | src/myth_sync_func.h:61-80 | a waiter is in the queue of the status that its last call asked for before another thread can own the mutex |
| FelockTheorems.NeverRefused | src/myth_sync_func.h:787-790 | the switch of a condition wait finds the callback of its worker free, and the callback and the signaller hold the mutex they unlock |
| FelockTheorems.FreeMeansContended | src/myth_sync_func.h:1014-1028 | if every wait_and_lock section ends in mark_and_signal: a free mutex with sleepers for the present status has a thread contending for that status, awake or with a seat in the mutex; in the latter case some woken thread is to retry the mutex |
| FelockTheorems.AwakeIff | src/myth_sync_func.h:520-551 | the exact condition for that contender to be awake in every reachable state: fewer than three threads, or three that end every wait_and_lock in mark_and_signal |
| FelockRuns.LeavingBehindRun | src/myth_sync_func.h:1023-1028 | with four threads a disciplined run, on one worker, ends with the mutex free, a sleeper for the present status, and the one contender for it asleep in the queue of the mutex behind a plain locker |
| FelockTheorems.StrandsIff | src/myth_sync_func.h:1010-1021 | the exact condition for sleepers never to be left with their status and nobody to wake them: every wait_and_lock ends in mark_and_signal, or there are fewer than three threads |
| FelockRuns.StrandingRun | src/myth_sync_func.h:1010-1012 | with three threads one plain unlock after wait_and_lock leaves one asleep with its status and all others idle |
| Lifecycle.NextKeeps | src/myth_sched_func.h:535-699 | every step of a thread's exit and of the one join, tryjoin or detach of it keeps the invariant |
| Lifecycle.FreedExactlyOnce | src/myth_sched_func.h:1091-1181 | the descriptor is freed at most once and exactly once when both sides are through; so is the stack, and only after control has left it |
| Lifecycle.JoinerResumesOnce | src/myth_sched_func.h:1208-1233 | a sleeping joiner is resumed once, after its context was saved, and already sees FREE_READY2 |
| Lifecycle.JoinReturnsExitValue | src/myth_sched_func.h:491-510 | a finished join returns the value that the thread exited with |
| Lifecycle.WaiterIsBlocked | src/myth_sched_func.h:1208-1220 | the waiter that the exiter finds is marked blocked, as it asserts |
| Lifecycle.StepsRunOut | src/myth_sched_func.h:535-699 | each step of the exit or of a call uses up one of a bounded number |
| Lifecycle.OnlyFinishedStatesStop | src/myth_sched_func.h:535-699 | no deadlock: when nothing can go on, the thread is gone and the caller is through |
| Lifecycle.StaleOnlyAfterFastDetach | src/myth_sched_func.h:854-873 | only the unlocked test of detach lets anybody touch the descriptor after it was freed |
| Lifecycle.FastDetachIsUnsafeIffLocked | src/myth_sched_func.h:856-860 | where that test succeeds, the exiter can still store into the freed descriptor if and only if it holds the descriptor's lock |
| Lifecycle.FastDetachDoesRace | src/myth_sched_func.h:1164-1181 | a run from the start in which it does: the status is stored before the lock is released |
| LifecycleAnswers.EveryPointServesTheCall | src/myth_sched_func.h:535-699 | the caller is in or behind the call that it made last: only join and tryjoin end with the result taken, only tryjoin is refused |
| LifecycleAnswers.EveryAnswerIsRight | src/myth_sched_func.h:535-699 | tryjoin is refused, a join sleeps and a detach leaves the thread detached only while the thread has not begun to exit; else they dispose of the finished thread |
| LifecycleAnswers.ExitsWhenTold | src/myth_sched_func.h:491-510 | the thread leaves its function exactly by its exit |
| SchedulerSteps.NextKeeps | src/myth_sched_func.h:326-699 | every step of create, yield, block, wake, join, exit, the scheduler loop, stealing and the main thread's way home keeps the invariant |
| SchedulerTheorems.OnePlace | src/myth_sched_func.h:326-675 | every live thread is in exactly one place: one position of one run queue, sleep queue or join slot, in one worker's hand, or on one worker |
| SchedulerTheorems.NextServesOneList | src/myth_sleep_queue_func.h:84-111 | the one field next of each thread serves one list at a time: a single value per thread is right for all sleep queues and all private lists of wakers at once |
| SchedulerTheorems.NoSharedStack | src/myth_sched_func.h:955-1029 | no stack is run by two workers, and no worker runs on two |
| SchedulerTheorems.VisibleMeansSaved | src/myth_sync_func.h:61-153 | a thread that other workers can reach has its context saved; in run queue w its env is w and it is ready; in a join slot it is blocked |
| SchedulerTheorems.ThisThreadRuns | src/myth_worker_func.h:606-669 | between switches this_thread of a worker is the thread that runs, its env is this worker and it is ready |
| SchedulerTheorems.AssertionsHold | src/myth_sched_func.h:1200-1220 | the assertions of cleanup, of stealing and of the scheduler loop never fail, and no context is ever saved into another thread's descriptor |
| SchedulerTheorems.JoinersHaveATarget | src/myth_sched_func.h:512-532 | who waits in a join slot waits alone, for a thread that has not read the slot yet |
| SchedulerTheorems.NobodyLost | src/myth_sched_func.h:326-699 | a thread once created has exited or is still in its place |
| SchedulerQueues.EveryQueueIsADeque | src/myth_sched_func.h:955-963 | in every run each run queue is the run of a sequential deque: what is pushed, put and passed goes in, and what is popped and stolen comes out, at the ends of the source; only its own worker works at the top, others take from the base or pass to it, as module RunQueueTso takes for granted |
| SchedulerQueues.HandToHand | src/myth_sched_func.h:955-1029 | what goes into a queue was in the hand of the worker that makes the step, and what comes out is then in its hand |
| SchedulerAnswers.IsWhereItAsked | src/myth_sync_func.h:61-153 | a thread in a sleep queue or a join slot is in the one that it last asked for, and only who has exited is gone |
| SchedulerSteps.ExitPopKeeps | src/myth_sched_func.h:1245-1264 | cleanup may use the popped thread without setting its env |
| SchedulerSteps.CreateCbKeeps | src/myth_sched_func.h:326-350 | the callback of create pushes this_thread, which is still the creator |
| SchedulerSteps.PassTryKeeps | src/myth_worker_func.h:364-375 | a thread that is passed on has the env of the queue it is offered to |
| CreateJoin.EachIndexOnce | src/myth_sched_func.h:760-832 | under every schedule, when the call returns each index below n has been called exactly once, after 3n - 2 steps |
| CreateJoin.SlotsHold | src/myth_sched_func.h:778-786 | then each 8-byte slot that overlaps no other holds its own value, and no byte outside the slots has changed |
| CreateJoin.LikeTheLoopIff | include/myth/myth.h:507-513 | the call is equivalent to the documented loop, under every schedule and for all functions, if and only if the result stride is at least 8 bytes or there are not two threads |
| CreateJoin.NeverStuck | src/myth_sched_func.h:760-808 | in the middle of any schedule no index has been called twice and some thread can go on |
| CreateJoin.ReturnsIffNonNegative | src/myth_sched_func.h:760-832 | the call can return if and only if the number of threads is not negative |
| SizeClass.ClassFits | src/myth_misc_func.h:110-122 | from 8 bytes to 1 GiB the class is the least that holds the request and wastes less than half of the block |
| SizeClass.ServedIff | src/myth_misc_func.h:108-122 | a request has a free list and a large enough block if and only if it is at most 1 GiB |
| Allocator.ClassHolds | src/myth_misc_func.h:201-214 | the class of any request up to 1 GiB is the least, from 8 bytes up, whose blocks hold it |
| AllocatorHeap.AddKeeps | src/myth_misc_func.h:217-240 | carving new memory keeps all blocks disjoint and the mapped bytes covered |
| AllocatorHeap.PushKeeps | src/myth_misc_func.h:84-88 | freeing keeps every block in exactly one place |
| AllocatorHeap.PopKeeps | src/myth_misc_func.h:90-98 | so does allocating from a list |
| AllocatorHeap.EveryByteIsAccounted | src/myth_misc_func.h:201-267 | each byte from mmap is in exactly one block, which is live or in exactly one list of its class |
| Allocator.Store.PushFree | src/myth_misc_func.h:84-88 | the list linked through the free blocks gains a first block; live data are untouched |
| Allocator.Store.PopFree | src/myth_misc_func.h:90-98 | the first block of the list, or 0 |
| Allocator.Store.CarveRest | src/myth_misc_func.h:220-231 | the loop over a page: all of it is carved, into the list |
| Allocator.Store.FlMalloc | src/myth_misc_func.h:201-247 | a block of the request's class, large enough for it, that was not live; other blocks and live data are unchanged; the bytes mapped are exactly accounted for |
| Allocator.Store.FlFree | src/myth_misc_func.h:249-267 | any worker may free a block; it goes to that worker's list of the block's class |
| Allocator.Store.FlRealloc | src/myth_misc_func.h:269-278 | the common prefix is kept and the old block is free; all other blocks, and the data of the live ones, stay |
| Allocator.Store.NewStack | src/myth_sched_func.h:159-178 | a custom stack lies in its block with its size stored above it: the least multiple of 4096 that holds the size asked for; other blocks and live data stay |
| Allocator.Store.FreeStack | src/myth_sched_func.h:289-314 | that word leads back to the start and the class of the block; other live data stay |
| Allocator.OtherStacksStay | src/myth_sched_func.h:159-178 | the size word above a stack outlives every call that keeps the data of its block: allocating, freeing, reallocating and making or freeing other stacks |
| Allocator.Store.UserWrite | src/myth_misc_func.h:201-247 | a write inside a live block leaves every free list, every other block and, below a stack, the word above the stack alone |
| Tls.WalkIs | src/myth_tls_func.h:186-204 | the node of depth d on the way to a key hangs under the key's leading bits: no node is on the way to keys with others |
| Tls.WriteLookup | src/myth_tls_func.h:237-240 | distinct keys never share an entry |
| Tls.Tree.constructor | src/myth_tls_func.h:93-98 | all keys read 0 |
| Tls.Tree.Get | src/myth_tls_func.h:186-204 | the value of the key in the map the tree stands for; 0 when out of range |
| Tls.Tree.NodeAlloc | src/myth_tls_func.h:24-47 | the next bytes of the buffer while they fit, otherwise malloc |
| Tls.Tree.Set | src/myth_tls_func.h:206-241 | the map with one key replaced, or an error out of range; nodes never overlap nor leave the buffer, and the first spine fills the buffer exactly |
| TlsKeys.KeyAllocator.constructor | src/myth_tls_func.h:244-251 | no key is in use |
| TlsKeys.KeyAllocator.Alloc | src/myth_tls_func.h:267-285 | a key that was not in use, or failure if and only if all are |
| TlsKeys.KeyAllocator.Dealloc | src/myth_tls_func.h:288-307 | frees a key exactly if it is in use |
| SleepQueue.Queue.Enq | src/myth_sleep_queue_func.h:84-97 | at the end of the linked list |
| SleepQueue.Queue.Deq | src/myth_sleep_queue_func.h:99-111 | the head of the linked list, or null |
| SleepQueue.Queue.Collect | src/myth_sync_func.h:258-274 | n sleepers leave the queue in order and are linked anew through the same fields; for those not yet there it polls until they have entered, whoever enters when |
| SleepQueue.Queue.Await | src/myth_sync_func.h:267-270 | the spin of one dequeue: the first sleeper of those that were or come |
| SleepQueue.PushAll | src/myth_sync_func.h:289-296 | the private list is pushed in order, each link read before its thread is given away |
| InternalBarrier.NextKeeps | src/myth_internal_barrier.c:23-43 | every critical section and every spurious wakeup keeps the invariant |
| InternalBarrier.NoWaiterMissesItsPhase | src/myth_internal_barrier.c:32-36 | a waiter whose phase is complete is awake and still finds its counter at n, however late it comes |
| InternalBarrier.NobodyRunsAhead | src/myth_internal_barrier.c:23-43 | nobody returns before all have entered, and nobody is two phases ahead |
| InternalBarrier.EntryAssertionsHold | src/myth_internal_barrier.c:28-31 | the assertions on entry hold |
| InternalBarrier.NobodyPassesEarly | src/myth_internal_barrier.c:23-43 | counting entries and returns as the acts show them: nobody has returned more often than everybody has entered, and who has entered and not returned is waiting |
| LazyMutex.ResetExactlyOnce | src/myth_wrap_pthread.c:781-799 | the contents are reset exactly once, before the first operation and never after; the assertion holds; who spins waits for a thread that can go on |
| LazyMutex.ReturnsAfterOperating | src/myth_wrap_pthread.c:781-799 | whoever returns has operated, once, on contents that were reset before |
| LazyMutex.StepsRunOut | src/myth_wrap_pthread.c:781-799 | every step of a call is one less of five |

## Left out

- RunQueueTsoTheorems.LockedNullMeansEmpty: says nothing of the NULLs of the quick checks, because base and top may be tentative there.
- RunQueueTsoTheorems.HintIsTheBase: does not cover take, trypass and put, which leave the hint cache alone in the code.
- HintCache.ReadsOnePublication: needs fewer than 2^31 publications during the last round; HintCache.SoundIff says that this is exact.
- CreateJoin.LikeTheLoopIff: addresses are unbounded, and of the strided arrays only the results are modelled; functions write nothing else.
- FelockTheorems.FreeMeansContended: needs every wait_and_lock section to end in mark_and_signal; without that StrandsIff applies.
- CreateJoin.ReturnsIffNonNegative: says that some schedule returns and, with NeverStuck and the exact number of steps, that every one does; fairness between threads is not modelled.
- JoinCounter.FieldsNeverMix: the word is unbounded; the number of waiters that fit above the decrements in 64 bits is not limited.
- Allocator.Store.FlMalloc: mmap always succeeds and its answer is a parameter.
- Tls.Tree.Set: malloc always succeeds and its answers are a parameter.
- The hint cache runs on one memory: stores reach it in program order, as on x86-TSO, and the lock is released after them.
- Mutex, barrier, join counter, full/empty lock and life cycle are modelled with sequentially consistent memory: their shared words are changed by compare-and-swap or under a lock.
- Stacks of the default size (`src/myth_sched_func.h:179-230`), which come from a list of their own with tag 0.
- TLS destructor and destroy walks (`src/myth_tls_func.h:103-176`): they stop at the first missing child, so they cover no whole tree.
- The key allocator under concurrent use (`src/myth_tls_func.h:267-307`): its pop compares pointers only.
- Wakeups of `myth_wsapi_runqueue_push` and `pass` (`src/myth_if_native.c:886-894`), which do not set env, and the stealing that gives a main thread back (`src/myth_worker_func.h:460-483`): they are not part of the scheduler model.
- The status of the main thread's descriptor, which `src/myth_worker_func.h:332-362` leaves as allocated; the model starts with it ready.
- Thread descriptors are not reused in the scheduler model; their release is the matter of module Lifecycle.
- uncond and once (`src/myth_sync_func.h:413-441`, `src/myth_sync_func.h:1044-1100`): one slot and one flag, which would add only easy members.
- Condition broadcast, reader-writer locks and cond_timedwait (stubs), timeouts, cancellation, profiling, logging, the eco mode and the experimental scheduler.
- Context-switch assembly and stack layout: a switch is saving one context, entering the next, and then running the callback.
- Fairness and wall-clock progress: progress is stated as a thread that can go on, or as a bound on the steps left.
