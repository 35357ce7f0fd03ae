# Verification of the synchronisation core of pthreads-win32

tint2 ships a copy of pthreads-win32, the POSIX threads library for Windows, under
`libraries/pthreads-win32`. Its synchronisation objects are a stack of concurrent algorithms, each
built on the ones below it. This project models them in Dafny and proves what they promise.

| layer | files |
|---|---|
| sums over threads, runs of a step function | `Counting.dfy`, `Runs.dfy` |
| MCS queue lock | `McsLock.dfy`, `McsInvariant.dfy`, `McsTheorems.dfy`, `McsCalls.dfy` |
| mutex: normal, recursive, error-checking | `Mutex.dfy`, `MutexCalls.dfy` |
| robust mutexes, and the per-thread list of them | `RobustMutex.dfy`, `RobustTheorems.dfy`, `RobustCalls.dfy`, `RobustList.dfy` |
| counting semaphore | `Semaphore.dfy`, `SemaphoreCalls.dfy` |
| condition variable (algorithm 9 of Terekhov and Thomas) | `CondVar.dfy`, `CondVarInvariant.dfy`, `CondVarTheorems.dfy`, `CondVarCalls.dfy` |
| read/write lock | `RwLock.dfy`, `RwLockInvariant.dfy`, `RwLockTheorems.dfy`, `RwLockCalls.dfy` |
| barrier | `Barrier.dfy`, `BarrierCalls.dfy` |
| thread-specific data: the lattice of chains, the destructor loop | `TsdLattice.dfy`, `TsdExit.dfy` |
| thread structs: the reuse pool, join, detach and exit | `ReusePool.dfy`, `ThreadLife.dfy`, `ThreadCalls.dfy` |

## How the code is modelled

**Protocols.** An object used by many threads at once is a state machine over a sequence of program
points, one for each thread, with no bound on their number. `Step(s, a)` is one interlocked
operation, one kernel wait, or one section guarded by a lock whose own correctness is proved a layer
below; `None` means that the action is not enabled. A state is `Reachable` when some finite run from
the initial state leads to it, and results about reachable states therefore hold after every
interleaving. Each protocol has one inductive invariant `Inv`, kept by every step. Progress results say
that some step is enabled; for the lock, the condition variable, the read/write lock and the barrier
they also bound the steps that can be taken without new calls, and for the mutex those until it is
taken.

**Calls.** What each function of the interface promises its caller is stated by its name and arguments, over
any run that begins with the call and goes no further than its return (`While`, in `Runs.dfy`), with any
steps of other threads in between: what the call returns or leaves its thread with, and what its own steps
have done. The latter is noted by an observer of the run (`Fold`), who looks at the object before and after each
step of the calling thread and not at program points, but for a few notes on waits. The `CallOutcome` of
each module and its companions say this; they rest on the invariants, and say besides that a call does
not wait where it must not.

**Structs.** A struct that the C code updates in place under a lock is also a class with the same
fields, and its guarded sections are methods. Those of the semaphore, the condition variable and a
writer of the read/write lock are tied by their `ensures` to the functions that the protocol's steps
use; those of the mutex, the barrier and a reader are specified by what they mean, the holder and
depth, the round under way, the readers inside. The gate of the condition variable is a semaphore
with the two counts and the guarded sections of `Semaphore.dfy`.

**Pointer structures.** The thread-specific data lattice, the list of robust mutexes and the pool of
thread structs are objects linked on the heap, with the links that the C structs have. A ghost
sequence says what a chain holds; the methods prove that the links agree with it in both directions,
and what every other chain keeps. The loop that runs the destructors of thread-specific data works on that
heap, with arbitrary operations of the destructors and of other threads in between.

**Kernel objects** (events, kernel semaphores, TLS slots, interlocked operations) are atomic abstract
values. A cancellable wait either takes one permit and returns, or takes none and fails.

## Where the code does less than its comments say

* *Cancelling a waiter at the gate of a condition variable.* `sem_wait`, when it is cancelled, takes a
  permit that was posted meanwhile and is cancelled all the same (sem_wait.c:57-66). At the gate semaphore
  (pthread_cond_wait.c:384-388, "this is OK") nobody then posts that permit again. The gate is lost by a
  step if and only if it is the cleanup of a cancelled thread that finds the count of the gate semaphore
  not zero and a permit in its kernel semaphore (`GateLostIff`, and `GateExclusiveIff` over whole runs).
  From then on no waiter can register and no signal can be counted (`LostGateStaysShut`). The permit was
  meant for another waiter at the gate, who is left there (`LostPermitWasAnothers`);
  `CancelCanLoseTheGate` is a run with three threads.
* *Cancelling a plain `sem_wait`.* The test for a destroyed semaphore in its cleanup (sem_wait.c:63)
  reads the first word of the struct, which is the count. With the count at zero the cleanup does
  nothing, and the semaphore goes on counting a waiter that has left. `CancelKeepsExactIff` is the exact
  condition, `CancelledWaitHidesAPermit` a run.
* *Unrecoverable robust mutexes.* A thread that looked at the state before the mutex was given up can
  still lock it afterwards and is told nothing (pthread_mutex_lock.c:152-168). A thread that has not
  looked yet never can, for as long as the mutex stays unrecoverable (`UnrecoverableIsNeverLockedLate`,
  and `UnrecoverableLockedIff` for both directions); `UnrecoverableCanBeLocked` is a run with three
  threads. Nor is the state final: it ends when such a late owner dies (`UnrecoverableEndsOnlyByDeath`),
  whose mark overwrites it, and the mutex can then be inherited and made consistent again
  (`UnrecoverableCanBeRestored`, four threads).
* *Destroying a barrier that threads are leaving.* The comment at pthread_barrier_wait.c:81-85 allows for
  it; the code does not, since the lock stays with the barrier until the last thread is out
  (`DestroyOnlyWhenEmpty`).
* *The pool of thread structs* is called a stack (ptw32_reuse.c:53, 73, 108); it is a queue
  (`PoolIsFifo`). `ptw32_threadDestroy` says that a struct in it is in state PThreadStateInitial
  (ptw32_threadDestroy.c:56-57); it is in PThreadStateReuse.

## Model

| member | source | states |
|---|---|---|
| `McsTheorems.HolderIsHead` | libraries/pthreads-win32/ptw32_MCS_lock.c:157-220 | At most one thread holds the lock, and its node heads the queue ordered by the tail exchange. |
| `McsTheorems.LinksFollowOrder` | libraries/pthreads-win32/ptw32_MCS_lock.c:167-176 | Every written next link points to the node that followed in the tail exchange; the tail is the last node. |
| `McsTheorems.RefinesFifoLock` | libraries/pthreads-win32/ptw32_MCS_lock.c:157-278 | Every step of acquire, try_acquire, release and node_transfer is a move of an abstract first-in-first-out lock made by the acting thread with its own node: it joins the end, leaves the front, or puts a new node in front for its old one; or none. |
| `McsTheorems.OnlyHolderLeaves` | libraries/pthreads-win32/ptw32_MCS_lock.c:191-220 | Only the thread that holds the lock takes the head off the queue or replaces it. |
| `McsTheorems.TryAcquireIff` | libraries/pthreads-win32/ptw32_MCS_lock.c:228-240 | try_acquire gets the lock if and only if the queue is empty. |
| `McsTheorems.WaitReturnsOnlyWhenGranted` | libraries/pthreads-win32/ptw32_MCS_lock.c:122-144 | A thread leaves flag_wait with the lock only when its node has come to the head of the queue. |
| `McsTheorems.EventAliveWhenSignalled` | libraries/pthreads-win32/ptw32_MCS_lock.c:102-144 | flag_set signals only the live event of a sleeping waiter, neither signalled before nor closed. |
| `McsTheorems.RereadFindsSuccessor` | libraries/pthreads-win32/ptw32_MCS_lock.c:212-219 | After waiting for its successor a releasing thread finds it linked: the pointer it passes the lock through is never null. |
| `McsTheorems.SomeStepEnabled` | libraries/pthreads-win32/ptw32_MCS_lock.c:102-220 | Unless the head simply holds the lock, some step of the hand-over is enabled: no wakeup is lost. |
| `McsTheorems.LibraryStepsRunOut` | libraries/pthreads-win32/ptw32_MCS_lock.c:102-278 | Steps inside the library cannot go on for ever without new calls. |
| `McsCalls.CallOutcome` | libraries/pthreads-win32/ptw32_MCS_lock.c:157-278 | Over any run from a call to its return: acquire has joined the queue once, with its own node, and holds the lock; try_acquire has if and only if the queue was empty; release has taken one node off the head and leaves its thread without one; node_transfer has put the new node at the head, once, and holds the lock with it. |
| `Mutex.MutualExclusion` | libraries/pthreads-win32/pthread_mutex_lock.c:78-95 | lock_idx is non-zero if and only if a thread owns the mutex, and then only one does. |
| `Mutex.OwnerReadIsAccurate` | libraries/pthreads-win32/pthread_mutex_lock.c:110-121 | A thread that reads ownerThread without a guard finds itself there if and only if it holds the mutex. |
| `Mutex.LastUnlockFrees` | libraries/pthreads-win32/pthread_mutex_unlock.c:87-103 | recursive_count is the holder's nesting depth, and only the matching last unlock frees the mutex. |
| `Mutex.ForeignUnlockRefused` | libraries/pthreads-win32/pthread_mutex_unlock.c:105-108 | An unlock by a thread that does not hold the mutex is answered EPERM and changes nothing else. |
| `Mutex.SleeperNotStranded` | libraries/pthreads-win32/pthread_mutex_unlock.c:69-84 | While the mutex is free and a thread sleeps on it, a step towards waking one is enabled, whatever marks were overwritten, events coalesced or waits timed out. |
| `Mutex.ProgressApproaches` | libraries/pthreads-win32/pthread_mutex_timedlock.c:145-153 | Each such step takes the free mutex or comes nearer to taking it. |
| `Mutex.FreeMutexIsTaken` | libraries/pthreads-win32/pthread_mutex_lock.c:84-93 | A free mutex is taken after a bounded number of such steps, in any order. |
| `Mutex.RefinesReentrantLock` | libraries/pthreads-win32/pthread_mutex_lock.c:96-141 | Every step is a step of an abstract reentrant lock, taken by the same thread. |
| `MutexCalls.CallOutcome` | libraries/pthreads-win32/pthread_mutex_lock.c:76-141 | Over any run from a call to its return: lock gives the mutex to its caller, once more if it is recursive and the caller's, EDEADLK to the holder of an errorcheck mutex, ETIMEDOUT only to a timed call that gave up; trylock succeeds if and only if the mutex was free, or recursive and the caller's; unlock if and only if the caller had it. The depth afterwards agrees with the answer. |
| `MutexCalls.OnlyLockWaits` | libraries/pthreads-win32/pthread_mutex_timedlock.c:136-173 | Only a lock waits, only for the event, only when its caller does not have the mutex, and a timed one can then give up; trylock and unlock come nearer to their end with each step. |
| `MutexCalls.LocksLessUnlocks` | libraries/pthreads-win32/pthread_mutex_lock.c:96-121 | Over any run from the start: between its calls a thread has the mutex as deeply as its successful locks outnumber its successful unlocks, counted by what the calls returned; while they do, the mutex is locked and that thread's. |
| `Mutex.MutexObject.TryLock` | libraries/pthreads-win32/pthread_mutex_trylock.c:69-95 | The new holder and depth, or EBUSY and nothing changed, in every case of kind, holder and caller. |
| `Mutex.MutexObject.Unlock` | libraries/pthreads-win32/pthread_mutex_unlock.c:63-110 | The new holder and depth, the event set only for a marked mutex, and EPERM with nothing changed for a stranger. |
| `RobustTheorems.MutualExclusion` | libraries/pthreads-win32/pthread_mutex_lock.c:159-265 | No two threads have the same robust mutex, whichever owners died before. |
| `RobustTheorems.ListedIffOwner` | libraries/pthreads-win32/pthread_mutex_consistent.c:102-162 | A mutex is on a running thread's list, once, if and only if the thread reads itself as its owner; a dead thread's list is empty. |
| `RobustTheorems.OrphanIsLocked` | libraries/pthreads-win32/pthread_win32_attach_detach_np.c:224-237 | A mutex whose owner died is nobody's, and stays locked. |
| `RobustTheorems.NextOwnerInherits` | libraries/pthreads-win32/pthread_mutex_consistent.c:77-100 | After an owner's death the mutex stays as it was left until one thread inherits it, and no thread gets it otherwise. |
| `RobustTheorems.FirstOwnerAfterDeathIsTold` | libraries/pthreads-win32/pthread_mutex_lock.c:166-199 | Over any run after an owner's death, the first thread that comes to have the mutex is told EOWNERDEAD. |
| `RobustTheorems.InheritedOncePerDeath` | libraries/pthreads-win32/pthread_mutex_consistent.c:83-97 | Deaths of owners and inheritances balance: each death is told to one thread, and to no more. |
| `RobustTheorems.ExitTerminates` | libraries/pthreads-win32/pthread_win32_attach_detach_np.c:224-237 | An exiting thread is never held up, each of its steps brings it nearer the end, and no other thread touches its list. |
| `RobustTheorems.ExitMarksEveryHeldMutex` | libraries/pthreads-win32/pthread_win32_attach_detach_np.c:224-237 | Whatever other threads do meanwhile, a thread that has exited has itself marked each mutex it had exactly once, set its event exactly once, and done neither to any other. |
| `RobustTheorems.MarksAreDeaths` | libraries/pthreads-win32/pthread_win32_attach_detach_np.c:228-230 | Over any run, each such mark is a death more, which `InheritedOncePerDeath` balances with one thread told. |
| `RobustTheorems.ExitStepsChangeOnlyHeld` | libraries/pthreads-win32/pthread_mutex_consistent.c:140-162 | No step of the exit loop changes a mutex that the thread neither had nor has just marked. |
| `RobustTheorems.UndisturbedExit` | libraries/pthreads-win32/pthread_win32_attach_detach_np.c:224-237 | Left to itself the loop takes three steps for each mutex on the list and ends, with all of them marked and signalled and no other changed. |
| `RobustTheorems.InconsistentEndsOnlyBy` | libraries/pthreads-win32/pthread_mutex_unlock.c:121-125 | An inherited mutex stays inconsistent until it is made consistent, or unlocked by the thread that has it and so made unrecoverable, or that thread dies. |
| `RobustTheorems.CallBegunLateIsRefused` | libraries/pthreads-win32/pthread_mutex_trylock.c:106-112 | Over any run in which the mutex stays unrecoverable, a call that had not looked at its state yet has changed nothing of its thread, or has returned ENOTRECOVERABLE. |
| `RobustTheorems.UnrecoverableIsNeverLockedLate` | libraries/pthreads-win32/pthread_mutex_lock.c:152-191 | Over any run in which the mutex stays unrecoverable, a thread that does not have it and is not past its look never comes to have it, however often it calls. |
| `RobustTheorems.UnrecoverableLockedIff` | libraries/pthreads-win32/pthread_mutex_lock.c:152-191 | When an unrecoverable mutex is free, there is a run that keeps it unrecoverable and gives it to a thread if and only if that thread is past its look at the state. |
| `RobustTheorems.UnrecoverableEndsOnlyByDeath` | libraries/pthreads-win32/pthread_win32_attach_detach_np.c:228-230 | Over any run, the state is left only if a dying thread that has the mutex all the same marks it in that run. |
| `RobustTheorems.UnrecoverableOnlyIfGivenUp` | libraries/pthreads-win32/pthread_mutex_unlock.c:121-125 | A mutex becomes unrecoverable only if the thread that has it unlocks it while it is inconsistent. |
| `RobustTheorems.UnrecoverableCanBeRestored` | libraries/pthreads-win32/pthread_mutex_consistent.c:179-186 | A run in which an unrecoverable mutex is made consistent. |
| `RobustTheorems.UnrecoverableCanBeLocked` | libraries/pthreads-win32/pthread_mutex_lock.c:152-168 | A run in which that happens. |
| `RobustCalls.CallOutcome` | libraries/pthreads-win32/pthread_mutex_trylock.c:96-151 | Over any run from a call to its return: success and EOWNERDEAD mean that the caller has the mutex, at the head of its list or once more if recursive; any other answer leaves its list as it was. EOWNERDEAD goes exactly to the caller that inherited, EBUSY only to a trylock that met the mutex locked and not orphaned, EDEADLK only to the holder of an errorcheck mutex, ENOTRECOVERABLE only by a mutex met so, with the event passed on; EPERM if and only if unlock's caller does not have it, and only the matching unlock frees it; consistent succeeds if and only if it has itself ended the inconsistent state. |
| `RobustCalls.OnlyLockWaits` | libraries/pthreads-win32/pthread_mutex_lock.c:166-191 | Only a lock waits, only for the event, and only if it met the mutex neither orphaned nor unrecoverable and does not have it (or it is of the normal kind); trylock, unlock and consistent come nearer to their end with each step. |
| `RobustCalls.HolderCanBeToldUnrecoverable` | libraries/pthreads-win32/pthread_mutex_lock.c:152-158 | A thread that has locked an unrecoverable mutex late is told ENOTRECOVERABLE when it locks it again, and has it still. |
| `RobustCalls.EachSetWakesOne` | libraries/pthreads-win32/pthread_mutex_unlock.c:127-165 | Over any run from the start, each setting of the event of a robust mutex lets one sleeper go on and no more, or is still there. |
| `RobustList.Add` | libraries/pthreads-win32/pthread_mutex_consistent.c:114-138 | The mutex comes to the head of its thread's list, linked both ways; no other thread's list changes. |
| `RobustList.Remove` | libraries/pthreads-win32/pthread_mutex_consistent.c:140-162 | The mutex leaves its thread's list from any place, the rest keeps its order and links, and no other list changes. |
| `RobustList.DrainOnExit` | libraries/pthreads-win32/pthread_win32_attach_detach_np.c:224-237 | Every mutex of the list is taken off, marked, and its event set; the list ends empty and other lists are untouched. |
| `RobustList.OffList` | libraries/pthreads-win32/pthread_mutex_consistent.c:102-112 | A mutex that is not a thread's own is not on its list. |
| `Semaphore.PermitsConserved` | libraries/pthreads-win32/sem_post.c:83-118 | max(0, value) plus the kernel count is always the initial count plus posts minus grants, so no more is granted than was supplied. |
| `Semaphore.WaitersAccountedFor` | libraries/pthreads-win32/ptw32_semwait.c:78-124 | Threads inside a wait are the kernel count plus max(0, -value), but for cancelled waits that left without withdrawing. |
| `Semaphore.ValueFits` | libraries/pthreads-win32/sem_post_multiple.c:98-132 | value never passes SEM_VALUE_MAX, nor falls below minus the number of threads and unwithdrawn cancellations. |
| `Semaphore.NoWaiterStranded` | libraries/pthreads-win32/ptw32_semwait.c:94-119 | No thread stays blocked while a permit exists. |
| `Semaphore.WithdrawalCreatesNoPermit` | libraries/pthreads-win32/sem_timedwait.c:55-94 | A wait that failed takes a permit that came meanwhile or gives up its place; it never makes one. |
| `Semaphore.RefinesCountingSemaphore` | libraries/pthreads-win32/sem_timedwait.c:162-224 | Every step is a V(k), a P of a positive count, or nothing, of one abstract counter. |
| `Semaphore.CancelKeepsExactIff` | libraries/pthreads-win32/sem_wait.c:49-80 | The cleanup of a cancelled sem_wait keeps the counters exact if and only if the count is not zero when it runs. |
| `Semaphore.OtherStepsKeepExact` | libraries/pthreads-win32/sem_trywait.c:86-107 | Every other step keeps them exact. |
| `Semaphore.CancelledWaitHidesAPermit` | libraries/pthreads-win32/sem_wait.c:49-80 | A run after which a permit exists, nobody waits, and sem_trywait refuses. |
| `Semaphore.BatchPostIsRepeatedPost` | libraries/pthreads-win32/sem_post_multiple.c:83-132 | An accepted batch post equals that many single posts; it is refused exactly when they would pass the limit. |
| `SemaphoreCalls.CallOutcome` | libraries/pthreads-win32/sem_timedwait.c:99-226 | Over any run from a call to its return: a wait is granted one permit, unless it gave up, which only a timed or cancellable wait that found none free can; trywait is granted one if and only if one is free; a post supplies what it was asked to or nothing; the supply changes by that and no more. A wait that has not returned can go on when a permit is there for it. |
| `SemaphoreCalls.ExactWithoutCancelableWaits` | libraries/pthreads-win32/sem_wait.c:57-66 | After any run without a cancellable wait the counters account for every waiter. |
| `Semaphore.Sem.Decrement` | libraries/pthreads-win32/ptw32_semwait.c:91-94 | The caller must block if and only if no permit is free; otherwise one permit less remains. |
| `Semaphore.Sem.Post` | libraries/pthreads-win32/sem_post.c:94-115 | One permit more, released to a waiter when there is one, or ERANGE at the limit and nothing changed. |
| `Semaphore.Sem.PostMultiple` | libraries/pthreads-win32/sem_post_multiple.c:83-132 | count permits more, as many released as there are waiters, or an error and nothing changed. |
| `Semaphore.Sem.TryWait` | libraries/pthreads-win32/sem_trywait.c:97-104 | Succeeds if and only if a permit is free. |
| `Semaphore.Sem.TimedCleanup` | libraries/pthreads-win32/sem_timedwait.c:61-93 | The second try takes a released permit, or else gives up the place of a waiter. |
| `CondVarTheorems.WaitersAreConserved` | libraries/pthreads-win32/pthread_cond_wait.c:297-326 | Registered waiters are blocked minus gone plus to-unblock in every state outside the middle of a fold, and exactly blocked there. |
| `CondVarTheorems.CountersInRange` | libraries/pthreads-win32/pthread_cond_wait.c:301-326 | No counter is negative, the counts are bounded by the threads, and the departures reach INT_MAX/2 only in the hands of the thread that folds them. |
| `CondVarTheorems.GateExclusiveIff` | libraries/pthreads-win32/pthread_cond_wait.c:385-395 | After any run exactly one of these holds, if and only if no cancelled thread cleaned up in it with the gate semaphore's count not zero and a permit in its kernel: the gate is open, one thread is inside, signals are outstanding, one leaver is about to open it. |
| `CondVarTheorems.GateLostIff` | libraries/pthreads-win32/sem_wait.c:49-80 | A step leaves the gate in none of these ways if and only if it is a cancelled thread's cleanup at those counts. |
| `CondVarTheorems.LostPermitWasAnothers` | libraries/pthreads-win32/sem_wait.c:57-66 | The permit so lost was posted for another thread in the wait, who is left there, unless an earlier cancelled thread had left without withdrawing. |
| `CondVarTheorems.LostGateStaysShut` | libraries/pthreads-win32/pthread_cond_wait.c:384-388 | Once lost, the gate never opens again: in any run no thread is let in and no signal is counted. |
| `CondVarTheorems.CancelCanLoseTheGate` | libraries/pthreads-win32/pthread_cond_wait.c:384-388 | A run of three threads in which that happens, with one of them stranded at the gate. |
| `CondVarTheorems.NoLostWakeup` | libraries/pthreads-win32/pthread_cond_wait.c:291-341 | Permits, signals not yet posted and takers not yet accounted for cover nWaitersToUnblock in every state. |
| `CondVarTheorems.BroadcastCoversEveryWaiter` | libraries/pthreads-win32/pthread_cond_signal.c:92-146 | Once a broadcast is counted every registered waiter without a permit has one of its own, present or about to be posted. |
| `CondVarTheorems.SignalIgnoredIff` | libraries/pthreads-win32/pthread_cond_signal.c:92-138 | A signal does nothing if and only if every registered waiter has been signalled already. |
| `CondVarTheorems.SignalCounts` | libraries/pthreads-win32/pthread_cond_signal.c:92-134 | Otherwise a signal counts one more waiter, and a broadcast all that are registered. |
| `CondVarTheorems.NoStealing` | libraries/pthreads-win32/pthread_cond_wait.c:431-434 | While no timeout or cancellation used up a signal, a permit goes only to a waiter registered before its signal, and no wakeup is spurious. |
| `CondVarTheorems.SpuriousBounded` | libraries/pthreads-win32/pthread_cond_wait.c:297-327 | Wakeups that find no signal never outnumber the timeouts and cancellations that used one up. |
| `CondVarTheorems.DestroyFreesOnlyUnused` | libraries/pthreads-win32/pthread_cond_destroy.c:139-190 | The object is freed if and only if no waiter is registered, and then no thread is inside the gate or the mutex. |
| `CondVarTheorems.NoDeadlock` | libraries/pthreads-win32/pthread_cond_signal.c:110-134 | While the gate is not lost, a thread inside the library that is not waiting for a signal never waits for nothing: some step is enabled. |
| `CondVarTheorems.InternalStepsRunOut` | libraries/pthreads-win32/pthread_cond_wait.c:385-448 | Steps inside the library cannot go on for ever without new calls. |
| `CondVarTheorems.RestingState` | libraries/pthreads-win32/pthread_cond_wait.c:297-341 | When no such step is left, the gate is open, no signal is outstanding, and nobody waits while a permit is there. |
| `CondVarCalls.SignalCallOutcome` | libraries/pthreads-win32/pthread_cond_signal.c:87-146 | Over any run from pthread_cond_broadcast to its return, every registered waiter is signalled after one of its own steps; over any run from pthread_cond_signal to its return, the call counts one signal, or none because every registered waiter was signalled already at one of its steps. Either posts as many permits as it counted signals. |
| `CondVarCalls.WaitCallOutcome` | libraries/pthreads-win32/pthread_cond_wait.c:384-441 | Over any run from a wait to its return: it has registered once and is off the books again, with exactly one permit taken, or none if it gave up or was cancelled at the gate. |
| `CondVarCalls.DestroyCallOutcome` | libraries/pthreads-win32/pthread_cond_destroy.c:139-190 | Over any run from a destroy to its return with EBUSY: at one of its own steps a waiter was registered or another thread had the unblock mutex. |
| `CondVar.CondVarObject.Retract` | libraries/pthreads-win32/pthread_cond_wait.c:297-301 | One waiter less as the counters tell it, whether or not a signal was left; the caller must open the gate if and only if it used up the last signal, and fold exactly at INT_MAX/2. |
| `CondVar.CondVarObject.CountSignals` | libraries/pthreads-win32/pthread_cond_signal.c:92-138 | Conservation across all three branches of counting signals, and when the gate must be closed. |
| `RwLockTheorems.WriterExcludesAll` | libraries/pthreads-win32/pthread_rwlock_wrlock.c:76-132 | While a thread writes nobody reads and nobody else writes. |
| `RwLockTheorems.UnguardedReadClassifies` | libraries/pthreads-win32/pthread_rwlock_unlock.c:68-90 | The unguarded read in unlock sends every reader and every writer the right way. |
| `RwLockTheorems.CountersCountReaders` | libraries/pthreads-win32/pthread_rwlock_wrlock.c:87-124 | Active readers are shared minus completed, or minus completed while a writer waits; all counters stay in range. |
| `RwLockTheorems.LimitIsFoldedAway` | libraries/pthreads-win32/pthread_rwlock_rdlock.c:81-99 | The count reaches INT_MAX only in the hands of the reader that folds it, and leaves it as the number of readers. |
| `RwLockTheorems.AwaitedReadersOnlyLeave` | libraries/pthreads-win32/pthread_rwlock_wrlock.c:95-113 | While a writer waits no step lets a reader in, and the completed count moves only with a reader's unlock. |
| `RwLockTheorems.NoReaderAdmittedWhileWriterWaits` | libraries/pthreads-win32/pthread_rwlock_timedwrlock.c:99-119 | The same over whole runs: the readers left are those found inside minus the unlocks made. |
| `RwLockTheorems.LastReaderSignals` | libraries/pthreads-win32/pthread_rwlock_unlock.c:76-79 | A reader signals if and only if a writer waits and it was the last reader inside. |
| `RwLockTheorems.SleepingWriterIsSignalled` | libraries/pthreads-win32/pthread_rwlock_wrlock.c:108-113 | When no reader is left, a waiting writer has been signalled or is about to be. |
| `RwLockTheorems.InnerOwnerMoves` | libraries/pthreads-win32/pthread_rwlock_unlock.c:70-81 | A thread that has the inner mutex can go on, unless it is the active writer. |
| `RwLockTheorems.ReaderCanLeave` | libraries/pthreads-win32/pthread_rwlock_unlock.c:70-81 | A reader on its way out is never held up by a writer. |
| `RwLockTheorems.NoDeadlock` | libraries/pthreads-win32/pthread_rwlock_timedwrlock.c:77-89 | When nobody reads or writes, a thread inside the library never waits for nothing. |
| `RwLockTheorems.LibraryStepsRunOut` | libraries/pthreads-win32/pthread_rwlock_wrlock.c:76-132 | Library steps and unlocks cannot go on for ever without new calls, spurious wakeups and timeouts. |
| `RwLockTheorems.EveryScheduleEnds` | libraries/pthreads-win32/pthread_rwlock_unlock.c:68-90 | Every call returns under every schedule: while it is under way, and the threads that have the lock unlock it, some step can be taken, and each brings all of them nearer to the end. |
| `RwLockTheorems.WriterComesToWrite` | libraries/pthreads-win32/pthread_rwlock_wrlock.c:108-130 | From every point of its call, a writer that does not give up comes to write in a bounded number of library steps and unlocks, if nobody destroys the lock before it has the outer mutex. |
| `RwLockCalls.CallOutcome` | libraries/pthreads-win32/pthread_rwlock_wrlock.c:76-132 | Over any run from a call to its return: rdlock ends in reading; tryrdlock reads or turns away exactly when the outer mutex was taken; wrlock ends in writing unless it gave up, by a timeout if timed and else only by a cancellation of its wait for readers; trywrlock writes or turns away exactly when it met the lock in use; unlock ends outside; destroy answers EBUSY only if it met a reader inside. |
| `RwLockCalls.TimedWriterCanGiveUp` | libraries/pthreads-win32/pthread_rwlock_timedwrlock.c:77-119 | A timed writer held up by a mutex or by the readers can give up, except while it relocks the inner mutex after its wait. |
| `RwLockTheorems.BusyWriterHoldsNothing` | libraries/pthreads-win32/pthread_rwlock_trywrlock.c:88-121 | No caller is told EBUSY with the mutexes still locked: the last branch of trywrlock is never taken. |
| `RwLockTheorems.DestroyFreesOnlyUnused` | libraries/pthreads-win32/pthread_rwlock_destroy.c:62-108 | The lock is freed if and only if no reader is inside, and no writer is then active or waiting. |
| `RwLockTheorems.RefinesReadWriteLock` | libraries/pthreads-win32/pthread_rwlock_tryrdlock.c:76-101 | Every step is a move of an abstract read/write lock: a reader comes in beside no writer, a writer beside nobody, each leaves alone. |
| `RwLock.RwLockObject.CountReader` | libraries/pthreads-win32/pthread_rwlock_rdlock.c:81-91 | One reader more inside, and the counts stay in range through the fold for as long as the readers inside do. |
| `RwLock.RwLockObject.EnterWriter` | libraries/pthreads-win32/pthread_rwlock_wrlock.c:87-130 | The writer waits if and only if readers are left after the fold, and then for as many as the completed count is negative. |
| `RwLock.RwLockObject.CancelWriter` | libraries/pthreads-win32/ptw32_rwlock_cancelwrwait.c:45-46 | A writer that gives up turns the readers still inside back into counted readers. |
| `Barrier.RoundsAreExact` | libraries/pthreads-win32/pthread_barrier_wait.c:54-103 | In every finished round exactly the configured number of threads came in, the same left, and one was the serial thread; nobody leaves a round before all have come in. |
| `Barrier.EntryWaitsForLastRound` | libraries/pthreads-win32/pthread_barrier_wait.c:54-57 | A thread joins a round only when all have left the one before. |
| `Barrier.DecrementNeverMeetsIncrement` | libraries/pthreads-win32/pthread_barrier_wait.c:57-91 | The plain decrement of the height never overlaps with an interlocked increment, and writes what it should. |
| `Barrier.RoundStartsClean` | libraries/pthreads-win32/pthread_barrier_wait.c:71-73 | A round starts with the full height and no permit left over. |
| `Barrier.SerialThreadLeavesLast` | libraries/pthreads-win32/pthread_barrier_wait.c:90-101 | The serial thread is the one with which all have left. |
| `Barrier.FullRoundMoves` | libraries/pthreads-win32/pthread_barrier_wait.c:64-96 | Once all have come in, some thread of the round can go on. |
| `Barrier.FullRoundCompletes` | libraries/pthreads-win32/pthread_barrier_wait.c:64-101 | From any state in which all have come in, a bounded number of library steps brings everybody out and begins the next round. |
| `Barrier.LibraryStepsRunOut` | libraries/pthreads-win32/pthread_barrier_wait.c:54-103 | Steps inside the library cannot go on for ever without new calls. |
| `Barrier.EntryBlockedOnlyByOthers` | libraries/pthreads-win32/pthread_barrier_wait.c:54 | A thread is kept out only while another can go on. |
| `Barrier.DestroyOnlyWhenEmpty` | libraries/pthreads-win32/pthread_barrier_destroy.c:52-80 | The destroyer frees the barrier if and only if nobody has come into the round under way, and then no thread is inside. |
| `BarrierCalls.CallOutcome` | libraries/pthreads-win32/pthread_barrier_wait.c:54-103 | Over any run from a wait to its return: the thread came into one round and went out of the same one, which all had come into, and is told to be the serial one if and only if all are out with it. A destroy frees the barrier if and only if its lock was free and the round empty at the call. |
| `Barrier.BarrierObject.Init` | libraries/pthreads-win32/pthread_barrier_init.c:47-63 | A barrier with an empty round, or none for a round of nobody. |
| `Barrier.BarrierObject.Enter` | libraries/pthreads-win32/pthread_barrier_wait.c:57-77 | The one height keeps telling who is in and who is out; the thread with which all are in, and only that one, posts one permit for each of the others. |
| `Barrier.BarrierObject.Leave` | libraries/pthreads-win32/pthread_barrier_wait.c:90-101 | The thread is the serial one if and only if all the others of the round are out, and an empty round at full height follows. |
| `TsdLattice.Lattice.OnceOnEachChain` | libraries/pthreads-win32/implement.h:389-496 | An association is once on its thread's chain and once on its key's chain, on no other, and its neighbours on both axes point back at it. |
| `TsdLattice.Lattice.OneAssociationPerPair` | libraries/pthreads-win32/ptw32_tkAssocCreate.c:44-54 | There is at most one association for a thread and a key. |
| `TsdLattice.Lattice.CursorOnChain` | libraries/pthreads-win32/ptw32_tkAssocDestroy.c:84-91 | A thread's cursor is null or on an association still on its chain. |
| `TsdLattice.Lattice.Create` | libraries/pthreads-win32/ptw32_tkAssocCreate.c:84-116 | A new association heads both chains; the lattice stays valid, the cursor keeps what it had before it, and nothing else changes. |
| `TsdLattice.Lattice.Destroy` | libraries/pthreads-win32/ptw32_tkAssocDestroy.c:63-112 | The association leaves both chains, the cursor moves on if it stood on it, and nothing else changes. |
| `TsdLattice.Lattice.DestroyFirst` | libraries/pthreads-win32/pthread_key_delete.c:86-104 | Removing the head of a key's chain, as key deletion does, puts nothing new before any cursor. |
| `TsdLattice.ThreadRec.Find` | libraries/pthreads-win32/pthread_setspecific.c:129-143 | The search finds the thread's association with the key if there is one. |
| `TsdLattice.Lattice.SetSpecific` | libraries/pthreads-win32/pthread_setspecific.c:108-164 | The value is stored; there is an association afterwards if and only if there was one or the value needs a destructor, and never two. |
| `TsdExit.CallUserDestroyRoutines` | libraries/pthreads-win32/ptw32_callUserDestroyRoutines.c:93-230 | Whatever destructors and other threads do: at most five passes, no key's destructor more than four times even if its associations are deleted and made again, an empty chain at the end, no value left that needs a destructor unless its key is being deleted; every destructor is called with the value that is there when its association is visited, what the destructors set is kept until visited in its turn, and the thread's values at the end are those; and without interference exactly the destructors whose values are set, once, in order. |
| `TsdExit.RunPass` | libraries/pthreads-win32/ptw32_callUserDestroyRoutines.c:93-228 | A pass ends, visits each association once at most, empties the chain unless it ran a destructor, and lets everything happen in between that other threads and its destructors do. |
| `TsdExit.TakeTurn` | libraries/pthreads-win32/ptw32_callUserDestroyRoutines.c:154-227 | A visit brings the cursor nearer the end whatever the destructor does, and puts no association back before it. |
| `TsdExit.Visit` | libraries/pthreads-win32/ptw32_callUserDestroyRoutines.c:154-227 | The value is cleared first; the destructor is due exactly for a set value in the first four passes, and the association goes otherwise. |
| `TsdExit.RunOps` | libraries/pthreads-win32/ptw32_callUserDestroyRoutines.c:100-106 | Other threads cannot move a cursor off the head of the chain, or put anything before it. |
| `TsdExit.RunsOneMore` | libraries/pthreads-win32/pthread.h:504-508 | Calling the destructor of the next association keeps every key within one call for each pass. |
| `ReusePool.Pool.Pop` | libraries/pthreads-win32/ptw32_reuse.c:75-105 | The struct longest in the pool comes out, with its handle as it is; the links of the rest hold. |
| `ReusePool.Pool.Push` | libraries/pthreads-win32/ptw32_reuse.c:113-151 | The struct goes to the bottom with its counter stepped; the links hold. |
| `ReusePool.Pool.New` | libraries/pthreads-win32/ptw32_new.c:51-75 | The oldest struct is reused if there is one, a new one with counter zero is made otherwise, joinable in either case. |
| `ReusePool.PoolIsFifo` | libraries/pthreads-win32/ptw32_reuse.c:75-151 | Over any run, what has come out and then what is left is what was there and then what went in, in order. |
| `ThreadLife.NoHandleIssuedTwice` | libraries/pthreads-win32/ptw32_new.c:51-70 | No pair of struct and counter is ever issued twice. |
| `ThreadLife.PushedExactlyOnce` | libraries/pthreads-win32/ptw32_reuse.c:128-133 | A struct goes back at most once for each handle, and exactly for the handles its counter has moved past. |
| `ThreadLife.PushedIffReleasedAndOver` | libraries/pthreads-win32/pthread_detach.c:82-132 | A struct goes back only after its thread was joined or detached, and once that is so and the thread is over it has gone back, or the thread is about to push it. |
| `ThreadLife.PoolHoldsUnused` | libraries/pthreads-win32/ptw32_threadDestroy.c:48-59 | The pool holds each struct out of use once, and no other. |
| `ThreadLife.WaiterIsNotOvertaken` | libraries/pthreads-win32/pthread_join.c:108-146 | The struct that a join or detach waits for is not reused under it, and its thread is on the way to the end that the call waits for. |
| `ThreadLife.StaleHandleIsRefused` | libraries/pthreads-win32/pthread_detach.c:84-92 | A call with a handle whose thread was joined, detached or reused changes nothing. |
| `ThreadCalls.CallOutcome` | libraries/pthreads-win32/pthread_join.c:108-146 | Over any run from a join or detach to its return: a handle already joined or detached is refused and nothing changed; otherwise a join that is not cancelled returns only when the thread has ended, having pushed its struct once, and a detach leaves the thread released, with the struct pushed by it exactly if it found the thread over. |
| `ThreadCalls.HeldUpOnlyByTheThread` | libraries/pthreads-win32/pthread_join.c:128-146 | A call waits only for a thread that has not ended, and a join can be cancelled then. |
| `ThreadCalls.ThreadEnds` | libraries/pthreads-win32/pthread_win32_attach_detach_np.c:208-245 | A started thread comes to its end, and is then ended for a join or detach to find, or has pushed its struct itself, exactly when it had been detached. |
| `ThreadCalls.ThreadStartsAsAsked` | libraries/pthreads-win32/ptw32_new.c:51-75 | Over any run from the making of a thread to its start: its handle is new, and released from the beginning exactly if it was to be detached. |
| `ThreadCalls.StructsAreReusedInOrder` | libraries/pthreads-win32/ptw32_reuse.c:75-151 | Over any run, structs are handed out again in the order in which they came back by whichever route, and a new one is made exactly when the pool is empty. |

## Left out

- Failures of the operating system: CloseHandle, SetEvent, ReleaseSemaphore, CreateEvent and memory allocation are taken to succeed.
- Reuse of the memory of an MCS node: every acquisition has a fresh node, and nothing is said about a node after release.
- The NEED_SEM variant of the semaphore and `sem_destroy`: another protocol, and a teardown that depends on scheduling.
- Cancellation itself, stack unwinding, DllMain, scheduling and priorities: a cancelled wait is a wait that fails.
- The user mutex of a condition variable: a waiter may always lock and unlock it, so nothing is said about threads that keep it.
- The list of all condition variables, static initialisers, attributes, spin locks, `pthread_once` and time conversion: they would only add easy members.
- Integer widths where the code relies on there being fewer threads than an int can count: the condition variable's counts are bounded by the number of threads, the read/write lock assumes fewer than INT_MAX of them (a thread with several read locks counts as several), and the reuse counter does not wrap.
- Robust branches of `pthread_mutex_timedlock`, whose uncontended path does not record the owner.
- Waking of waiters on robust mutexes: two deaths can set one event twice, and nothing is claimed about who wakes.
- Inner unlocks of robust recursive mutexes: the count is proved call by call (`RobustCalls.CallOutcome`), but the code gives an inconsistent mutex up at an inner unlock too, and nothing is claimed about its use after that.
- `pthread_rwlock_timedrdlock`, which counts a reader out without the mutex that guards the count.
- The lock handling of `pthread_key_delete`, which releases the key's lock inside its loop: the removal of one association is modelled as one step.
- Keys made while a thread exits: the keys of a lattice are fixed, and those not yet in use simply have no association.
- Fairness of the retry in the destructor loop: each attempt to lock a key fails finitely often.
- Two calls of join or detach for one thread at once, which the code declares undefined; a second call after the first has ended is modelled.
- Barrier.BarrierObject.Enter: the height is an integer here and an unsigned int in C; a thread comes in only while the round has room, which the protocol shows the lock to ensure.
- Mutex.MutexObject.Unlock: the owner is written and read as one word, where the C code writes its two halves one after the other.
- RobustList.Remove: the node of a mutex is part of the mutex here, where the C code allocates it apart with a pointer back.
- Creation of threads (`pthread_create`): a struct is handed out, and its thread is taken to start.
