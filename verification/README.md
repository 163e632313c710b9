# A model of the LK kernel, the calendar, RealPath and the directory cursor of the UEFI LKL driver

The driver runs the Linux kernel library on a small LK kernel inside UEFI. This project models the
parts of it that hold state or do arithmetic, and proves what they promise.

**The LK kernel** (`kernel*.dfy`, `bitmap.dfy`, `list.dfy`). One processor, no LK_DEBUGLEVEL checks. Every
call body between taking and leaving the thread lock is one atomic step. A step is `Act`, the part up
to the call of thread_resched, followed, if that call is reached, by `Dispatch`: thread_resched and what
the chosen thread still does before it leaves the lock (its *continuation*: taking over a mutex,
finishing a join, giving a semaphore place back). A run is any sequence of calls and interrupts the
kernel's own rules for callers (`KernelSteps.Enabled`) allow. There are three layers:

- `KernelSteps` says on values what every call does. All properties over runs are proved about it: the
  global invariant (`KernelInvariant`, `KernelJoins`), the mutex, semaphore, event and host lock against
  simple machines of their own, scheduling, exit and join, and what creating a thread gives and each call
  returns, as the calls after it show (`KernelCreation`, `KernelStatuses`).
- `KernelImplementation.Scheduler` (`kernel.dfy`) has the fields the C code has: 32 run queues and their
  bitmap, the counter in every wait queue, the structures by address. Every method changes them as the
  code does and is proved to do exactly the step of `KernelSteps`. `Valid` says that bit p is set exactly
  if run queue p is in use and that each counter is its list's length.
- `IntrusiveList` is the heap level: nodes with prev and next. `KernelLists` shows that what its
  operations do to the heap is what the steps do to the queues, when each thread owns one node.

**The calendar** (`calendar.dfy`): the Julian-day formulas of Misc.c against a count of days made of year
and month lengths; with unlimited integers and with 32-bit ones.

**RealPath** (`paths.dfy`, `path_*.dfy`, `realpath.dfy`): the loop over its mutable buffers refines a
resolver on (component stack, pending text, room, links left), which in turn does what a plain walk over
components does. Laws on path texts say what a link, "." and ".." may be replaced by (`PathLinks`,
`PathTexts`). The file system is a fixed map from component paths to nodes, what lstat and readlink report;
which buffer sizes the allocator has memory for is a parameter.

**The directory cursor** (`directory.dfy`): LKLIFileReadDir and the directory branch of LKLSetPosition over
a stream of entries, with the bytes written into the caller's buffer and how a caller reads them; when the
directory cannot be opened and when reading the stream fails are parameters of each call.

Where the code differs from its own comments the model follows the code:

- thread_create_idle never sets THREAD_FLAG_IDLE, so after its first dispatch the idle thread lives in run
  queue 0 like any other thread (`KernelFairness.NoFallbackOnceStarted`).
- thread_resched leaves the quantum alone when it picks the caller again, so "at most 5" holds of every
  quantum, but not "positive": the thread it chooses runs with a positive quantum exactly unless it is the
  caller and the caller's is spent (`KernelSharing.RunsWithQuantum`), as after the boot thread's first yield
  (`KernelSharing.YieldsWithoutQuantum`).
- thread_resume returns NO_ERROR also for a thread that was not suspended.
- RealPath takes ".." as text after an entry that is no directory (`PathWalk.DotDotIsLexical`). It differs
  from the walk of section 4.13 of POSIX.1-2017 exactly where that happens (`PathWalk.RealPathIsStrict`), as on
  "/f/.." for a file "/f" (`PathWalk.DotsMatter`).
- EFI_TIME holds the year in 16 bits, so EpochToEfiTime is undone by EfiTimeToEpoch only before year 65536
  (`Calendar.EpochRoundTrip`, `Calendar.YearIsTruncated`).

Finite timeouts cannot be served in this port (its timers assert), but nothing is assumed about them: a
waiter whose timer fired stays in the count of its mutex or semaphore until it runs. Because of that a
release can find a count with nobody to hand over to, and a waiter can queue beside a free token. When
exactly is `KernelMutex.StepRepresents`, `KernelMutex.ReleaseServes` and `KernelSemaphore.StrandedExactlyIf`;
runs from boot on which it happens are `KernelMutexRace.TimerStrandsMutex` and
`KernelSemaphoreRace.TimerStrandsWaiter`. A mutex released that way is lost for good as soon as a thread waits
for it without a timer (`KernelMutex.RunStaysLost`, `KernelMutexRace.TimerLosesMutex`).

## Model

| member | source | states |
|---|---|---|
| Bitmap.OrBitSets | lk/kernel/thread.c:101 | Or-ing a bit in sets that bit and leaves every other bit as it was |
| Bitmap.AndNotBitClears | lk/kernel/thread.c:468 | Masking a bit out clears that bit and leaves every other bit as it was |
| Bitmap.HighestBit | lk/kernel/thread.c:457-458 | The count-leading-zeros expression yields a set bit of a non-zero bitmap, and no higher bit is set |
| KernelJoins.StepKeepsInv | lk/kernel/thread.c:399-522 | Every allowed step keeps the invariant: one RUNNING thread, the current one, in no queue; READY exactly if once in the run queue of its priority; BLOCKED exactly if once in the one wait queue it names; SUSPENDED and DEATH in no queue; quantum at most 5; the thread list is the live threads; at most one joiner per target |
| KernelJoins.BootInv | lk/kernel/thread.c:803-829 | The state after thread_init_early and thread_create_idle satisfies the invariant |
| KernelJoins.RunKeepsInv | lk/kernel/thread.c:82-1316 | The invariant holds after every run |
| KernelInvariant.DispatchKeepsInv | lk/kernel/thread.c:491-522 | thread_resched with the chosen thread's continuation turns the state with no RUNNING thread into one that satisfies the full invariant |
| KernelInvariant.NextIsReady | lk/kernel/thread.c:450-479 | get_top_thread returns a READY thread of the highest non-empty level; past the queues only while idle is SUSPENDED |
| KernelInvariant.WakeAllEffect | lk/kernel/thread.c:1223-1265 | Waking a queue makes exactly its waiters READY with the given status, empties that queue and requeues the caller exactly if it reschedules and somebody waited |
| KernelJoins.WakeOneEffect | lk/kernel/thread.c:1169-1206 | Waking one makes exactly the first waiter READY, takes it off that queue, and requeues the caller exactly if it reschedules |
| KernelFrames.ActAside | lk/kernel/thread.c:288-1316 | Up to thread_resched every call leaves alone all wait queues but the one it is about and all threads waiting, or woken and not yet run, elsewhere |
| KernelWaits.StepAside | lk/kernel/thread.c:288-1316 | The same for the whole call, except that the thread it dispatches is done with its wait |
| KernelFrames.ActObjects | lk/kernel/mutex.c:80-144 | Up to thread_resched every call leaves alone all mutexes, semaphores and events but the one it is about |
| KernelWaits.StepObjects | lk/kernel/mutex.c:80-144 | The same for the whole call, except for the mutex or semaphore the dispatched thread comes back from |
| KernelMutex.StepKeepsCount | lk/kernel/mutex.c:80-144 | With timeouts of every kind each step keeps the count the owner, the waiters and the timed-out threads yet to run, nobody being two of these and at most one owner |
| KernelMutex.RunKeepsCount | lk/kernel/mutex.c:80-144 | The same over every run |
| KernelMutex.StepRepresents | lk/kernel/mutex.c:80-144 | With timeouts of every kind one kernel step is one step of a first-in first-out lock whose state is owner and waiters in order of arrival, exactly unless it is a release with a count of two or more and nobody queued; after that there is no lock |
| KernelMutex.RunRepresents | lk/kernel/mutex.c:80-144 | Over every run without such a release the mutex is the lock: no barging, at most one owner, waiters imply an owner |
| KernelMutex.UntimedRunRepresents | lk/kernel/mutex.c:80-144 | Runs without finite timeouts have no such release |
| KernelMutex.ReleaseServes | lk/kernel/mutex.c:122-144 | From every state a run reaches, a release leaves the mutex free or with a successor exactly unless the count is two or more and nobody is queued |
| KernelMutex.InitRepresents | lk/kernel/mutex.c:42-45 | A new mutex is the free lock |
| KernelMutex.AcquireOutcome | lk/kernel/mutex.c:80-117 | With every kind of timeout an acquire succeeds at once exactly if the lock is free, times out at once exactly if it may not wait and the lock is taken, and otherwise blocks at the end of the line |
| KernelMutex.WaiterTakesOver | lk/kernel/mutex.c:94-113 | A waiter comes back either with success and as the holder, or with ERR_TIMED_OUT and with no part in the mutex, its place in the count given back |
| KernelMutex.AcquireLoses | lk/kernel/mutex.c:80-117 | An acquire without a timeout leaves its caller waiting, without a timer, for a mutex with neither owner nor successor exactly if the mutex is then neither free nor has an owner or successor |
| KernelMutex.RunStaysLost | lk/kernel/mutex.c:80-144 | A mutex with neither owner nor successor for which somebody waits without a timer stays so over every run: it never has an owner again |
| KernelMutexRace.TimerStrandsMutex | lk/kernel/mutex.c:94-139 | A run from boot that ends with a mutex without owner or successor for which the next acquire waits |
| KernelMutexRace.TimerLosesMutex | lk/kernel/mutex.c:80-144 | After that run and one more acquire the mutex never has an owner again, whatever is called |
| KernelSemaphore.StepConserves | lk/kernel/semaphore.c:35-99 | With timeouts of every kind a step neither loses nor makes tokens: tokens held plus waits that returned NO_ERROR change by the posts made; held are count plus waiters plus timed-out threads yet to run, and tokens on their way to a woken thread |
| KernelSemaphore.RunConserves | lk/kernel/semaphore.c:35-99 | The same over every run |
| KernelSemaphore.TokensConserved | lk/kernel/semaphore.c:22-99 | From creation on: initial tokens plus posts are the waits that returned NO_ERROR, the tokens on their way and the free tokens, which are never negative |
| KernelSemaphore.InitConserves | lk/kernel/semaphore.c:22-25 | A new semaphore has its initial value of tokens and nobody waiting |
| KernelSemaphore.PostWakes | lk/kernel/semaphore.c:35-51 | A post that finds waiters makes the first of them, until then blocked, READY with NO_ERROR, takes it off the queue and wakes nobody else |
| KernelSemaphore.StrandedExactlyIf | lk/kernel/semaphore.c:53-99 | With timeouts of every kind a call leaves somebody waiting beside a free token, where nobody was, exactly if it queues its caller while the count is not positive, the queue is empty and count plus timed-out threads yet to run is positive |
| KernelSemaphoreRace.TimerStrandsWaiter | lk/kernel/semaphore.c:83-99 | A run from boot that ends with a thread waiting beside a free token |
| KernelSemaphore.RunStaysPrompt | lk/kernel/semaphore.c:35-99 | Over every run without such a call nobody waits beside a free token, and while somebody waits the count is minus the waiters and the timed-out threads yet to run |
| KernelSemaphore.UntimedRunStaysPrompt | lk/kernel/semaphore.c:35-99 | Over every run without finite timeouts a non-negative count means no waiter and a negative one counts the waiters exactly |
| HostLock.StepKeepsToken | UefiHost.c:81-102 | The one token is free, with a thread inside, or on its way to a woken thread: every step of paired use keeps it |
| HostLock.RunExcludes | UefiHost.c:81-102 | Over every run of paired use at most one thread is inside the non-recursive lock |
| HostLock.AllocatedLock | UefiHost.c:65-79 | A newly allocated non-recursive lock has its token free and nobody inside |
| KernelEvent.StepShows | lk/kernel/event.c:99-188 | One kernel step is one step of the event machine: flag, mode, waiters in order, threads released and timed out |
| KernelEvent.StepAccounts | lk/kernel/event.c:99-188 | With timeouts of every kind a step keeps a signaled event without waiters, and in automatic mode a signal that finds the event clear lets one wait return NO_ERROR, is pending or is cleared by hand |
| KernelEvent.RunAccounts | lk/kernel/event.c:99-188 | The same over every run: what was pending plus the signals that found the event clear are the waits that returned NO_ERROR, the clearings by hand and what is pending |
| KernelEvent.InitAccounts | lk/kernel/event.c:56-59 | A new event has its flag and mode and nobody waiting |
| KernelEvent.SignalReleases | lk/kernel/event.c:140-167 | A signal makes READY exactly the first waiter, or in latched mode every waiter, and touches no other thread |
| KernelFairness.RunningOutranksReady | lk/kernel/thread.c:491-509 | After thread_resched no READY thread has a higher priority than the running one |
| KernelFairness.LeaversDoNotReturn | lk/kernel/thread.c:513-514 | A thread that blocks or dies is not picked again by its own thread_resched |
| KernelFairness.ExitLeaves | lk/kernel/thread.c:399-442 | thread_exit does not fall through: another thread runs, and the caller is DEATH with the code it passed |
| KernelFairness.FallbackStartsIdle | lk/kernel/thread.c:476-478 | The idle fallback is reached only while idle has never run, and starts it |
| KernelFairness.NoFallbackOnceStarted | lk/kernel/thread.c:476-478 | Once idle has run no later step of any run reaches the fallback |
| KernelFairness.YieldRotates | lk/kernel/thread.c:633-653 | At the highest level in use a yield moves the caller to the end of its level's line |
| KernelFairness.YieldsRotate | lk/kernel/thread.c:633-653 | Threads of one level that only yield run in strict rotation |
| KernelFairness.WakeAllOrder | lk/kernel/thread.c:1223-1265 | Just before rescheduling each run queue is the woken threads of its priority, last waiter first, then the caller if it reschedules, then the old queue |
| KernelFairness.StaysInLine | lk/kernel/thread.c:736-749 | A call that does not reschedule keeps a waiting thread's place, and a tick lowers the bound by one |
| KernelFairness.MovesUp | lk/kernel/thread.c:505-519 | A call that reschedules away from the caller moves every thread of the line up one place and lowers the bound |
| KernelFairness.GoesOn | lk/kernel/thread.c:513-514 | A call that puts the caller back in front keeps the line and the quantum |
| KernelFairness.BoundedWait | lk/kernel/thread.c:505-519 | A thread at index i of the highest level in use runs within 5 * i + max(1, r) ticks while nobody is put ahead of it in that line or made real-time there |
| KernelOutcomes.SemTimedWaitOutcome | lk/kernel/semaphore.c:83-99 | NO_ERROR at once exactly if the count is positive, ERR_TIMED_OUT at once exactly if not and the timeout is zero, otherwise the caller blocks last in line |
| KernelOutcomes.SemWaitOutcome | lk/kernel/semaphore.c:53-67 | NO_ERROR at once exactly if the count is positive, otherwise the caller blocks last in line |
| KernelOutcomes.SemTryWaitOutcome | lk/kernel/semaphore.c:69-81 | Never blocks: takes a token with NO_ERROR or leaves the count with ERR_NOT_READY |
| KernelOutcomes.EventWaitOutcome | lk/kernel/event.c:99-121 | NO_ERROR at once exactly if signaled, which clears an automatic event; ERR_TIMED_OUT at once exactly if not and the timeout is zero; otherwise the caller blocks |
| KernelOutcomes.JoinStatus | lk/kernel/thread.c:322-368 | Which joins return at once, with which status, and which block |
| KernelOutcomes.StatusDelivered | lk/kernel/thread.c:1145-1153 | A thread that waited comes back, when dispatched, with exactly the status it was woken with |
| KernelOutcomes.WakeOneOrder | lk/kernel/thread.c:1180-1200 | Just before rescheduling each run queue is the woken thread if of its priority, then the caller if it reschedules, then the old queue |
| KernelOutcomes.PreemptTurn | lk/kernel/thread.c:670-697 | At the highest level in use a preempted thread goes on while it has quantum left, and goes to the end of the line when it has none |
| KernelOutcomes.SetPriorityTurn | lk/kernel/thread.c:859-876 | The caller comes to the head of the level of 1 to 31 nearest to the one asked for, and goes on exactly if no READY thread is above that level |
| KernelOutcomes.ResumeOutcome | lk/kernel/thread.c:288-311 | A suspended thread becomes READY first in its run queue, any other stays where it is, and NO_ERROR comes either way |
| KernelCreation.StandsFirst | lk/kernel/thread.c:151-311 | Creating and resuming a thread is always possible in turn; then it stands first in the run queue of the level asked for and in no other queue, the other run queues are as they were, and the caller goes on |
| KernelCreation.ListedFirst | lk/kernel/thread.c:223-226 | The new thread is the first of the thread list |
| KernelCreation.RunsAtYield | lk/kernel/thread.c:633-653 | At the caller's next yield the new thread runs exactly if no level above the one asked for is in use and the caller is of no higher one |
| KernelCreation.CanBeJoined | lk/kernel/thread.c:322-341 | A join of the new thread blocks, or times out if it may not wait: it is attached and alive |
| KernelCreation.IsCharged | lk/kernel/thread.c:736-749 | Once dispatched it has a quantum of 5, and each tick takes one: it is not real-time |
| KernelCreation.TicksCharge | lk/kernel/thread.c:736-749 | Ticks that leave quantum are charged to a running thread that is not real-time, one each, and it goes on |
| KernelCreation.BootGives | lk/kernel/thread.c:803-829 | At the boot thread's first yield a new thread runs exactly if it is of level 31; the boot thread is charged for its first tick; boot and idle thread cannot be joined; idle is of level 0 and listed before the boot thread |
| KernelStatuses.NoErrorReturned | lk/kernel/event.c:140-188 | Making real-time, resuming, detaching a live thread, releasing a mutex, signaling and clearing an event return NO_ERROR, whether or not another thread runs first |
| KernelStatuses.PostTellsWoken | lk/kernel/semaphore.c:35-51 | sem_post returns the number of threads it took off the semaphore's queue |
| KernelStatuses.WakersGiveWay | lk/kernel/thread.c:1169-1265 | After a call that wakes a waiter and may reschedule no READY thread outranks the running one |
| KernelStatuses.CallerStaysOn | lk/kernel/thread.c:1169-1265 | A post or signal told not to reschedule, and every call that never does, leaves its caller running |
| KernelStatuses.YieldingGivesUpQuantum | lk/kernel/thread.c:643-646 | A thread that yields to another has no quantum left |
| KernelStatuses.DetachedRefusesJoins | lk/kernel/thread.c:370-390 | Once a live thread is detached every join of it returns ERR_THREAD_DETACHED at once |
| KernelStatuses.DetachingTheDead | lk/kernel/thread.c:380-384 | After detaching a dead thread the join with timeout 0 returns NO_ERROR with its exit code at once and unlinks it |
| KernelStatuses.ExitLetsGo | lk/kernel/thread.c:399-442 | A thread that exits lets go whoever waits to join it, with success and the exit code, at once or when that thread runs |
| KernelStatuses.LetGoReturns | lk/kernel/thread.c:334-367 | A joiner let go stays so through every call until it runs, and then its join returns NO_ERROR and the exit code |
| KernelExit.JoinOutcome | lk/kernel/thread.c:322-368 | A join that returns NO_ERROR finds its target DEATH, delivers its code and takes it off the thread list, where it was before the call or, for a join that waited, just before thread_resched; any other join unlinks nothing |
| KernelExit.ExitCodeDelivered | lk/kernel/thread.c:399-409 | Whatever happens between, a successful join delivers the code passed to thread_exit |
| KernelExit.RunKeepsDead | lk/kernel/thread.c:322-442 | Over every run a dead thread stays dead with its code, and an unlinked one is never linked again |
| KernelExit.DetachTurnsAway | lk/kernel/thread.c:370-390 | A detach before the target's exit wakes its joiner to be turned away |
| KernelExit.TurnedAwayReturns | lk/kernel/thread.c:336-341 | Such a joiner stays so until it runs and then returns ERR_THREAD_DETACHED |
| KernelExit.DetachedExitUnlinks | lk/kernel/thread.c:415-421 | A detached thread is linked until its own exit unlinks it, and with it nobody but the target of a join that the thread dispatched next completes |
| KernelSharing.StepSteady | lk/kernel/thread.c:491-519 | A call but yield, tick and the parameter setters changes no thread's priority or real-time flag, and no quantum but a spent one of the thread it dispatches anew, which becomes 5 |
| KernelSharing.RunsWithQuantum | lk/kernel/thread.c:505-519 | The thread thread_resched chooses runs with a positive quantum exactly unless it is the caller and the caller's is spent |
| KernelSharing.YieldsWithoutQuantum | lk/kernel/thread.c:633-653 | The boot thread has no quantum, and after a yield with nobody else ready it goes on without one |
| KernelSharing.RunSparesRealTime | lk/kernel/thread.c:736-749 | Over every run, however many ticks it has, a real-time thread with quantum left that does not yield keeps its quantum |
| KernelSharing.TickSparesRealTime | lk/kernel/thread.c:736-741 | Once the running thread has made itself real-time a tick changes nothing |
| KernelSharing.MadeRealTime | lk/kernel/thread.c:243-261 | After thread_set_real_time a thread with quantum left keeps it over every run, with any number of ticks, in which it does not yield |
| KernelImplementation.Scheduler.constructor | lk/kernel/thread.c:803-829 | thread_init_early and thread_create_idle leave valid structures that hold the boot state |
| KernelImplementation.Scheduler.InsertInRunQueueHead | lk/kernel/thread.c:92-102 | The thread is first in the run queue of its priority, the bitmap is exact |
| KernelImplementation.Scheduler.InsertInRunQueueTail | lk/kernel/thread.c:104-114 | The thread is last in the run queue of its priority, the bitmap is exact |
| KernelImplementation.Scheduler.GetTopThread | lk/kernel/thread.c:450-479 | The loop over the bitmap finds and unlinks the first thread of the highest level, or idle, and the bitmap is exact again |
| KernelImplementation.Scheduler.ThreadResched | lk/kernel/thread.c:491-522 | Switching and the chosen thread's continuation are the step's Dispatch |
| KernelImplementation.Scheduler.WaitQueueBlock | lk/kernel/thread.c:1119-1153 | With timeout zero ERR_TIMED_OUT and nothing changed; otherwise the caller is queued last, counted, and another thread runs |
| KernelImplementation.Scheduler.WaitQueueWakeOne | lk/kernel/thread.c:1169-1206 | Wakes the first waiter if there is one, says so, keeps the counter exact, reschedules only if asked and somebody was woken |
| KernelImplementation.Scheduler.WaitQueueWakeAll | lk/kernel/thread.c:1223-1265 | The pop loop wakes every waiter and counts them; requeueing by the counter and rescheduling by the count agree |
| KernelImplementation.Scheduler.ThreadCreate | lk/kernel/thread.c:151-229 | The structures after the call hold the state after the step |
| KernelImplementation.Scheduler.ThreadSetRealTime | lk/kernel/thread.c:243-261 | The structures after the call hold the state after the step |
| KernelImplementation.Scheduler.ThreadResume | lk/kernel/thread.c:288-305 | The structures after the locked part hold the state after the step |
| KernelImplementation.Scheduler.ThreadJoin | lk/kernel/thread.c:322-368 | The structures after the call hold the state after the step |
| KernelImplementation.Scheduler.ThreadDetach | lk/kernel/thread.c:370-390 | The structures after the first critical section hold the state after the step |
| KernelImplementation.Scheduler.ThreadExit | lk/kernel/thread.c:399-439 | The structures after the call hold the state after the step |
| KernelImplementation.Scheduler.ThreadYield | lk/kernel/thread.c:633-653 | The structures after the call hold the state after the step |
| KernelImplementation.Scheduler.ThreadPreempt | lk/kernel/thread.c:670-697 | The structures after the call hold the state after the step |
| KernelImplementation.Scheduler.TimerCallback | UefiHost.c:117-128 | The tick, and the preemption exactly if the tick asks for it, are one step |
| KernelImplementation.Scheduler.ThreadSetPriority | lk/kernel/thread.c:859-876 | The structures after the call hold the state after the step, the priority clamped to 1..31 |
| KernelImplementation.Scheduler.ThreadUnblockFromWaitQueue | lk/kernel/thread.c:1294-1316 | A blocked thread leaves its queue, the counter staying exact, and is READY with the status given; for any other thread ERR_NOT_BLOCKED and no change; called by a timer it is the step of that timer |
| KernelImplementation.UnblockedIsReady | lk/kernel/thread.c:1294-1316 | The thread leaves the queue it waits in and is READY with the status given, first in its run queue; other threads and queues are as they were |
| KernelImplementation.Scheduler.MutexInitialize | lk/kernel/mutex.c:42-45 | The structures after the call hold the state after the step |
| KernelImplementation.Scheduler.MutexAcquireTimeout | lk/kernel/mutex.c:80-117 | The structures after the call hold the state after the step |
| KernelImplementation.Scheduler.MutexReleaseHeld | lk/kernel/mutex.c:122-144 | The structures after the call hold the state after the step |
| KernelImplementation.Scheduler.SemaphoreInitialize | lk/kernel/semaphore.c:22-25 | The structures after the call hold the state after the step |
| KernelImplementation.Scheduler.SemaphorePost | lk/kernel/semaphore.c:35-51 | The structures after the call hold the state after the step |
| KernelImplementation.Scheduler.SemaphoreWait | lk/kernel/semaphore.c:53-67 | The structures after the call hold the state after the step |
| KernelImplementation.Scheduler.SemaphoreTryWait | lk/kernel/semaphore.c:69-81 | The structures after the call hold the state after the step |
| KernelImplementation.Scheduler.SemaphoreTimedWait | lk/kernel/semaphore.c:83-99 | The structures after the call hold the state after the step |
| KernelImplementation.Scheduler.EventInitialize | lk/kernel/event.c:56-59 | The structures after the call hold the state after the step |
| KernelImplementation.Scheduler.EventWaitTimeout | lk/kernel/event.c:99-121 | The structures after the call hold the state after the step |
| KernelImplementation.Scheduler.EventRaise | lk/kernel/event.c:140-167 | The structures after the call hold the state after the step |
| KernelImplementation.Scheduler.EventClear | lk/kernel/event.c:181-188 | The structures after the call hold the state after the step |
| IntrusiveList.Initialize | Include/lk/list.h:43-46 | The node becomes the header of an empty list; no other list changes |
| IntrusiveList.ClearNode | Include/lk/list.h:48-51 | The node becomes cleared; no list changes |
| IntrusiveList.InList | Include/lk/list.h:53-59 | Tells a linked node from a cleared one |
| IntrusiveList.AddHead | Include/lk/list.h:61-69 | The free node comes right after the header or member given; no other list changes |
| IntrusiveList.AddTail | Include/lk/list.h:71-79 | The free node comes right before the header or member given; no other list changes |
| IntrusiveList.Delete | Include/lk/list.h:81-86 | Exactly that member leaves its list and is cleared, without its header being known; no other list changes |
| IntrusiveList.RemoveHead | Include/lk/list.h:88-97 | The first member is returned and leaves; null and no change for an empty list |
| IntrusiveList.RemoveTail | Include/lk/list.h:109-118 | The last member is returned and leaves; null and no change for an empty list |
| IntrusiveList.PeekHead | Include/lk/list.h:130-137 | The first member or null |
| IntrusiveList.PeekTail | Include/lk/list.h:149-156 | The last member or null |
| IntrusiveList.Prev | Include/lk/list.h:168-174 | The member before, or null |
| IntrusiveList.PrevWrap | Include/lk/list.h:186-194 | The member before, the last one after the first; null only from the header of an empty list |
| IntrusiveList.Next | Include/lk/list.h:206-212 | The member after, or null |
| IntrusiveList.NextWrap | Include/lk/list.h:224-232 | The member after, the first one after the last; null only from the header of an empty list |
| IntrusiveList.IsEmpty | Include/lk/list.h:269-272 | True exactly for a list without members |
| IntrusiveList.Length | Include/lk/list.h:274-283 | The loop counts the members |
| IntrusiveList.AtTheEnds | Include/lk/list.h:61-118 | At the header adding is prepending or appending, and removing takes an end off |
| IntrusiveList.NextPrevInverse | Include/lk/list.h:35-38 | In every list next and prev undo each other |
| IntrusiveList.InOnePlace | Include/lk/list.h:53-59 | A node is in at most one list at one place |
| IntrusiveList.PointersDetermineLists | Include/lk/list.h:245-248 | Behind one header the heap holds one sequence of members |
| KernelLists.NodeIsFree | lk/kernel/thread.c:96 | A thread that belongs in no queue has an unlinked node, as the insertions ask for |
| KernelLists.HeadAdded | lk/kernel/thread.c:100 | Where the lists are the queues, inserting after a header is the prepending of the steps |
| KernelLists.TailAdded | lk/kernel/thread.c:112 | Where the lists are the queues, inserting before a header is the appending of the steps |
| KernelLists.ThreadDeleted | lk/kernel/thread.c:1307-1308 | Where the lists are the queues, removing a member takes the thread out of the queue it is in |
| KernelLists.PopNode | lk/kernel/thread.c:1180 | list_remove_head on the heap takes the first thread off the queue and leaves its node unlinked |
| KernelLists.PushNode | lk/kernel/thread.c:100 | list_add_head on the heap puts the thread first |
| KernelLists.PourOnHeap | lk/kernel/thread.c:1244-1253 | The loop of wait_queue_wake_all over the nodes leaves on the heap exactly the queues of the step |
| KernelLists.HeapDeterminesQueues | lk/kernel/thread.c:60-67 | The heap determines the queues |
| Calendar.FormulaCountsDays | Misc.c:417-425 | The Julian-day formula is the count of days since 1970-01-01 made of year and month lengths |
| Calendar.DayCountIncreases | Misc.c:417-425 | The count of days is strictly increasing in the order of dates |
| Calendar.EpochIncreases | Misc.c:406-429 | EfiTimeToEpoch is strictly increasing in the order of valid times from 1970 on |
| Calendar.EpochRoundTrip | Misc.c:337-389 | An epoch second becomes a proper time from 1970 on that converts back to it exactly if it is before year 65536 |
| Calendar.TimeRoundTrip | Misc.c:406-429 | Every proper time from 1970 on comes back from its epoch second with all fields, the nanosecond cleared |
| Calendar.ValidTimes | Misc.c:406-490 | So do the times EfiTimeIsValid accepts, and later ones have larger epoch seconds |
| Calendar.ValidExactly | Misc.c:451-490 | EfiTimeIsValid accepts exactly years 1900 to 9999, a day the month has, clock fields and nanosecond in range, zone 0x07FF or within a day's minutes either way, and no flags but the two daylight ones |
| Calendar.EpochGivesValidTime | Misc.c:468-490 | EfiTimeIsValid accepts the time made from an epoch second exactly if the 16-bit year is in 1900 to 9999 and has the day, and the zone and daylight fields given are allowed; before year 65536 the former is exactly before year 10000 |
| Calendar.YearIsTruncated | Misc.c:376 | The first second of year 67536 reads as the first of year 2000, and is accepted exactly if zone and daylight are allowed |
| Calendar.EpochModuloWord | Misc.c:406-429 | With 32-bit UINTN the result is the exact one modulo 2^32 |
| Calendar.ExactUntilLastSecond | Misc.c:406-429 | With 32-bit UINTN the result is exact exactly up to 2106-02-07 06:28:15 |
| Calendar.DateFits | Misc.c:357-377 | With 32-bit UINTN the date of every epoch second is the exact one |
| Calendar.RoundTrip32 | Misc.c:337-429 | With 32-bit UINTN every epoch second converts back to itself, and the time it becomes is valid exactly if the zone and daylight fields given are allowed |
| Calendar.TimeRoundTrip32 | Misc.c:337-429 | With 32-bit UINTN every proper time from 1970 to 2106-02-07 06:28:15 comes back from its epoch second |
| RealPathImplementation.RealPath | Misc.c:167-314 | For every tree, name, buffer and allocator the call ends, writes only inside its buffers, returns null exactly if the resolver fails, and otherwise the caller's buffer or a new one with the resolver's path, ended by NUL |
| RealPathImplementation.Canonicalize | Misc.c:211-301 | The loop keeps "the buffer is the stack's text, perhaps with a separator" and ends with the resolver's outcome, by links left and then text left |
| RealPathImplementation.Descend | Misc.c:231-300 | Adding a component, looking it up and following a link is one step of the resolver |
| RealPathImplementation.AddComponent | Misc.c:234-266 | Separator, growth, copying and lstat leave the longer stack in a buffer that has room, or fail as the resolver does |
| RealPathImplementation.MakeRoom | Misc.c:237-260 | The buffer grows exactly when the component and a NUL do not fit, keeps what it held, and fits them then; the caller's buffer never grows |
| RealPathImplementation.FollowLink | Misc.c:268-300 | The text left is the link's text followed by what was left, and the buffer backs up to where it is resolved from |
| RealPathImplementation.Splice | Misc.c:282-291 | The splicing is right also when the text left lies in the same buffer, and stays inside it |
| RealPathImplementation.BackUp | Misc.c:227-230 | Backing up drops the last component and stays at the root |
| RealPathImplementation.SkipSeparators | Misc.c:215-217 | The loop stops at the first character that is no separator |
| RealPathImplementation.ComponentEnd | Misc.c:219-221 | The loop stops at the end of the component |
| RealPathImplementation.Finish | Misc.c:302-304 | The result is the text of the stack, ended by NUL |
| PathLaws.ResolvedIsSettled | Misc.c:262-305 | Resolution that succeeds ends at proper components each prefix of which exists and is no symbolic link |
| PathLaws.ResultIsCanonical | Misc.c:302-305 | A name that gives a result begins with a separator; the result is absolute, without empty, "." or ".." components and without trailing separator except the root |
| PathLaws.CanonicalIsRendered | Misc.c:302-305 | A canonical text is the text of its components |
| PathWalk.ResolveWalks | Misc.c:211-301 | But for want of room and texts that get too long the resolver does what the plain walk does, error for error |
| PathWalk.Idempotent | Misc.c:167-314 | What RealPath returned it returns again; into a caller's buffer exactly if it is shorter than 4096 bytes |
| PathWalk.FixedFits | Misc.c:237-246 | What comes out of the caller's buffer fits it |
| PathWalk.NeverNoRoom | Misc.c:247-260 | A buffer that can grow never makes resolution fail |
| PathWalk.RoomIrrelevant | Misc.c:247-260 | How big a growing buffer was at first does not matter |
| PathWalk.FrontThenBack | Misc.c:211-301 | A path that resolves is its front part resolved and its back part resolved from there with the links left |
| PathWalk.MoreLinks | Misc.c:272-274 | A larger link budget changes nothing of a path that resolves |
| PathWalk.PrefixReplaced | Misc.c:167-314 | The front of a path that resolves may be replaced by what RealPath makes of it |
| PathWalk.ThenBack | Misc.c:211-301 | If a path resolves, a longer one is resolved on from there with the links left, exactly unless the additional text makes a link's text with what is left after it reach 4096 bytes |
| PathWalk.DotDotIsLexical | Misc.c:226-230 | After any path that resolves, ".." leads to the parent of where it leads, whatever kind of node is there, exactly unless its three bytes make such a text too long |
| PathWalk.StrictExactlyIf | Misc.c:211-301 | On a tree whose entries lie in directories the walk of section 4.13 of POSIX.1-2017 succeeds exactly where the plain walk does and meets no "." or ".." after something that is no directory, with the same result |
| PathWalk.RealPathIsStrict | Misc.c:167-314 | Where RealPath succeeds it gives the path that walk gives exactly if no such component is met |
| PathWalk.DotsMatter | Misc.c:226-230 | With a file "/f", "/f/.." resolves to "/" and that walk fails with ENOTDIR |
| PathWalk.NoDotsNoDifference | Misc.c:211-301 | None is met if neither the path nor the links have such components or end in a separator |
| PathLinks.LinkReplaced | Misc.c:268-299 | A link in a path text may be replaced by its text: "front/link rest" comes to the same end, error for error, as the text and the rest if the text is absolute, as "front/text rest" otherwise, with one link less; unless a text gets too long on either way |
| PathLinks.LinkReplacedExactly | Misc.c:268-299 | Without exception if path and links are so short that no text can get too long |
| PathLinks.RealPathFollowsLinks | Misc.c:268-299 | RealPath gives the same for both paths where it gives anything for both, and if no text can get too long whenever it gives anything for the path with the link |
| PathLinks.FewerLinks | Misc.c:272-274 | Links that a path does not need may be taken from the budget |
| PathLinks.TooLongStays | Misc.c:284-287 | A path whose text gets too long fails so with more links, too |
| PathLinks.NeverTooLong | Misc.c:284-287 | A text that leaves room for every link that may still be followed never gets too long |
| PathLinks.FortyLinks | Misc.c:272-274 | A chain of links is followed to its end exactly if there are no more than 40 |
| PathTexts.DotAndSeparator | Misc.c:215-226 | A separator more or a component "." changes nothing, unless a text gets too long |
| PathTexts.DotDotTakesBack | Misc.c:227-230 | ".." takes back the component before it if that exists and is no link, unless a text gets too long |
| PathTexts.DotDotAtRoot | Misc.c:228-230 | ".." at the root changes nothing |
| PathTexts.SameWhenShort | Misc.c:284-287 | The exception is void where path and links are so short that no text can get too long |
| PathTexts.OnlyBeginnings | Misc.c:276-279 | What a link's text has after its first 4095 bytes does not matter |
| PathTexts.GrowsByPages | Misc.c:247-260 | An allocator with memory for every multiple of 4096 bytes is enough for every name shorter than that |
| PathTexts.OneLongName | Misc.c:237-260 | A name of 4096 bytes or more gets just its length and the NUL more, one of 4095 another 4096, a shorter one nothing |
| DirectoryCursor.GivenIsPrefix | ReadWrite.c:105-178 | Over any calls, buffer sizes, errors and rewinds, the entries given since the last rewind are exactly the first entries of the stream |
| DirectoryCursor.RepliesFollowGiven | ReadWrite.c:105-178 | Judging by what the caller was given since the last rewind: EFI_BUFFER_TOO_SMALL reports how many bytes the very next entry takes, an entry written is that one and lies within the buffer, and the end comes only after everything |
| DirectoryCursor.KeptEntryStays | ReadWrite.c:128-135 | An entry kept back stays, with the same answer, through any further reads that are too small, errors below and seeks that do not rewind |
| DirectoryCursor.RetryDelivers | ReadWrite.c:128-177 | A retry with the size reported delivers the name the report was about |
| DirectoryCursor.ReadAllReads | ReadWrite.c:105-178 | A caller that retries with the reported size reaches one entry further each time |
| DirectoryCursor.WholeDirectory | ReadWrite.c:105-178 | Such a caller is given the whole directory and then the end |
| DirectoryCursor.TooSmallExactly | ReadWrite.c:152-167 | When an entry is due the buffer is too small exactly if the fixed part and the name in 16-bit characters with its NUL do not fit; the size then reported is what the retry writes, to the byte |
| DirectoryCursor.InfoReads | ReadWrite.c:162-167 | Whatever lies behind it in the buffer the caller reads name and size back from what was written, and would find no name in any less |
| DirectoryCursor.WrittenName | ReadWrite.c:162-177 | What a call writes, if anything, is the next entry, from which the caller reads its name |
| DirectoryCursor.SeekAnswers | ReadWrite.c:73-86 | A seek succeeds exactly for position 0 and is unsupported otherwise |
| DirectoryCursor.SeekStartsOver | ReadWrite.c:74-80 | After a seek that succeeded the caller is given the whole directory from its first entry, and then the end |
| DirectoryCursor.SeekForgets | ReadWrite.c:74-80 | What was read before such a seek does not matter for any reply after it |
| DirectoryCursor.SeekLeavesAlone | ReadWrite.c:81-83 | After a seek that is not supported every later sequence of calls gets the replies it would have got without it |
| DirectoryCursor.NothingGivenNothingLost | ReadWrite.c:121-160 | After a read that gave nothing, for whatever reason, calls that meet no error get the replies they would have got without it |
| DirectoryCursor.ErrorsReported | ReadWrite.c:121-150 | Errors are reported only when they happen: opening until the directory is open, with its code and *BufferSize untouched, reading only when no entry is kept back |
| DirectoryCursor.AsciiStrToUnicodeStr | ReadWrite.c:166-167 | The loop writes exactly the name as 16-bit characters and its NUL |
| DirectoryCursor.WriteInfo | ReadWrite.c:162-167 | Exactly the structure is written, and nothing behind it |
| DirectoryCursor.DirectoryFile.ReadDir | ReadWrite.c:105-178 | The call on the handle is the cursor's step and returns its reply; it writes exactly the bytes of that reply to the beginning of the caller's buffer, within *BufferSize, and leaves the rest alone |
| DirectoryCursor.DirectoryFile.SetPosition | ReadWrite.c:73-85 | Position 0 rewinds, any other is unsupported and changes nothing |

## Left out

- HostLock.RunExcludes: the retry loops of lock and sem_down are the caller's; a lock call is a yield and then a wait, and nothing is claimed of the recursive lock
- KernelFairness.BoundedWait: while another thread is put ahead of the line, or the running thread or one ahead in the line is or is made real-time, nothing is claimed
- KernelImplementation.Scheduler.ThreadResume: the yield that follows the locked part is a step of its own
- KernelImplementation.Scheduler.ThreadDetach: the join with timeout 0 that follows for a dead target is a step of its own
- The wait timers: a timer that fires is the step Expire, which calls thread_unblock_from_wait_queue with ERR_TIMED_OUT; the timers themselves only assert in this port
- The scheduler's queues are sequences in its fields; KernelLists relates them to the heap, operation by operation and for the wake-up loop, rather than the class holding nodes
- A thread's stack and context switch: what a thread does after thread_resched is its continuation, done when it is dispatched
- remaining_quantum and the counts of mutexes, semaphores and wait queues are unbounded integers; in C they have 32 bits
- KernelImplementation.Scheduler.ThreadCreate: takes the address of a new structure as given, one never used before; allocation and its failure, stacks, names, TLS, entry points and freeing (heap_delayed_free does nothing) are not modelled, so no address is used again
- thread_sleep, thread_block, thread_unblock (which calls thread_resched while the caller is RUNNING), thread_set_name, dumps and statistics
- Destroying a mutex, semaphore, event or wait queue
- More than one processor: pinned_cpu always allows the thread
- The DEBUG_ASSERTs that a caller must respect are conditions on the steps; none is executed
- RealPath on a tree that changes during the call, and a name that shares memory with the caller's result buffer
- Bytes are characters; nothing is claimed of encodings
- DirectoryCursor.AsciiStrToUnicodeStr: the EDK II library function is not part of this repository; the loop is its documented effect for bytes 1 to 255, each extended by a zero byte
- The file attributes LKLFillFileInfo adds to a directory entry, the file branches of read, write and seek, and the values of EFI status codes
- Times before 1970; time zone and daylight saving are fields that are kept and checked, but not reckoned with
- Driver binding, volumes, component names, Unicode collation, open, flush, dmcrypt: protocol plumbing and foreign calls
