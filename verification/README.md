# A verified model of the coroutine runtime

The runtime in `src/CoroutineLibrary` runs many coroutines ("fibers") on a few worker threads. An
`IOManager` is at once a task scheduler, an epoll loop and a timer set; hooked system calls such as
`read`, `connect` and `sleep` suspend the calling fiber instead of blocking its thread. This project
models that runtime and proves what it keeps over whole runs, in every interleaving of any number of
workers. Three smaller parts have their own files: the fd table with the socket contexts, the flags and
timeouts of hooked sockets, and the text form of IPv6 addresses.

`dafny verify dfyconfig.toml` checks everything.

## How it is laid out

| file | what it holds |
|---|---|
| `Events.dfy`, `IoManager.dfy` | fd contexts, event bits, epoll interest and the pending counter: the operations as functions with what each keeps, and the classes that update them in place |
| `Timers.dfy`, `TimerManager.dfy` | the timer set ordered by deadline only, as functions, and the classes `Timer` and `Manager` that are proved to compute them |
| `LeftOut.dfy`, `SplitReset.dfy` | what becomes of a timer that a tie kept out of the set; `Timer::reset` with its lock given up in the middle |
| `TaskQueue.dfy` | the task queue with pinned tasks |
| `Fibers.dfy`, `FiberSwitch.dfy` | `resume`, `yield`, `reset`, `MainFunc` and the three per-thread pointers, as functions over all threads and as classes |
| `Runtime.dfy` | the step system: `n` workers running `run` and `idle`, fibers running user code, `sleep`, `do_io` and `connect_with_timeout` |
| `Invariants.dfy`, `Worker*.dfy`, `Body*.dfy`, `CallSteps.dfy`, `Reachable.dfy` | the inductive invariant and its preservation by every step |
| `Guarantees.dfy`, `Shutdown.dfy`, `SingleWorker.dfy`, `LateWork.dfy`, `Stopping.dfy`, `Progress.dfy`, `CallErrno.dfy`, `CallResults.dfy`, `WakeUps.dfy` | what follows for every reachable state and every run |
| `UserCode.dfy` | what the operations of user code do to queue, timers and events, seen where they are recorded |
| `CallTimeouts.dfy`, `TimeoutFate.dfy` | a further invariant, that an unmarked call has its timeout to come, and what keeps or loses a timeout |
| `LateTask.dfy`, `LostTimeout.dfy`, `ShortRuns.dfy`, `Witness.dfy` | concrete runs that show where a promise of the design fails |
| `FdTable.dfy`, `SocketFlags.dfy`, `SocketTimeout.dfy`, `Ipv6Text.dfy` | the smaller parts |
| `Base.dfy` | `Option` and sums over sequences |

The classes update their fields as the source does; their contracts say that the new state is a function
of the old one, and the lemmas are about those functions. The step system is built from the same
functions, so one step of it is one call of a class method. In it a step is one critical section or one access to shared
state; what the workers, the kernel and the user code do between steps is arbitrary.

## What was found

The code does not keep every promise its design makes. For each of these a lemma says exactly when it happens, as an
"if and only if" or as the operation that does it, and a run leads there wherever the step system has such states:

- `IOManager::stopping` reads the timers, the pending events and the queue one after the other. With two
  workers and these reads as written, both workers can leave `run` while a fiber still sleeps
  (`LateTask`): a worker whose idle fiber has terminated still picks up tasks at the top of its loop, and
  such a task can arm a timer after another worker looked at the timers. Shutdown is quiescent iff nothing is left
  of what such tasks armed or registered after the reads of all workers (`LateWork.QuiescentIffLateWorkGone`); so it
  is if the three reads are one step, or if there is one worker, or if no worker picks up a task that late.
- A suspended `do_io` or `connect_with_timeout` can outlast its timeout and wait for its fd alone. Its timeout is still
  under way iff the call is unmarked or the callback that marked it has not reached `cancelEvent` yet
  (`TimeoutFate.TimeoutUnderWayIff`). It is lost by three kinds of step and by no other
  (`TimeoutFate.TimeoutLostIff`), and `LostTimeout` has a run for each: the callback cancels between
  `addConditionTimer` and `addEvent` of an attempt, the first or a later one, and does not find it registered; it marks the
  call between two attempts, so that the next timer does nothing; or the kernel refuses the `epoll_ctl` of its
  `cancelEvent`.
- `do_io` returns -1 with `EAGAIN`, which it is there to hide, iff its `addEvent` found the event registered: a second
  reader of one socket does not wait but fails (`CallErrno.WouldBlockIffRegistered`,
  `ShortRuns.SecondReaderGetsEagain`).
- The timer set compares deadlines only. A timer whose deadline is taken is never inserted: of two fibers
  that sleep equally long at the same time the second is lost (`ShortRuns.TiedSleeperIsLost`), and of two
  recurring timers of equal period that are due together one is (`Timers.EqualPeriodsLoseATimer`). A timer left out so
  keeps its callback and is never handed out; only its own `refresh` or `reset` brings it back, while another timer has
  the deadline it had, and that one is left out instead (`LeftOut.BackIff`, `LeftOut.StaysOut`).
- `reset` gives its lock up between taking the timer out and putting it back. A `cancel` in between puts a timer
  with a null callback into the set; a recurring one then stays for good and `stopping` never answers yes
  (`SplitReset`).
- `delEvent` drops the waiter of its event; a fiber that waits there is never resumed
  (`ShortRuns.DroppedWaiterIsLost`).
- The loop of `idle` does not mask a report by the bits that are still registered. Its assertion
  fails exactly when a report is no longer fresh: with one worker never, with two it can
  (`ShortRuns.StaleReportFailsAnAssert`).
- `connect_with_timeout` hands an interrupted `connect` to its caller; `do_io` never returns `EINTR`
  (`ShortRuns.EintrIffConnect`).
- A socket that was created non-blocking looks blocking through `F_GETFL` until the flag is set once
  (`SocketFlags.VirtualFlagsAreFaithful`).
- A timeout of `k * 2^32 * 1000 - 1` milliseconds counts as no timeout (`SocketTimeout.NoTimeoutIff`).
- `FdManager::get` with `auto_create` looks under the read lock and stores under the write lock; a context that another
  thread stored in between is replaced (`FdTable.StoreWithoutLookingAgain`).

## Assumptions

The lemmas about runs (`Runtime.Runs`) assume, step by step:

- `DistinctDeadlines`: the deadline at which a step puts a timer into the set is not taken by another timer, and user
  code gives recurring timers a positive period. `Reachable.NoneLeftOutIff` proves that this is exactly when no
  timer is left out of the set.
- `KeepsWaiters`: `delEvent` is not called on a registration a fiber waits on.
- `FreshReports`: a dispatched report names only bits that are still registered (or nothing that is). With
  one worker this is proved, not assumed, from what the next list says of other threads.

They hold by construction in the step system:

- The clock does not go back.
- Nobody outside the runtime reschedules a parked fiber, schedules anything after `stop`, adds timers or events, or
  calls `cancelEvent`, `delEvent` or `cancelAll`: what happens to the fd contexts happens on the workers. The one thing
  `stop` does to the timers, the `getNextTimer` inside `stopping`, is a step of its own.
- `epoll_ctl` fails with an errno of its own, never `EAGAIN` or `EINTR`, and nothing between the system call of `do_io`
  and a failing `addEvent` changes errno.
- The kernel's interest changes through `epoll_ctl` alone. Closing an fd that `FdManager` does not track, or closing
  one after a refused DEL, drops the kernel's entry and leaves the event bit set; no step does that.
- One step each: `Timer::reset`, the lookup and growth in `addEvent`, everything done under the lock of one fd
  context.
- An epoll wait may end at any time with any reports on registered bits.

The lemmas of `Timers` about whole runs of its own operations need
none of this: they hold with ties, and with any clock unless they say that it is monotone.

## Model

| member | source | states |
|---|---|---|
| Shutdown.QuiescentShutdown | src/CoroutineLibrary/ioscheduler.cpp:345-467 | with `stopping` read in one step, for any number of workers and every interleaving: once the idle fiber of every worker has terminated, queue, timers, event bits, epoll interest and in-flight vectors are empty, no worker holds a task and every task fiber has finished |
| Shutdown.QuiescentShutdownSplit | src/CoroutineLibrary/ioscheduler.cpp:345-350 | the same with the three reads as written, when no worker pops a task after its own idle fiber has terminated |
| Progress.NobodyIsStuck | src/CoroutineLibrary/scheduler.cpp:97-168 | in every reachable state a worker that has not left `run` can take its next step, or it is about to resume a fiber that another worker is inside, and that worker can; the step is admissible if its deadline is free and its report fresh |
| Progress.WorkLeftMoves | src/CoroutineLibrary/scheduler.cpp:156-168 | an idle fiber that stopped early strands nothing: while work is left, a worker whose idle fiber is alive moves in that sense |
| Stopping.CheckAllIff | src/CoroutineLibrary/ioscheduler.cpp:345-376 | `stopping` in one step answers yes, and the idle fiber ends, iff no timer is in the set, no event is registered, `stop` was called, no task is queued and no worker is active |
| Stopping.CheckTimersIff | src/CoroutineLibrary/ioscheduler.cpp:347-349 | the first read as written looks at the timers alone, and takes their wake-up mark away |
| Stopping.CheckPendingIff | src/CoroutineLibrary/ioscheduler.cpp:349 | the second at the pending events alone |
| Stopping.CheckQueueIff | src/CoroutineLibrary/scheduler.cpp:234-238 | the third at `stop`, the queue and the active workers |
| Stopping.ShutdownFinishes | src/CoroutineLibrary/scheduler.cpp:172-213 | from every reachable state in which `stop` was called and nothing is left to do, with the workers at any stage and holding outdated reports even, a run within all assumptions leads to one in which every worker has left `run` |
| Stopping.StopAloneFinishes | src/CoroutineLibrary/scheduler.cpp:172-213 | for every number of workers and both readings of `stopping`, `stop` on a runtime that was given nothing leads there |
| Stopping.StopLooksThenMarks | src/CoroutineLibrary/scheduler.cpp:172-181 | `stop` looks at the earliest deadline too, and then changes nothing but its mark |
| Stopping.WaitLooksFirst | src/CoroutineLibrary/ioscheduler.cpp:368-386 | a worker looks at the earliest deadline each time before it waits, and takes what the kernel reports |
| Shutdown.NextKeepsStop | src/CoroutineLibrary/ioscheduler.cpp:345-376 | every step of every worker and fiber keeps the staged shutdown invariant |
| SingleWorker.QuiescentShutdownOfOne | src/CoroutineLibrary/ioscheduler.cpp:345-467 | one worker, the three reads as written, stale reports not excluded: shutdown is quiescent |
| SingleWorker.OneWorkerReportsAreFresh | src/CoroutineLibrary/ioscheduler.cpp:400-462 | with one worker no dispatch ever meets a report that is not fresh |
| SingleWorker.SplitStoppingStrandsOnlyWaiters | src/CoroutineLibrary/ioscheduler.cpp:345-350 | reads as written, any number of workers: after all idle fibers have terminated no task is queued or held, and the state is quiescent iff there is no timer and no pending event |
| LateWork.QuiescentIffLateWorkGone | src/CoroutineLibrary/ioscheduler.cpp:345-350 | reads as written, over every run of any number of workers that ends with all idle fibers terminated: what is left was armed or registered after the first, or the second, reads of all workers, and the runtime is quiescent iff nothing of that is left |
| LateWork.LateIsByLateTask | src/CoroutineLibrary/scheduler.cpp:97-131 | and only a task that runs on a worker whose own idle fiber has terminated arms or registers anything then |
| LateTask.SplitStoppingStrandsASleeper | src/CoroutineLibrary/scheduler.cpp:97-168 | a run of two workers, reads as written, that leaves a sleeping fiber behind after both have left `run` |
| Guarantees.NoAssertFails | src/CoroutineLibrary/scheduler.cpp:133-154 | in every reachable state no assertion has failed, and a popped fiber whose mutex is free is READY |
| Guarantees.OneWorkerPerFiber | src/CoroutineLibrary/scheduler.cpp:133-154 | a fiber runs on at most one worker, and is RUNNING iff it runs on one |
| Guarantees.OneTokenPerWait | src/CoroutineLibrary/hook.cpp:117-207 | a suspended fiber is referenced exactly once over fd contexts, queue, timers, in-flight callbacks and workers; a running one not at all before it arms its wait and once after; a finished one never |
| Guarantees.CountersAreExact | src/CoroutineLibrary/scheduler.cpp:103-168 | the active counter is the number of workers between pop and decrement, the idle counter the number inside `idle`; a zero active counter means that no worker holds a task |
| Guarantees.EventsAgree | src/CoroutineLibrary/ioscheduler.cpp:123-332 | in every reachable state event bits, waiter slots, epoll interest and the pending counter agree |
| Guarantees.CallLeavesNothing | src/CoroutineLibrary/hook.cpp:117-180 | on every return path of `do_io` and `connect_with_timeout`, after any number of retries, no timer of the call is left and no fd context waits for its fiber; `do_io` hands on neither the `EINTR` nor the `EAGAIN` of a system call and never returns with `EINTR`; with `EAGAIN` it returns only after a failing `addEvent` |
| CallResults.AnswerIsTheLastOne | src/CoroutineLibrary/hook.cpp:117-180 | over every run, for `do_io` and `connect_with_timeout`: what a call is about to return is the answer of its last step in the run: the result of its last system call as it is, `ETIMEDOUT` for a marked call, for a connect the verdict of its last look at `SO_ERROR`, for a `do_io` the errno of its failed `addEvent` |
| CallResults.CallEndsIff | src/CoroutineLibrary/hook.cpp:285-358 | a system call ends a `do_io` iff its result is neither `EINTR` nor `EAGAIN` and a connect iff it is not `EINPROGRESS`; a call that was woken ends iff it is marked or a connect, one that was refused always; and where each goes on otherwise |
| CallErrno.WouldBlockIffRegistered | src/CoroutineLibrary/hook.cpp:128-160 | over every run: a `do_io` returns with `EAGAIN` iff an `addEvent` of this call found its event registered |
| ShortRuns.SecondReaderGetsEagain | src/CoroutineLibrary/ioscheduler.cpp:144-148 | a run in which a second reader of one fd is about to return with `EAGAIN` |
| Guarantees.TimeoutIsEarned | src/CoroutineLibrary/hook.cpp:113-179 | a call takes its timeout exit only if a timer armed by this same call fired, at least the timeout after the call was entered |
| Guarantees.FrontIsCovered | src/CoroutineLibrary/timer.cpp:123-209 | in every reachable state a wake-up is pending or no deadline is earlier than the last `getNextTimer` saw |
| Guarantees.SleepNeedsADistinctDeadline | src/CoroutineLibrary/hook.cpp:193-207 | a sleep arms the one reference its fiber needs iff its deadline is not taken |
| Guarantees.DelEventNeedsNoWaiter | src/CoroutineLibrary/ioscheduler.cpp:185-233 | `delEvent` keeps the reference of every fiber iff `epoll_ctl` fails or no fiber waits on the registration |
| CallTimeouts.NextKeepsTimeouts | src/CoroutineLibrary/hook.cpp:116-177 | every admissible step keeps this: a call with a timeout that has armed its timer and carries no mark has that timer armed or its callback on the way; a callback about to cancel has marked its call, knows its fd and event and is the only one; a fiber is in no slot but that of the event its call named |
| TimeoutFate.TimeoutWakesIff | src/CoroutineLibrary/hook.cpp:137-148 | the callback of a condition timer, run to its end, wakes its waiting call iff the call is not marked and `epoll_ctl` does not fail; a failing one leaves its mark |
| TimeoutFate.TimeoutUnderWayIff | src/CoroutineLibrary/hook.cpp:134-165 | in every reachable state, for every call that waits with a timeout: something pending of its timeout would wake it iff the call is unmarked or the callback that marked it is still to cancel |
| TimeoutFate.TimeoutLostIff | src/CoroutineLibrary/hook.cpp:116-177 | a step loses the timeout of a call iff it arms the timer of a call whose mark is through, or is the `cancelEvent` of the callback before the call has registered, or is that `cancelEvent` refused; a lost timeout stays lost until the waiter is taken out of its slot or `addEvent` fails |
| LostTimeout.EarlyCallbackDisarmsTheCall | src/CoroutineLibrary/hook.cpp:137-163 | a run within all assumptions after which a `do_io` in its first attempt is suspended past its timeout: the callback came before `addEvent` |
| LostTimeout.RefusedCancelDisarmsTheCall | src/CoroutineLibrary/ioscheduler.cpp:262-270 | a run in which a failing `epoll_ctl` of `cancelEvent` loses the timeout of a suspended call |
| LostTimeout.StaleCallbackDisarmsTheCall | src/CoroutineLibrary/hook.cpp:113-179 | a run within all assumptions after which a `do_io` is still suspended past its timeout with none of its timers left |
| WakeUps.WaitEndsIff | src/CoroutineLibrary/ioscheduler.cpp:235-332 | in every reachable state a step takes a waiting fiber out of its fd context iff it dispatches a report of its event or an error of its fd, cancels its event or closes its fd, and the kernel does not refuse; the fiber is in the queue then |
| ShortRuns.TiedSleeperIsLost | src/CoroutineLibrary/hook.cpp:193-207 | a run after which a second sleep of the same length leaves its fiber asleep with no reference to it |
| ShortRuns.DroppedWaiterIsLost | src/CoroutineLibrary/ioscheduler.cpp:185-233 | a run after which `delEvent` leaves a suspended fiber with no reference to it |
| ShortRuns.StaleReportFailsAnAssert | src/CoroutineLibrary/ioscheduler.cpp:424-461 | a run of two workers after which a dispatch fails the assertion of `triggerEvent`: the other worker cancelled an event the report names |
| ShortRuns.InterruptedConnect | src/CoroutineLibrary/hook.cpp:285-296 | a run in which `connect_with_timeout` is about to return `EINTR` |
| ShortRuns.EintrIffConnect | src/CoroutineLibrary/hook.cpp:117-180 | some run brings a call to the return of `EINTR` iff the call is a connect |
| Reachable.NoneLeftOutIff | src/CoroutineLibrary/timer.cpp:86-90 | from a reachable state, a step of any kind leaves every timer with a callback inside the set iff the deadline at which it puts one there is free |
| Reachable.NextKeepsInv | src/CoroutineLibrary/scheduler.cpp:80-170 | every admissible step keeps the whole invariant |
| Reachable.RunKeepsInv | src/CoroutineLibrary/ioscheduler.cpp:353-467 | every run keeps it |
| WorkerSteps.StepKeepsControl | src/CoroutineLibrary/scheduler.cpp:97-168 | a worker step keeps locks, fiber states, counters and terminated idle fibers consistent |
| WorkerSteps.TakeNextIsFifo | src/CoroutineLibrary/scheduler.cpp:97-131 | a worker takes the head of the tasks it may run and leaves the others what they see; it goes idle, or leaves `run` when its idle fiber has ended, iff there is none |
| WorkerSteps.ResumeFindsReady | src/CoroutineLibrary/fiber.cpp:126-130 | a popped fiber that can be locked is READY or finished, so the assertion of `resume` holds |
| WorkerTokens.StepKeepsTokens | src/CoroutineLibrary/ioscheduler.cpp:388-464 | after any worker step every fiber still has exactly the references it is owed, none lost and none doubled |
| WorkerTokens.TakeTokens | src/CoroutineLibrary/scheduler.cpp:103-125 | popping a task changes the number of references to no fiber and no callback: what leaves the queue is in the worker's hand |
| WorkerTokens.HandTokens | src/CoroutineLibrary/ioscheduler.cpp:388-398 | nor does handing an expired callback from the vector to the queue |
| WorkerTimeouts.ExpireWaits | src/CoroutineLibrary/ioscheduler.cpp:388-398 | a sweep keeps timers, handles and calls matched, and every call whose timer it hands out had waited for its timeout |
| BodySteps.BodyKeepsTokens | src/CoroutineLibrary/hook.cpp:193-241 | `sleep`, `close`, scheduling, event and timer operations of user code keep exactly one reference per suspended fiber |
| UserCode.NewTimerIs | src/CoroutineLibrary/timer.cpp:101-106 | `addTimer` of user code makes one timer with the period, kind and callback given and touches no other |
| UserCode.DroppedTimerIs | src/CoroutineLibrary/timer.cpp:5-24 | its `cancel` takes away one callback |
| UserCode.ResetTimerIs | src/CoroutineLibrary/timer.cpp:48-77 | its `reset` moves one timer, from now or from where its period started |
| UserCode.WatchedIs | src/CoroutineLibrary/ioscheduler.cpp:123-183 | its `addEvent` registers its callback iff the event was free and the kernel accepts |
| UserCode.ScheduledIsLast | src/CoroutineLibrary/scheduler.h:31-52 | what it schedules comes last for the workers it is meant for, and the others do not see it |
| UserCode.SleepIs | src/CoroutineLibrary/hook.cpp:193-207 | the hooked `sleep` arms one timer of its length, and its callback queues the sleeper for any thread behind what is queued then |
| UserCode.ExpiredAreCarried | src/CoroutineLibrary/ioscheduler.cpp:388-394 | the callbacks a sweep leaves with a worker are those of the due timers, in the order of their deadlines, or of all timers when the clock went back by more than an hour |
| UserCode.CarriedInOrder | src/CoroutineLibrary/ioscheduler.cpp:388-462 | the vector and then the reports of one wait are worked off in order, one per step, and the idle fiber gives control back only when none is left |
| UserCode.CallbackRuns | src/CoroutineLibrary/scheduler.cpp:145-154 | a popped callback runs user code in a fiber made for it |
| BodyTimeouts.BodyKeepsWaits | src/CoroutineLibrary/timer.cpp:5-77 | and keep every timer and every call matched, all callbacks in flight earned |
| CallSteps.RegisterKeeps | src/CoroutineLibrary/hook.cpp:150-164 | registering a call, whether `addEvent` succeeds or fails, keeps locks, references and timers in order and fails no assertion |
| CallSteps.UnarmKeeps | src/CoroutineLibrary/hook.cpp:155-170 | cancelling the timer of a call, after it was resumed or refused, keeps them: the call owns no timer from then on |
| CallSteps.CallBackKeeps | src/CoroutineLibrary/hook.cpp:137-147 | starting a queued callback (a call's timeout, a sleeper's wake-up, user code) keeps them and fails no assertion |
| Events.CtlIsLegal | src/CoroutineLibrary/ioscheduler.cpp:150-158 | the ADD, MOD or DEL chosen from old and new mask is one the kernel accepts, and interest follows the mask |
| Events.CtlIsTheOnlyChoice | src/CoroutineLibrary/ioscheduler.cpp:150-158 | ADD is accepted iff the mask in use is empty, MOD and DEL iff it is not |
| Events.EnsureContextKeeps | src/CoroutineLibrary/ioscheduler.cpp:109-140 | growth by half always reaches slot fd, shrinks nothing, keeps every context and adds nothing that waits |
| Events.TriggerKeeps | src/CoroutineLibrary/ioscheduler.cpp:40-63 | the assertion of `triggerEvent` fails iff the bit is clear; otherwise the one waiter goes to the scheduler and no other context changes |
| Events.AddEventKeeps | src/CoroutineLibrary/ioscheduler.cpp:123-183 | succeeds iff the event is not registered and the kernel does not refuse; its asserts hold; the waiter is stored once; agreement is kept |
| Events.DelEventKeeps | src/CoroutineLibrary/ioscheduler.cpp:185-233 | removes the registration with its waiter, which nobody gets; a refused `epoll_ctl` changes nothing |
| Events.CancelEventKeeps | src/CoroutineLibrary/ioscheduler.cpp:235-278 | moves the waiter to the scheduler; a refused `epoll_ctl` changes nothing |
| Events.CancelAllKeeps | src/CoroutineLibrary/ioscheduler.cpp:280-332 | moves every waiter of the fd to the scheduler and its final assertion holds |
| Events.DispatchKeeps | src/CoroutineLibrary/ioscheduler.cpp:434-461 | the dispatch of a report fails an assertion iff the report is not fresh and `epoll_ctl` is not refused; otherwise exactly the waiters of the reported bits are scheduled |
| Events.ReportTakesEvents | src/CoroutineLibrary/ioscheduler.cpp:415-461 | in terms of the report alone: an event stays registered iff it is not named and there is no error, and exactly the waiters of the events that go are scheduled; an error leaves no event of the fd |
| Events.CancelAllWaiters | src/CoroutineLibrary/ioscheduler.cpp:280-332 | `cancelAll` schedules the waiters of both events in order and leaves every other fd as it was |
| Events.DispatchIsLocal | src/CoroutineLibrary/ioscheduler.cpp:434-461 | and the interest in every other fd stays |
| Events.DispatchLoopKeeps | src/CoroutineLibrary/ioscheduler.cpp:400-462 | the whole loop over the reports keeps agreement and hands every waiter over once, when nobody else touches the table |
| IoManager.Epoll.Ctl | src/CoroutineLibrary/ioscheduler.cpp:150-158 | the kernel side: ADD only for an absent fd, MOD and DEL only for a present one |
| IoManager.Manager.constructor | src/CoroutineLibrary/ioscheduler.cpp:65-91 | 32 fresh contexts, nothing registered |
| IoManager.Manager.GrowTo | src/CoroutineLibrary/ioscheduler.cpp:109-121 | the loop of `contextResize`: old contexts stay in place, new slots get fresh contexts |
| IoManager.Manager.Ensure | src/CoroutineLibrary/ioscheduler.cpp:125-140 | lookup with growth |
| IoManager.Manager.AddEvent | src/CoroutineLibrary/ioscheduler.cpp:142-183 | updates the table in place as `Events.AddEvent` says |
| IoManager.Manager.DelEvent | src/CoroutineLibrary/ioscheduler.cpp:185-233 | as `Events.DelEvent` says |
| IoManager.Manager.TriggerEvent | src/CoroutineLibrary/ioscheduler.cpp:40-63 | clears bit and slot and schedules what the slot held |
| IoManager.Manager.CancelEvent | src/CoroutineLibrary/ioscheduler.cpp:235-278 | as `Events.CancelEvent` says, with the scheduled waiter |
| IoManager.Manager.CancelAll | src/CoroutineLibrary/ioscheduler.cpp:280-332 | as `Events.CancelAll` says, with the scheduled waiters |
| IoManager.Manager.Dispatch | src/CoroutineLibrary/ioscheduler.cpp:415-461 | one report, as `Events.Dispatch` says |
| IoManager.Manager.DispatchAll | src/CoroutineLibrary/ioscheduler.cpp:400-462 | the loop over the reports of one `epoll_wait` |
| TaskQueue.Queue.Take | src/CoroutineLibrary/scheduler.cpp:103-125 | the scan removes the first task that may run on this thread, keeps the order of all others, counts the worker as active for it, and asks for a wake-up iff the queue is not empty afterwards |
| TaskQueue.Queue.Retire | src/CoroutineLibrary/scheduler.cpp:142 | the end of a task takes the count back |
| TaskQueue.Queue.Schedule | src/CoroutineLibrary/scheduler.h:31-52 | appends a task and reports whether the queue was empty |
| TaskQueue.TakeIsFifo | src/CoroutineLibrary/scheduler.cpp:103-125 | for every queue and pinning each thread gets its eligible tasks first in, first out |
| TaskQueue.ScheduleIsLast | src/CoroutineLibrary/scheduler.h:37-45 | a new task comes after all others for the threads it may run on and is not seen by the rest |
| TaskQueue.EligibleForWithout | src/CoroutineLibrary/scheduler.cpp:117-120 | a pop takes nothing else away from any thread |
| Timers.OneFateFromStart | src/CoroutineLibrary/timer.cpp:5-77 | over every run of add, cancel, refresh, reset and sweep, with ties and any clock: a one-shot callback is handed out at most once, `cancel` returns true at most once, and one excludes the other |
| Timers.OneFate | src/CoroutineLibrary/timer.cpp:5-77 | the balance behind it: callback still there, handed out, or cancelled, exactly one of them |
| Timers.RecordKeepsBalance | src/CoroutineLibrary/timer.cpp:5-77 | each operation keeps that balance |
| Timers.NextIsEarliest | src/CoroutineLibrary/timer.cpp:123-149 | `getNextTimer` answers none iff the set is empty, 0 iff some deadline has come, and otherwise the time to a deadline before which there is no other; the wake-up mark is gone |
| Timers.SweepHandsOutIff | src/CoroutineLibrary/timer.cpp:151-180 | a timer is handed out iff its deadline has come or the clock went back by more than an hour since the last sweep |
| Timers.AddTicklesIff | src/CoroutineLibrary/timer.cpp:189-209 | an insertion leaves a wake-up pending iff one was or no timer is due earlier |
| LeftOut.OperationsGoByDeadline | src/CoroutineLibrary/timer.cpp:5-77 | `cancel`, `refresh` and `reset` of a timer with a callback take out whichever timer the set has at its deadline and no other, answer as the source does, and put theirs back unless the new deadline is taken |
| Timers.SweepHandsOutTheDue | src/CoroutineLibrary/timer.cpp:151-180 | without rollover a sweep hands out exactly the due timers, in deadline order, and every remaining deadline is later |
| Timers.SweepLive | src/CoroutineLibrary/timer.cpp:160-178 | after a sweep a handed-out one-shot is dead, a handed-out recurring timer is a period after now, every other timer is as it was |
| Timers.RolloverEmptiesTheSet | src/CoroutineLibrary/timer.cpp:157-178 | after a clock rollover a set of one-shot timers is handed out whole |
| Timers.SweepLeavesNoneOut | src/CoroutineLibrary/timer.cpp:167-172 | a sweep leaves every live timer in the set iff the new deadlines of the recurring ones are apart |
| Timers.EqualPeriodsLoseATimer | src/CoroutineLibrary/timer.cpp:167-172 | two recurring timers of equal period, due together: the sweep hands out both and puts one back |
| LeftOut.BackIff | src/CoroutineLibrary/timer.cpp:27-77 | a timer with a callback outside the set comes back by an operation iff it is its own `refresh` or `reset`, another timer has the deadline it had, and its new deadline is free then; that other timer is left out instead; no sweep hands it out |
| LeftOut.StaysOut | src/CoroutineLibrary/timer.cpp:151-195 | over every run, with ties and any clock, in which nobody refreshes, resets or cancels it: it keeps its callback, stays out and is never handed out again |
| LeftOut.RefreshSwapsEqualPeriods | src/CoroutineLibrary/timer.cpp:36-45 | after that sweep a `refresh` of the timer left out brings it back and leaves the other one out |
| Timers.FindIsTheTimer | src/CoroutineLibrary/timer.cpp:18-22 | when no live timer is outside the set, `find` by deadline returns the timer itself |
| Timers.AddLeavesNoneOut | src/CoroutineLibrary/timer.cpp:189-202 | an insertion keeps every live timer in the set iff its deadline is free |
| Timers.RefreshLeavesNoneOut | src/CoroutineLibrary/timer.cpp:27-46 | `refresh` keeps every live timer in the set iff no other timer has the new deadline |
| Timers.ResetLeavesNoneOut | src/CoroutineLibrary/timer.cpp:48-77 | so does `reset`, unless it moves nothing |
| SplitReset.ResetInHalves | src/CoroutineLibrary/timer.cpp:55-75 | with the lock given up between erase and insertion and any run of operations by other threads in between that does not take the old deadline: the timer goes back with a callback iff none of them cancelled it |
| SplitReset.RecurringNullStays | src/CoroutineLibrary/timer.cpp:160-172 | a recurring timer that went back without one is handed out and re-armed for ever: after every run without ties it is in the set, so there is a next timer |
| Timers.CancelLive | src/CoroutineLibrary/timer.cpp:5-24 | `cancel` returns true iff there was a callback, takes it away, and leaves every other timer its callback |
| Timers.RefreshLive | src/CoroutineLibrary/timer.cpp:27-46 | `refresh` moves this timer's deadline and touches no other |
| Timers.ResetLive | src/CoroutineLibrary/timer.cpp:48-77 | a `reset` that returns true gives this timer the new period and the deadline one such period after its start, or after now; one that returns false, and every other timer, changes nothing |
| Timers.FrontAlwaysCovered | src/CoroutineLibrary/timer.cpp:123-209 | over every run with a monotone clock, with or without ties: a wake-up is pending or no deadline is earlier than the last `getNextTimer` saw, although `refresh` and re-arming insert without one |
| Timers.RefreshFront | src/CoroutineLibrary/timer.cpp:42-45 | the insertion of `refresh` needs no wake-up |
| Timers.SweepFront | src/CoroutineLibrary/timer.cpp:167-172 | nor does re-arming |
| TimerManager.Timer.constructor | src/CoroutineLibrary/timer.cpp:79-84 | a deadline one period after now |
| TimerManager.Timer.Cancel | src/CoroutineLibrary/timer.cpp:5-24 | in place, as `Timers.Cancel` says for every set |
| TimerManager.Timer.Refresh | src/CoroutineLibrary/timer.cpp:27-46 | as `Timers.Refresh` |
| TimerManager.Timer.Reset | src/CoroutineLibrary/timer.cpp:48-77 | as `Timers.Reset`, and true without a change for an unchanged period that is not from now |
| TimerManager.Manager.Find | src/CoroutineLibrary/timer.cpp:86-90 | the first element with an equal deadline, whichever timer it is |
| TimerManager.Manager.Insert | src/CoroutineLibrary/timer.cpp:189-195 | in order, and dropped on a tie |
| TimerManager.Manager.AddTimer | src/CoroutineLibrary/timer.cpp:101-106 | a new timer, inserted, with a wake-up iff it is the front and none is pending |
| TimerManager.Manager.AddExisting | src/CoroutineLibrary/timer.cpp:189-209 | the same for a timer that exists |
| TimerManager.Manager.GetNextTimer | src/CoroutineLibrary/timer.cpp:123-149 | time to the earliest deadline, never negative, none for an empty set; clears the wake-up mark |
| TimerManager.Manager.DetectClockRollover | src/CoroutineLibrary/timer.cpp:211-221 | true iff the clock went back more than an hour |
| TimerManager.Manager.ListExpired | src/CoroutineLibrary/timer.cpp:151-180 | the loop ends and computes `Timers.Sweep`, callbacks in order |
| TimerManager.Manager.ExpireFront | src/CoroutineLibrary/timer.cpp:162-177 | one round of that loop |
| TimerManager.RoundGoesOn | src/CoroutineLibrary/timer.cpp:160 | the loop goes on while fewer than the due timers are out, and its front is the next of the original ones |
| TimerManager.RoundStops | src/CoroutineLibrary/timer.cpp:160 | and stops then: a re-armed timer is not due again |
| Fibers.EveryRunIsBracketed | src/CoroutineLibrary/fiber.cpp:126-194 | over every run, fibers moving between any number of threads: no assertion of `resume`, `yield` or `reset` fails, and on each thread the RUNNING fibers are the chain thread fiber, scheduler fiber, task, with `t_fiber` its last |
| Fibers.YieldReturnsToTheResumer | src/CoroutineLibrary/fiber.cpp:152-179 | `GetThis` is the fiber that executes, and its `yield` gives control to the fiber that resumed it last, on the thread that executes the `yield` |
| Fibers.ResumeBrackets | src/CoroutineLibrary/fiber.cpp:126-150 | `resume` keeps every saved context its own iff its caller is the fiber whose context it saves into |
| Fibers.YieldBrackets | src/CoroutineLibrary/fiber.cpp:152-179 | `yield` does iff it is called on the fiber that runs and that is not the thread fiber |
| Fibers.YieldLeaves | src/CoroutineLibrary/fiber.cpp:181-194 | `yield` and the end of `MainFunc` take the fiber off its thread and leave it READY or TERM |
| Fibers.NewTaskRuns | src/CoroutineLibrary/scheduler.cpp:127-154 | a fresh task on a thread that executes its scheduler fiber can be resumed, executes then, and gives control back to that scheduler fiber when it yields or ends |
| Fibers.ResetStartsAnew | src/CoroutineLibrary/fiber.cpp:107-124 | reset takes exactly a fiber that has ended; whatever context that held, its next resume executes its own code, on every thread where there is a fiber to come back to |
| Fibers.CallerSchedulerRuns | src/CoroutineLibrary/scheduler.cpp:29-43 | the scheduler fiber made for the caller's thread can be resumed by `stop` and is what the thread executes then |
| Fibers.CallKeeps | src/CoroutineLibrary/scheduler.cpp:88-168 | each call the scheduler, the hooks and `MainFunc` make keeps the bracketing |
| Fibers.UnclaimedIsReady | src/CoroutineLibrary/scheduler.cpp:135-141 | a fiber whose lock is free is not RUNNING |
| Fibers.UseCallerKeeps | src/CoroutineLibrary/scheduler.cpp:29-43 | making a scheduler fiber for the calling thread keeps it |
| FiberSwitch.Thread.GetThis | src/CoroutineLibrary/fiber.cpp:27-40 | the current fiber, made when there is none |
| FiberSwitch.Fiber.Resume | src/CoroutineLibrary/fiber.cpp:126-150 | in place, as `Fibers.Resume` says for all threads and fibers |
| FiberSwitch.Fiber.Yield | src/CoroutineLibrary/fiber.cpp:152-179 | as `Fibers.Yield` |
| FiberSwitch.Fiber.Reset | src/CoroutineLibrary/fiber.cpp:107-124 | as `Fibers.Reset` |
| FdTable.FreshTableRefinesMap | src/CoroutineLibrary/fd_manager.cpp:94-143 | every run of `get` and `del` from the initial 64 slots returns what a partial map from fd to context returns, and never writes past the end |
| FdTable.TableRefinesMap | src/CoroutineLibrary/fd_manager.cpp:99-143 | the same from any table of two slots or more |
| FdTable.StoreIsTheMap | src/CoroutineLibrary/fd_manager.cpp:122-129 | growth to `fd * 1.5` makes fd a slot iff it was one or fd is at least 2, shrinks nothing, and changes the map at fd alone |
| FdTable.DeleteIsTheMap | src/CoroutineLibrary/fd_manager.cpp:135-143 | `del` removes fd from the map and nothing else; the size stays |
| FdTable.LookupIsTheMap | src/CoroutineLibrary/fd_manager.cpp:101-117 | a lookup is the map's, for -1, other negative and far fds too |
| FdTable.StoreWithoutLookingAgain | src/CoroutineLibrary/fd_manager.cpp:119-130 | the second half of `get` keeps every stored context iff none was stored at fd in between |
| FdTable.FdManager.Get | src/CoroutineLibrary/fd_manager.cpp:99-133 | the vector updated in place: an existing context is returned, a missing one made on request, all others stay |
| FdTable.FdManager.Del | src/CoroutineLibrary/fd_manager.cpp:135-143 | removes the context of fd alone |
| FdTable.FdCtx.constructor | src/CoroutineLibrary/fd_manager.cpp:17-68 | marks from `fstat`, no timeouts, not closed |
| SocketFlags.VirtualFlagsAreFaithful | src/CoroutineLibrary/hook.cpp:458-501 | any run of `F_SETFL`, `F_GETFL` and `FIONBIO` shows the flags of a plain socket iff the socket was created blocking or the run does not start by looking |
| SocketFlags.KernelStaysNonblocking | src/CoroutineLibrary/hook.cpp:468-479 | the kernel keeps the socket non-blocking iff the last command of the run that sets a flag is not `FIONBIO` with 0 |
| SocketFlags.NoFionBioNeverCleared | src/CoroutineLibrary/hook.cpp:458-501 | so runs without `FIONBIO` always leave it non-blocking |
| SocketFlags.InitSocket | src/CoroutineLibrary/fd_manager.cpp:47-62 | sets the kernel's flag and leaves the user's mark clear |
| SocketFlags.FcntlSetFl | src/CoroutineLibrary/hook.cpp:458-479 | in place; an untracked fd passes straight through |
| SocketFlags.FcntlGetFl | src/CoroutineLibrary/hook.cpp:482-500 | the kernel's flags with the user's mark in place of the bit |
| SocketFlags.IoctlFionBio | src/CoroutineLibrary/hook.cpp:559-577 | sets the mark and passes the argument on |
| SocketTimeout.RoundTrip | src/util/socket.cc:87-98 | what is read back is what was set iff its whole seconds fit an int, positive or negative |
| SocketTimeout.NoTimeoutIff | src/CoroutineLibrary/hook.cpp:593-601 | a timeout counts as none iff it is -1 up to a multiple of 1000 * 2^32 |
| SocketTimeout.StoredValue | src/util/socket.cc:82-85 | the value in between, through the truncating divisions and the int casts |
| SocketTimeout.MillisAreWhole | src/CoroutineLibrary/hook.cpp:593-601 | of any proper timeval that fits the whole milliseconds are stored |
| SocketTimeout.SetSockOpt | src/CoroutineLibrary/hook.cpp:584-605 | stores the timeout of one direction and leaves the other, with hooks on and a tracked fd |
| SocketTimeout.Socket.SetTimeout | src/util/socket.cc:82-98 | the setters |
| SocketTimeout.Socket.GetTimeout | src/util/socket.cc:74-93 | the getters, -1 for an untracked fd |
| SocketTimeout.Socket.SetThenGet | src/util/socket.cc:87-98 | setter, then getter, on the object |
| Ipv6Text.RoundTrip | src/util/address.cc:412-436 | for every address and port, a reader that follows section 2.2 of RFC 4291 gets both back from the text |
| Ipv6Text.AddressRoundTrip | src/util/address.cc:412-436 | the eight groups, and "::" is there iff some group is zero |
| Ipv6Text.TextIsInjective | src/util/address.cc:412-436 | different addresses or ports have different texts |
| Ipv6Text.AtMostOneGap | src/util/address.cc:419-430 | "::" stands at most once, whether the run of zeros leads, is in the middle or ends the address |
| Ipv6Text.TextIsPlain | src/util/address.cc:412-436 | lower-case digits, colons and brackets and nothing else |
| Ipv6Text.Insert | src/util/address.cc:412-436 | the loop with its flag writes exactly that text |

## Left out

- `ucontext` stacks, pthreads, `dlsym` and the real system calls; a context is represented by the fiber whose code goes on when it is loaded.
- Tickling: the pipe and its bytes. `epoll_wait` may return at any time, so nothing is claimed about how soon a queued task runs; a worker may sleep up to 5000 ms with a non-empty queue. The scheduler's counter of idle threads is modelled as a count, its use as a filter for tickles is not.
- Termination of `listExpiredCb` when a rollover meets a recurring timer: it reinserts forever.
- Clock granularity: times are whole milliseconds, so the truncation of a nanosecond difference in `getNextTimer` does not show. `listExpiredCb` and the rollover check read the clock once instead of twice.
- The growth of the context table without looking again under the write lock is one step. `Timer::reset` is one step of the runs; its two halves are treated by themselves in `SplitReset`.
- TimerManager.Manager.ListExpired: requires that the loop ends, which the source does not check.
- FdTable.FdManager.Get: requires fd >= -1 when a context may be created; below that the source converts a negative `double` to `size_t`.
- IoManager.Manager.AddEvent: its precondition is the source's assertion that the slot is blank; `Events.AddEventKeeps` proves it from the agreement of bits and slots. The same holds for the preconditions of `CancelAll`, `Dispatch` and `TriggerEvent`.
- The first tests of `do_io` and `connect_with_timeout` (hooks off, an fd that is untracked, closed, not a socket or non-blocking for the user): the call goes straight to the system call or fails at once.
- The loops of `run` and `do_io` as methods: other workers act between their steps, so they are program counters of the step system.
- `cancelEvent`, `delEvent` and `cancelAll` return true when `epoll_ctl` fails; modelled as such, with the state unchanged.
- Flags are sets of bit positions; only the commands `F_SETFL`, `F_GETFL` and `FIONBIO` are modelled.
- Liveness of tasks pinned to a worker that has left `run`: the repository schedules with thread -1 only.
- The base class's own `idle`, whose `sleep` needs an `IOManager`.
- `networdAddress`, `subnetMask`, `broadcastAddress` and the IPv4 text form; the canonical form of RFC 5952, which the printer does not follow.
- `TcpServer`, HTTP, the MySQL pool, SSL, logging, configuration, `Semaphore`, byte swapping: input and output, or easy members only.
