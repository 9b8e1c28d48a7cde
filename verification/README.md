# A model of the sylar coroutine runtime

This project models, in Dafny, the coroutine runtime of the sylar framework -- the scheduler and its
fibers, the IO manager, the timer manager and the hooked blocking calls -- together with three smaller
algorithms beside it: the log-pattern parser, the listener that reconfigures the loggers, and the loading
of a configuration tree. `dafny verify dfyconfig.toml` checks all of it.

| file | what it holds |
| --- | --- |
| `Runtime.dfy`, `RuntimeEffects.dfy`, `RuntimeProofs.dfy` | N workers over one queue as a step machine: pick, swapIn, yield, decrement and post-processing are steps of their own, as are queueing and counting down in `triggerEvent`, and taking and queueing expired callbacks; a sleep is a timer whose callback is bound to wake its fiber, and a callback that is through leaves its fiber to the next one its worker dispatches. What a step does to what is held of a task, and the invariants |
| `RuntimeTheorems.dfy`, `RuntimeQueue.dfy`, `RuntimeLife.dfy`, `RuntimeStop.dfy`, `RuntimeDrain.dfy`, `RuntimeClients.dfy` | what holds in every interleaving: exclusive execution and conservation, the order and the pins of the queue, the life of a task, when workers stop, draining, and why clients built from the hooked calls keep to the rule of one wake source |
| `RuntimeCollision.dfy`, `RuntimeExamples.dfy` | why that rule is needed, and runs in which something goes wrong |
| `SchedulerSpec.dfy`, `SchedulerOrder.dfy`, `Scheduler.dfy` | the scheduler whose only worker is its caller: the objects (`Scheduler`, `Fiber`, the spare callback fiber), tied to a value-level loop whose termination, order and result are proved |
| `TimerSpec.dfy`, `TimerOrder.dfy`, `TimerManager.dfy`, `TimerRuns.dfy`, `TimerHistory.dfy`, `TimerDeadlines.dfy` | the timer set as values, its order, the objects that implement it, what holds over runs, and the agreement of expiry with the wait of the idle loop |
| `IoSpec.dfy`, `IOManager.dfy`, `IoRuns.dfy` | event registrations as a map, the fd contexts, slots, counter and kernel interest set that implement it, and what holds over runs |
| `DoIo.dfy`, `DoIoProofs.dfy`, `DoIoTheorems.dfy`, `DoIoOutcomes.dfy`, `DoIoExamples.dfy` | the parking protocol of `do_io` and `connect_with_timeout`, for any number of fibers over the registrations of `IoSpec.dfy`: timeouts, readiness reports, `cancelAll` and other users race for a registration |
| `Pattern.dfy` | the log-pattern language and the index scan of `LogFormatter::init` |
| `Reconfigure.dfy`, `Loggers.dfy` | the listener of the `logs` variable, on values and on objects |
| `ConfigTree.dfy`, `ConfigPaths.dfy` | `ListAllMember` and `LoadFromYaml`, and what they come to in terms of the keys that lead to a node |

Objects whose methods change their fields are classes. Each carries a ghost value (`v`, `q`, `reg`, `st`)
that `Valid()` ties to the real fields; every method states its whole effect as one step on that value, and
the properties are lemmas about those steps and about runs of them. Clocks, the results of `epoll_ctl`, the
reports of `epoll_wait` and the outcome of system calls are parameters, so every result holds for all of them.

## Assumptions that are part of the results

* Exclusive execution, the conservation of tasks, `FinishedForGood` and `StoppingMeansDrained` are about clients that
  keep to one rule, `OneWakeSource`: a fiber has at most one outstanding wake-up, and none when it gives itself up as READY
  or ends; and nobody schedules the fiber of a task that is through, because that fiber may be another task's by
  then. `SecondWakeCollides` shows that breaking the first half can always end in the ASSERT of `swapIn`, and
  `StaleHandleAborts` is a run that breaks only the second half and does. `HookedClientsAreExclusive` shows that
  clients built from `do_io`, `connect_with_timeout`, `sleep`, `switchTo` and the yields keep to the rule by
  themselves.
* Everything else about the scheduler machine -- the counters, sleepers, triggered waiters, draining -- holds in
  every run, whatever its clients do.
* `DrainOnStop` is about the caller-only configuration. For any number of workers `OrderlyDrain` needs that
  no stop test succeeds while a worker has an open hand and that nobody submits after the first one that
  does; `StoppingMeansDrained` says exactly when a stop test is right, and `TwoWorkersStopEarly` is a run
  with two workers in which it is wrong.
* A run of the IO manager is one that no ASSERT ends; `AbortsExactly` says when one does.
* `NoLostWakeUp` and `RecurringSpacing` take a clock that does not go back and deadlines below 2^64.

## Where the code does less than it promises

* `%%` is no escape: nowhere does it stand for one `%` of text (`DoublePercentNeverEscapes`); one `%` becomes
  text and the second is read as if it stood alone (`DoublePercent`).
* An unterminated `{` puts an error text into the output but does not set the error flag. There is one exactly
  if the pattern ends inside a `{` (`BrokenExactly`, for every pattern), which with no `}` inside a name means
  that a `%` with letters and a `{` stands behind the last `}` (`UnclosedClosedForm`). The flag misses it exactly
  if, besides, every name is known (`OpenBraceMissedExactly`); `%d{` is such a pattern (`OpenBraceIsNoError`).
* `LogDefine::operator==` compares the appenders with themselves, so a change of appenders alone is lost
  (`AppenderChangeLost`; `AgreesExactly` and `RequestExactly` give the exact condition).
* The list of characters allowed in a configuration name lacks the digit 9 and capital letters. No variable
  with one of them can be registered (`Lookup`), and a YAML key with one of them loses its whole subtree, as
  if it were not there (`SubtreeLostExactly`, `NotAllowed`).
* A deadline of 2^31 ms or more ahead may turn negative in the cast to `int`, and then `epoll_wait` waits
  without limit (`FarDeadlineWaitsForever`; `WaitBounded` is the exact condition).
* While the previous time is below one hour, any step back of the clock counts as a rollover
  (`RolloverExactly`).
* The timeout of a waiting fiber can get lost: with more than one worker by running before the event is added
  (`TimeoutLost`), with one worker exactly by `epoll_ctl` failing under its `cancelEvent`
  (`OneWorkerLosesExactly`, `FailedCancelLoses`). `TimeoutSpentExactly` says for every state whether timers
  can still wake the fiber.
* The timeout flag is shared by the rounds of one `do_io` call, so a callback left over from an earlier
  round makes a later round time out early (`EarlyTimeout`), and nothing else does (`EarlyTimeoutExactly`).
* A worker runs its next callback on the fiber of the last one that is through. Code that kept a handle on that
  fiber and schedules it wakes the wrong task, and two workers can meet on it (`StaleHandleAborts`).
* A task pinned to a thread that is no worker keeps the scheduler from ever stopping
  (`PinnedElsewhereNeverStops`), and a fiber that yields as READY loses its pin (`Schedulers.Scheduler.RunFiber`).
* A second `stop()` with new work in the queue runs into the assertion behind the root fiber's function
  (`Schedulers.Scheduler.Stop`).

## Model

| member | source | states |
|---|---|---|
| RuntimeQueue.PickExactly | sylar/src/scheduler.cc:163-194 | a worker picks exactly if some entry is for any thread or for it and its fiber is not EXEC; it takes the first such entry and leaves the order of the rest |
| RuntimeQueue.IdleWorkerFindsWork | sylar/src/scheduler.cc:250-263 | a worker in its idle fiber that yields comes back and can pick what is open to it |
| RuntimeQueue.ServedByItsThread | sylar/src/scheduler.cc:169-174 | in every run a task scheduled for a thread goes to the end of the queue and is picked by that worker alone until it is queued again |
| RuntimeQueue.OnlyClientsPin | sylar/include/scheduler.h:57-123 | in every run an entry for one thread was asked for by a client; triggers, timers and READY fibers are never pinned |
| RuntimeQueue.NeverOvertaken | sylar/include/scheduler.h:115-123 | in every run an entry that nobody has picked never gets further back in the queue, and keeps its task and thread |
| RuntimeQueue.OrderKept | sylar/include/scheduler.h:115-123 | and what is behind it stays behind it |
| RuntimeEffects.Effects | sylar/src/scheduler.cc:158-265 | what each step of a worker or client moves between queue, hands, fibers, waiter slots, sleeps and timers, for every task; a fiber handed on takes with it whatever is held of it |
| RuntimeInvariant.SaneStep | sylar/src/scheduler.cc:158-265 | whatever clients do, a step keeps that held tasks are known, tasks in EXEC are on a worker, stranded ones are accounted for, sleepers have their callback on its way, and both counters count |
| RuntimeInvariant.RunSane | sylar/src/scheduler.cc:158-265 | so does every run, for any number of workers |
| RuntimeInvariant.StepInv | sylar/src/scheduler.cc:158-265 | under the rule of one wake source a step keeps besides that no task has two wake-ups or two workers, and that no ASSERT has failed |
| RuntimeInvariant.RunInv | sylar/src/scheduler.cc:158-265 | so does every run under the rule |
| RuntimeInvariant.PickedIsFree | sylar/src/fiber.cc:152-159 | what a worker has picked is on no worker and is not EXEC when it is swapped in |
| RuntimeInvariant.SwapInWorks | sylar/src/scheduler.cc:216-236 | the spare fiber a callback is given is that of a task which is through and which nobody holds on to, so neither reset nor swapIn fails |
| RuntimeTheorems.ExclusiveExecution | sylar/src/scheduler.cc:199-242 | in every state clients under the rule can reach, no fiber is on two workers and the ASSERTs of swapIn and reset have not failed and cannot fail next |
| RuntimeTheorems.NotPickedBeforeHold | sylar/src/scheduler.cc:163-213 | a fiber on its way out, wake-up queued or not, is not picked before its worker has marked it HOLD |
| RuntimeCollision.SecondWakeCollides | sylar/src/fiber.cc:155 | the rule is needed: if a fiber whose wake-up is queued or held by an fd context is scheduled once more while two workers are about to pick, some continuation fails an ASSERT |
| RuntimeExamples.TwoWakeSourcesAbort | sylar/src/fiber.cc:155 | a run with two outstanding wake-ups of one fiber in which the ASSERT of swapIn fails |
| RuntimeExamples.StaleHandleAborts | sylar/src/scheduler.cc:216-236 | a run in which every fiber has one wake source, but a handle on the fiber of a finished callback is scheduled, and the ASSERT fails |
| RuntimeTheorems.TaskConservation | sylar/src/scheduler.cc:158-265 | in every state clients under the rule can reach, a submitted task is in exactly one of queue, hand, waiter slot, timer, asleep, executing, parked with no wake-up, withdrawn, finished |
| RuntimeTheorems.SleeperIsWoken | sylar/src/hook.cc:215-256 | in every run a sleeper has its wake-up outstanding: the callback that is to wake it is in its timer, in a hand, queued or running |
| RuntimeTheorems.SubmittedStays | sylar/include/scheduler.h:57-69 | no run forgets a submitted task |
| RuntimeLife.LifeCycle | sylar/src/scheduler.cc:199-242 | in every run a task's state changes only so: made INIT, EXEC by swapIn, READY, TERM or EXCEPT by its own leave, HOLD by the worker it has left if it is none of these |
| RuntimeLife.WorkerCycle | sylar/src/scheduler.cc:158-265 | each step of a worker takes it exactly one place further in its loop, only a failed stop test leaves it, and no other worker moves |
| RuntimeLife.NeverStuck | sylar/src/scheduler.cc:199-263 | in every run each worker can go on where it stands; what it has picked is entered if not through and dropped if it is |
| RuntimeLife.FinishedForGood | sylar/src/fiber.cc:211-247 | under the rule, a task that returned stays TERM and one that threw stays EXCEPT |
| RuntimeLife.NeverNewAgain | sylar/src/fiber.cc:152-202 | in every run a task once begun is never INIT again |
| RuntimeLife.ReadyComesBack | sylar/src/scheduler.cc:204-208 | in every run a READY fiber is queued, in a hand, or on the worker it is leaving, which queues it last and unpinned |
| RuntimeTheorems.ActiveThreadCount | sylar/src/scheduler.cc:189-247 | in every run the active count is the number of workers between pick and the return of swapIn, on all three branches, and the pending count that of waiters registered or in the middle of being triggered |
| RuntimeTheorems.NoGapAfterTrigger | sylar/src/iomanager.cc:294-295 | in every run a triggered waiter is queued before its share of the pending count goes, and stays queued until a pick takes it out |
| RuntimeTheorems.StoppingMeansDrained | sylar/src/iomanager.cc:359-365 | when the stop test holds, under the rule, all tasks are settled if and only if no worker has an open hand |
| RuntimeStop.NobodyLeavesEarly | sylar/src/scheduler.cc:271-280 | in every run without a call of stop() no idle fiber ends and no worker leaves its loop |
| RuntimeStop.CallerWorksInStop | sylar/src/scheduler.cc:82-132 | in every run the calling thread's worker has not started before stop() is called; the scheduler's own threads work from the beginning |
| RuntimeStop.StoppingExactly | sylar/src/iomanager.cc:359-365 | in every run the stop test holds if and only if stop() was called, no timer, registration, trigger under way or entry is left, and no worker is between pick and the return of swapIn |
| RuntimeStop.StopsExactly | sylar/src/iomanager.cc:359-365 | exactly then does the test of an idle fiber end it, and stop() return without entering the loop |
| RuntimeStop.LeavesExactly | sylar/src/scheduler.cc:250-263 | a worker leaves its loop exactly when it finds nothing to pick after its idle fiber has ended, or so at its start |
| RuntimeExamples.TwoWorkersStopEarly | sylar/src/scheduler.cc:204-208 | with two workers the stop test can hold while a READY fiber is in neither queue nor count |
| RuntimeDrain.OrderlyDrain | sylar/src/iomanager.cc:359-365 | any number of workers, any clients: if no stop test succeeds while a worker has an open hand and nobody submits after the first that does, then from it on queue, counters, timers, sleepers and registrations are empty and every task is settled |
| RuntimeDrain.LatchHolds | sylar/src/scheduler.cc:250-263 | with the caller as only worker every run is of that kind |
| RuntimeDrain.DrainOnStop | sylar/src/scheduler.cc:82-132 | every caller-only run, recurring timers included: when stop() has returned, queue, counters, timers, sleepers and registrations are empty and every task is finished, withdrawn, or parked with no wake-up |
| RuntimeDrain.PinnedElsewhereNeverStops | sylar/src/scheduler.cc:169-174 | a task pinned to a thread that is no worker stays queued in every run, and no worker ever leaves its loop |
| RuntimeClients.HookedKeepsRule | sylar/src/hook.cc:215-256 | a fiber that sets up one wake-up and then only yields for it gives no second one, and schedules nobody who is through |
| RuntimeClients.HookedClientsAreExclusive | sylar/src/hook.cc:98-204 | clients built from the hooked calls keep to the rule of one wake source in every run, so no fiber of theirs is on two workers and the ASSERTs of swapIn and reset hold |
| RuntimeClients.CarefulClientsFinish | sylar/src/scheduler.cc:82-132 | caller-only, if clients hold only for a wake-up they have set up and take none back by delEvent: when stop() has returned every task is finished or was cancelled with its timer |
| SchedulerSpec.SliceAccounts | sylar/src/fiber.cc:211-247 | running a fiber until it leaves neither loses nor doubles the end of any task |
| SchedulerSpec.StepAccounts | sylar/src/scheduler.cc:158-265 | each turn of the loop keeps every task's end accounted for and strictly reduces the work left |
| SchedulerSpec.StepServes | sylar/src/scheduler.cc:199-242 | a queued fiber stays queued until it finishes or holds, and so does every fiber made on the way |
| SchedulerSpec.DrainEmpties | sylar/src/scheduler.cc:141-265 | draining ends with an empty queue and every task's end accounted for |
| SchedulerSpec.DrainServes | sylar/src/scheduler.cc:141-265 | every fiber queued or made on the way ends finished or on HOLD, and finished if no task holds |
| SchedulerSpec.DrainFinishesEverything | sylar/src/scheduler.cc:141-265 | if no task holds and no unfinished fiber is off the queue, every task ends exactly as often as it was scheduled |
| SchedulerSpec.DrainFinishesExactly | sylar/src/scheduler.cc:141-265 | of the fibers there were, draining finishes exactly those queued or finished before |
| SchedulerSpec.OffTheQueue | sylar/src/scheduler.cc:158-265 | a fiber that is not queued is left untouched |
| SchedulerOrder.FirstComeFirstServed | sylar/src/scheduler.cc:158-265 | a turn takes the first node; the others keep their places ahead of what the task schedules, and a task that yields as READY comes after that, unpinned |
| SchedulerOrder.SliceQueues | sylar/include/scheduler.h:57-69 | a task queues exactly what it schedules before it leaves, in order, as fiber or callback, for the thread it asks for |
| SchedulerOrder.FibersMade | sylar/src/scheduler.cc:216-242 | a turn makes one fiber for each that the task schedules, and one more exactly for a callback that is not through |
| SchedulerOrder.TurnLeavesAs | sylar/src/scheduler.cc:199-215 | after its turn a fiber is READY, HOLD, TERM or EXCEPT as its task left it |
| SchedulerOrder.DrainKeepsEnd | sylar/src/fiber.cc:211-247 | however long it takes, a fiber that has finished is TERM if its task returned and EXCEPT if it threw |
| Schedulers.Fiber.Reset | sylar/src/fiber.cc:115-132 | a fiber that never ran or has finished starts over with a new function |
| Schedulers.Scheduler.constructor | sylar/src/scheduler.cc:16-41 | a new scheduler is empty, idle and stopping |
| Schedulers.Scheduler.Start | sylar/src/scheduler.cc:63-79 | without threads, start() only clears the stopping flag |
| Schedulers.Scheduler.ScheduleNoLock | sylar/include/scheduler.h:115-123 | a node goes to the end of the queue unless empty; the result says whether the queue was empty |
| Schedulers.Scheduler.ScheduleCallback | sylar/include/scheduler.h:57-69 | a callback is queued last, with its thread; a tickle is due if the queue was empty |
| Schedulers.Scheduler.ScheduleFiber | sylar/include/scheduler.h:57-69 | a fiber is queued last, known before or not |
| Schedulers.Scheduler.ScheduleBatch | sylar/include/scheduler.h:71-85 | the fibers or callbacks are queued in order, the caller's slots are emptied, a tickle is due if the queue was empty and the batch was not |
| Schedulers.Scheduler.PickTask | sylar/src/scheduler.cc:163-194 | takes out and counts the first runnable node, keeps the order of the rest, and says whether others are to be woken |
| Schedulers.Scheduler.SwapIn | sylar/src/fiber.cc:152-202 | the fiber runs to where it next leaves and is left in the state it left with |
| Schedulers.Scheduler.RunFiber | sylar/src/scheduler.cc:199-215 | a READY fiber is queued again unpinned, one that neither finished nor is READY is put on HOLD, the count goes down |
| Schedulers.Scheduler.RunCallback | sylar/src/scheduler.cc:216-242 | the same for a callback, which runs on the spare fiber; that fiber is kept only if the callback is through |
| Schedulers.Scheduler.Dispatch | sylar/src/scheduler.cc:199-249 | the three branches for a picked node, a finished fiber being dropped |
| Schedulers.Scheduler.Turn | sylar/src/scheduler.cc:158-265 | one turn of the loop is one step of the value-level loop, or a stay in the idle fiber, or the end |
| Schedulers.Scheduler.Run | sylar/src/scheduler.cc:141-265 | run() ends, with queue and counts empty, in the state the queue drains to |
| Schedulers.Scheduler.Stop | sylar/src/scheduler.cc:82-132 | stop() drains the queue, and fails exactly if the root fiber has run before and the queue is not empty; if no task holds and no unfinished fiber is off the queue, every fiber has then finished and every task has ended exactly as often as it was scheduled |
| TimerOrder.StepValid | sylar/src/timer.cc:44-226 | every operation keeps the set strictly sorted by deadline and address, with one entry a timer |
| TimerOrder.RearmValid | sylar/src/timer.cc:184-195 | re-arming keeps the order and adds exactly the recurring timers, a period from now |
| Timers.Timer.constructor | sylar/src/timer.cc:29-37 | the first deadline is now plus the period, with wrap-around |
| Timers.Timer.Cancel | sylar/src/timer.cc:44-55 | succeeds exactly if the callback is there; the unchecked erase always finds its timer |
| Timers.Timer.Refresh | sylar/src/timer.cc:58-72 | moves the timer to now plus its period, outside the set while its key changes |
| Timers.Timer.Reset | sylar/src/timer.cc:75-99 | the same with a new period, from now or from its start, through addTimer |
| Timers.TimerManager.LowerBound | sylar/src/timer.cc:173 | the first timer not before a deadline and address |
| Timers.TimerManager.Find | sylar/src/timer.cc:50 | finds a timer exactly if it is in the set |
| Timers.TimerManager.AddTimerLocked | sylar/src/timer.cc:200-213 | inserts in order, and reports a new front once until the latch is cleared |
| Timers.TimerManager.AddTimer | sylar/src/timer.cc:110-116 | a new timer is made and added under the lock |
| Timers.TimerManager.GetNextTimer | sylar/src/timer.cc:135-148 | clears the latch and gives the time to the first deadline, 0 if due, the largest value if there is none |
| Timers.TimerManager.DetectClockRollover | sylar/src/timer.cc:216-226 | the rollover test with its unsigned subtraction; the time is remembered |
| Timers.TimerManager.CutAt | sylar/src/timer.cc:170-178 | wherever the probe lies in memory, the cut is after exactly the due timers |
| Timers.TimerManager.FireOne | sylar/src/timer.cc:186-193 | hands out one callback; the timer goes back in a period from now, or loses its callback |
| Timers.TimerManager.FireAll | sylar/src/timer.cc:184-195 | all callbacks, in order, and all recurring timers back in the set |
| Timers.TimerManager.ListExpiredCb | sylar/src/timer.cc:151-196 | one expiry, with its early returns |
| TimerRuns.StepMembers | sylar/src/timer.cc:44-116 | add, cancel, refresh and reset do to their timer what they say and leave every other one as it is |
| TimerRuns.OneShotExactlyOnce | sylar/src/timer.cc:44-55 | over every run a one-shot timer is emitted plus cancelled at most once, and exactly once if and only if it has left the set |
| TimerRuns.NoEmissionAfterCancel | sylar/src/timer.cc:44-55 | a cancelled timer is out of the set and no later operation emits it |
| TimerRuns.NoLostWakeUp | sylar/src/timer.cc:58-98 | either one front notification is out, or no deadline is before the one the idle loop last saw |
| TimerRuns.RecurringSpacing | sylar/src/timer.cc:184-195 | a recurring timer that was not reset fires again only a full period later |
| TimerHistory.ExpiryOverRuns | sylar/src/timer.cc:151-226 | over every run an expiry hands out exactly the timers that are due, and the others too if the clock has gone back by more than an hour since the last expiry that found timers, or at all if that was within the first hour |
| TimerHistory.SecondExpiry | sylar/src/timer.cc:216-226 | of two expiries the second fires everything if the clock went back by more than an hour in between, else what is due |
| TimerHistory.FrontExactly | sylar/src/timer.cc:200-213 | a new front is reported exactly for a timer added, or really reset, that is now first, once until getNextTimer clears the latch |
| TimerHistory.OkExactly | sylar/src/timer.cc:44-99 | cancel, refresh and reset act exactly on a timer that is in the set |
| TimerHistory.WordArithmetic | sylar/src/timer.cc:29-37 | deadlines wrap around at 2^64 |
| TimerDeadlines.LessIsStrictTotal | sylar/src/timer.cc:8-26 | the comparator is a strict total order on timers |
| TimerDeadlines.ExpiryFires | sylar/src/timer.cc:151-182 | an expiry emits exactly the due timers -- all after a rollover -- in order and once each |
| TimerDeadlines.ExpiryOrder | sylar/src/timer.cc:8-26 | timers fire by deadline, those with the same deadline by address |
| TimerDeadlines.ExpiryLeaves | sylar/src/timer.cc:181-195 | what remains is what was not due plus the recurring ones a period from now |
| TimerDeadlines.RolloverExactly | sylar/src/timer.cc:216-226 | a rollover is a step back of more than an hour, or any step back while the previous time is below an hour |
| TimerDeadlines.ZeroWaitMeansDue | sylar/src/timer.cc:135-148 | getNextTimer is 0 if and only if an expiry at the same time emits something |
| TimerDeadlines.NeverMeansEmpty | sylar/src/timer.cc:139-140 | getNextTimer says "none", which stopping() relies on, exactly for an empty set, or at time 0 for a timer at the largest deadline |
| TimerDeadlines.WaitReachesDeadline | sylar/src/timer.cc:135-182 | an expiry emits something as soon as the announced wait has passed, and no sooner |
| IdleWait.Wait | sylar/src/iomanager.cc:391-409 | every call of epoll_wait, EINTR retries included, gets the same clamped timeout |
| IdleWait.WaitBounded | sylar/src/iomanager.cc:394-402 | the timeout is at most three seconds and at most the deadline, if and only if the cast to int does not make it negative |
| IdleWait.WaitExactly | sylar/src/iomanager.cc:394-402 | the timeout is the smaller of the deadline and three seconds if and only if the low 32 bits of the deadline are all of it or not below three seconds |
| IdleWait.CastExactly | sylar/src/iomanager.cc:398-402 | the cast to int keeps the low 32 bits, as signed |
| IdleWait.FarDeadlineWaitsForever | sylar/src/iomanager.cc:398-402 | a deadline 2^31 ms ahead gives a negative timeout |
| IOManagers.Epoll.Ctl | sylar/src/iomanager.cc:194-199 | what epoll_ctl does; ADD of a known and MOD or DEL of an unknown fd are never asked for |
| IOManagers.FdContext.TriggerEvent | sylar/src/iomanager.cc:90-106 | clears the bit, queues fiber or callback, leaves the slot empty |
| IOManagers.IOManager.constructor | sylar/src/iomanager.cc:108-131 | a new manager has 32 contexts and nothing registered |
| IOManagers.IOManager.PendingCountsBits | sylar/src/iomanager.cc:164-340 | in every valid state the pending count is the number of event bits set in the whole table |
| IOManagers.IOManager.ContextResize | sylar/src/iomanager.cc:149-161 | the table grows by empty contexts and keeps the old ones |
| IOManagers.IOManager.ContextFor | sylar/src/iomanager.cc:169-181 | the table grows to one and a half times the fd when it is too small |
| IOManagers.IOManager.AddEvent | sylar/src/iomanager.cc:164-227 | registers the waiter, or changes nothing but the table size on failure; fails its ASSERT exactly if the bit is set, and the slot found is always empty |
| IOManagers.IOManager.DelEvent | sylar/src/iomanager.cc:230-263 | drops the waiter, or changes nothing |
| IOManagers.IOManager.CancelEvent | sylar/src/iomanager.cc:266-297 | queues the waiter and forgets the registration, or changes nothing |
| IOManagers.IOManager.CancelAllEvents | sylar/src/iomanager.cc:300-340 | the same for both events; its final ASSERT holds |
| IOManagers.IOManager.DispatchReport | sylar/src/iomanager.cc:429-466 | one report: stop listening for what is ready, then trigger it; says when the ASSERT fails |
| IoRuns.WaiterConservation | sylar/src/iomanager.cc:164-340 | over every run a waiter was registered as often as it was queued by a trigger, dropped by delEvent, or is still registered |
| IoRuns.AbortsExactly | sylar/src/iomanager.cc:441-466 | an ASSERT ends the process exactly for addEvent on a set bit and for a stale report beside a live one |
| IoRuns.SucceedsExactly | sylar/src/iomanager.cc:164-340 | a call that does not abort succeeds if and only if epoll_ctl does and there is something to act on; otherwise no registration and no waiter changes |
| IoRuns.OneEventExactly | sylar/src/iomanager.cc:164-297 | a successful addEvent registers its waiter, delEvent drops it, cancelEvent queues it, last; all other registrations stay |
| IoRuns.FreshReportWakesExactly | sylar/src/iomanager.cc:429-466 | a report within the registered events wakes exactly the waiters it is about, the reader first |
| IoRuns.CancelAllWakesExactly | sylar/src/iomanager.cc:300-340 | cancelAll queues every waiter of the fd, the reader first, and leaves the rest |
| IoRuns.BitsAreRegistrations | sylar/src/iomanager.cc:209-212 | as many registrations as event bits |
| DoIoInvariant.StepInv | sylar/src/hook.cc:142-202 | every step of every fiber, of timers, of dispatch, close and other users keeps the invariant of each fiber's registrations and timers |
| DoIoInvariant.CallWakes | sylar/src/iomanager.cc:266-340 | what dispatch, cancelEvent and cancelAll do to each fiber: queued once if they act on its registration, untouched otherwise |
| DoIoTheorems.SingleWake | sylar/src/hook.cc:142-202 | in every interleaving of any fibers each registration wakes its fiber exactly once, except the one it waits on; a parked fiber is either registered or queued, any other is neither |
| DoIoTheorems.OnlyTheFirstWakes | sylar/src/iomanager.cc:266-297 | the first event that acts on a registration queues its fiber, once; nothing else queues one |
| DoIoTheorems.TimedOutTruthfully | sylar/src/hook.cc:195-199 | ETIMEDOUT is reported only if a timer of this very call fired, and only one does |
| DoIoOutcomes.AfterWaitExactly | sylar/src/hook.cc:193-201 | after a wait, do_io and connect report ETIMEDOUT if and only if a timer of the call has fired; otherwise do_io tries again and connect returns what the socket says |
| DoIoOutcomes.ReturnsExactly | sylar/src/hook.cc:142-204 | for each way to return, by which step and on which condition a call returns so |
| DoIoOutcomes.GoesOnExactly | sylar/src/hook.cc:142-202 | in every run a call can go on wherever it stands, except that a parked fiber is resumed exactly when it is registered no more, and addEvent needs its fd and event to be free |
| DoIoOutcomes.CallIsAsBegun | sylar/src/hook.cc:98-140 | in every run a call goes on with the fd, event, timeout and kind it was begun with |
| DoIoOutcomes.NoTimeoutNoTimer | sylar/src/hook.cc:155-163 | a call begun without a timeout has no timer and never reports ETIMEDOUT |
| DoIoOutcomes.WaitsAsBegun | sylar/src/hook.cc:155-176 | a fiber about to wait arms a timer if and only if the call has a timeout, and is registered for the fd and event of the call unless addEvent fails |
| DoIoTheorems.FlagOnlyByOwn | sylar/src/hook.cc:163-168 | nothing but a callback of the call itself, while it lasts, sets its timeout flag |
| DoIoTheorems.LateForEver | sylar/src/hook.cc:163-168 | once a call is over, no timer of it sets a flag, queues anyone or touches a registration in any continuation, unless it held the call's flag record already |
| DoIoTheorems.TimeoutWakes | sylar/src/hook.cc:160-173 | while the flag is clear, the timeout of a parked fiber is ahead, and when it fires it wakes the fiber |
| DoIoTheorems.TimeoutSpentExactly | sylar/src/hook.cc:165-171 | timers alone can still end a registration if and only if some timer for its fd and event is pending in a call not timed out, or about to cancel |
| DoIoTheorems.EarlyTimeoutExactly | sylar/src/hook.cc:163-200 | a round can time out without its own timer if and only if a callback of an earlier round is left over |
| DoIoTheorems.OneWorkerLosesExactly | sylar/src/hook.cc:142-202 | with one worker a waiting fiber has lost its timeout if and only if a timer of its call fired and its cancelEvent failed |
| DoIoExamples.TimeoutLost | sylar/src/hook.cc:160-176 | with a second worker the timeout can come and go before addEvent |
| DoIoExamples.FailedCancelLoses | sylar/src/iomanager.cc:285-292 | with one worker a failing epoll_ctl loses it |
| DoIoExamples.EarlyTimeout | sylar/src/hook.cc:163-200 | a callback of the first round can be left over while the second waits |
| Pattern.ReconstructedExactly | sylar/src/logger.cc:136-221 | writing the parsed entries in order gives back the pattern if and only if no entry is an unterminated brace |
| Pattern.Reconstruction | sylar/src/logger.cc:136-221 | the same with pending text, and by how much each unterminated brace lengthens the output |
| Pattern.StableExactly | sylar/src/logger.cc:136-221 | parsing the printed entries gives the same entries if and only if the pattern does not end inside a { |
| Pattern.RoundTrip | sylar/src/logger.cc:136-221 | parsing the printed form of a canonical list gives that list |
| Pattern.ItemsExactly | sylar/src/logger.cc:243-261 | printing a canonical list and parsing it makes, one by one, its text, the item of a known name with its argument, or an error text with the unknown name |
| Pattern.KnownExactly | sylar/src/logger.cc:223-241 | the known names are twelve single letters |
| Pattern.BrokenItem | sylar/src/logger.cc:203-208 | in any pattern the error text stands exactly for an unterminated brace, or for itself |
| Pattern.ErrorExactly | sylar/src/logger.cc:245-258 | on canonical lists the error flag says that some name is not among the twelve known |
| Pattern.DirectiveExactly | sylar/src/logger.cc:158-208 | at a % the name is the longest run of letters and closing braces, a { after it opens an argument up to the next }, and without one the % alone is the error and the rest is read again |
| Pattern.BrokenExactly | sylar/src/logger.cc:164-208 | for every pattern: an unterminated-brace entry is made if and only if the pattern ends inside a {, that is, some % with name characters and a { is followed by no }, and what comes before that % does not itself end inside a { |
| Pattern.UnclosedClosedForm | sylar/src/logger.cc:164-208 | with no } inside a name, a pattern ends inside a { if and only if a % with letters and a { stands behind the last } |
| Pattern.OpenIsUnclosed | sylar/src/logger.cc:164-208 | in any pattern such a % is enough |
| Pattern.ClosedPattern | sylar/src/logger.cc:164-208 | a pattern in which each { is closed somewhere later has no such entry and is given back by its entries |
| Pattern.OpenBraceMissedExactly | sylar/src/logger.cc:203-208 | for every pattern: there is such an entry and the error flag is clear if and only if the pattern ends inside a { and every name is known |
| Pattern.OpenBraceIsNoError | sylar/src/logger.cc:203-208 | %d{ is such a pattern |
| Pattern.DoublePercentNeverEscapes | sylar/src/logger.cc:149-156 | in no place of any pattern does %% stand for one % of text |
| Pattern.DoublePercent | sylar/src/logger.cc:149-156 | the first % becomes text and the second is read as if it stood alone |
| LogFormatters.LogFormatter.Scan | sylar/src/logger.cc:158-189 | the inner loop stops where the directive ends, in the state that says how |
| LogFormatters.LogFormatter.Turn | sylar/src/logger.cc:141-219 | one turn of the outer loop strictly advances and pushes what the pattern demands there |
| LogFormatters.LogFormatter.Collect | sylar/src/logger.cc:139-221 | the loop collects the tuples of the parsed pattern |
| LogFormatters.LogFormatter.InitItems | sylar/src/logger.cc:243-261 | each tuple becomes its item; the flag is set exactly for an unknown name |
| Loggers.Logger.AddAppender | sylar/src/logger.cc:332-341 | an appender without a formatter gets the logger's and goes last |
| Loggers.Logger.InstallFormatter | sylar/src/logger.cc:358-368 | appenders without a formatter of their own follow the logger's, the others keep theirs |
| Loggers.Logger.SetFormatter | sylar/src/logger.cc:371-384 | a pattern in error is refused and changes nothing |
| Loggers.Logger.ClearAppenders | sylar/src/logger.cc:411-415 | removes the appenders and nothing else |
| Loggers.MakeAppender | sylar/src/logger.cc:695-714 | the appender a definition asks for; an invalid pattern is ignored |
| Loggers.Configure | sylar/src/logger.cc:687-716 | the logger ends up as its definition says, whatever it was before |
| Loggers.LoggerManager.constructor | sylar/src/logger.cc:492-497 | the root logger with one stdout appender |
| Loggers.LoggerManager.GetLogger | sylar/src/logger.cc:500-511 | an unknown name gets a logger with the default settings |
| Loggers.LoggerManager.Update | sylar/src/logger.cc:672-717 | a definition that is new, or changed for operator==, configures its logger; any other changes nothing |
| Loggers.LoggerManager.Remove | sylar/src/logger.cc:719-729 | the logger of a definition that is gone gets level 0 and no appenders; any other is untouched |
| Loggers.LoggerManager.OnChange | sylar/src/logger.cc:668-730 | the two loops bring about the reconfiguration that the lemmas below are about |
| Loggers.LogsVar.SetValue | sylar/include/config.h:370-381 | the listener runs, and the value is stored, only for a value that operator== tells from the stored one |
| ReconfigureTheorems.AgreesExactly | sylar/src/logger.cc:668-730 | loggers that agreed with the old definitions agree with the new ones if and only if each definition taken for unchanged asks for the same appenders |
| ReconfigureTheorems.OthersExactly | sylar/src/logger.cc:719-729 | a logger no longer defined has level 0 and no appenders; one never named is as it was |
| ReconfigureTheorems.FieldsExactly | sylar/src/logger.cc:668-717 | field by field: an unchanged definition leaves its logger alone; any other sets the level and the appenders it says, and its pattern unless that is empty or in error |
| ReconfigureTheorems.ChangedExactly | sylar/src/logger.cc:538-544 | a definition counts as unchanged exactly if an old one has its name, level and pattern |
| ReconfigureTheorems.AppenderChangeLost | sylar/src/logger.cc:538-544 | adding an appender and nothing else is lost |
| ReconfigureTheorems.RequestExactly | sylar/include/config.h:370-381 | the same for a request through the variable, equal values included |
| ReconfigureTheorems.StoredExactly | sylar/include/config.h:370-381 | a value alike the stored one in names, levels and patterns changes nothing, whatever its appenders; any other is stored |
| ReconfigureTheorems.RunsAgree | sylar/src/logger.cc:668-730 | over a run of requests the loggers agree with the latest one as long as every change gets through |
| ReconfigureTheorems.NoErrorInstalled | sylar/src/logger.cc:690-714 | whatever patterns are configured, no logger and no appender is left with one in error |
| ReconfigureTheorems.DefaultIsSane | sylar/src/logger.cc:283-287 | the default pattern is free of errors |
| ConfigTree.PruningLosesNothing | sylar/src/config.cc:14-33 | the pruned list is the preorder list of all nodes, filtered by the validity of their own full path |
| ConfigPaths.ListedExactly | sylar/src/config.cc:14-33 | for any tree, a node is listed under a path if and only if the path is valid and consists of the dot-separated parts of keys that lead there, empty keys at the start left out |
| ConfigPaths.PlainKeys | sylar/src/config.cc:29-30 | with keys that are not empty and hold no dot, a node has the path whose parts are its keys, and different keys give different paths |
| ConfigPaths.ToldExactly | sylar/src/config.cc:44-69 | loading tells a variable the text of the scalar, or the dump of the node, that keys making up its name lead to, and nothing if none do |
| ConfigPaths.ToldAtKeys | sylar/src/config.cc:44-69 | in a tree of plain keys, none twice in a map, a variable is told what stands under the keys its name consists of |
| ConfigPaths.TwoKeys | sylar/src/config.cc:29-30 | for two keys that name is k1.k2 |
| ConfigTree.ListAllMember | sylar/src/config.cc:14-33 | appends exactly that list to the shared output |
| ConfigTree.Config.LoadFromYaml | sylar/src/config.cc:44-69 | every registered variable is told the last valid node of its name, the others keep their value |
| ConfigTree.Config.LoadOne | sylar/src/config.cc:49-68 | the loop body: the empty name is passed over, a scalar gives its text and any other node its dump |
| ConfigTree.Config.Lookup | sylar/include/config.h:437-470 | a registered name is found, or gives null if it has another type; a new one is registered if every character is on the list and refused otherwise |
| ConfigTree.SubtreeLostExactly | sylar/src/config.cc:18-32 | a key loses its whole subtree, as if it were not there, if and only if it holds a character not on the list |
| ConfigTree.AllowedExactly | sylar/src/config.cc:18-19 | the characters on the list are the small letters, the dot, the underscore and the digits 0 to 8 |
| ConfigTree.NotAllowed | sylar/src/config.cc:18-19 | a capital letter or a 9 is not on the list |

## Left out

- Context switches, stacks, locks, threads and semaphores: a switch and a region under one lock are single steps.
- Sockets, pipes, files, `epoll_wait` and the clock: their results are parameters.
- `tickle`: whether an idle worker is woken promptly; only the bounded wait is modelled. That a tickle is due is a result of the scheduling methods.
- IOManagers.IOManager.ContextFor: growing the table is one step, because two callers growing it at once are not told apart; the code does not look at the size again under the write lock.
- IOManagers.IOManager.AddEvent: the scheduler put into a slot is always this manager's own, since `Scheduler::GetThis()` of another manager's thread is not modelled.
- Timers.TimerManager.AddTimer: an address is never used again for another timer, as if no timer object were freed.
- `hasTimer`, `addConditionTimer` as an operation of its own: the condition appears as the live flag of `DoIo`.
- DoIoInvariant.StepInv: the early returns of `do_io` for unhooked threads, closed or non-blocking descriptors; the order of the run queue, so that a queued fiber or callback may run at any time; and `delEvent` of a fiber's registration, which the hooked calls never ask for.
- `connect_with_timeout`: what `getsockopt` reports.
- Stop with several threads: joining them, and `stop()` called from inside a task of the caller's own worker.
- Schedulers.Scheduler.Run: tasks do not schedule the fiber they run on and `switchTo` is not modelled; both would need the fiber's own handle inside a task.
- Destruction: the assertions of `~Fiber`, `~Scheduler` and `~IOManager`.
- RuntimeDrain.DrainOnStop: says what holds when `stop()` has returned, not that it returns; that is proved for the base scheduler in `Schedulers.Scheduler.Run`.
- A recurring timer in the scheduler machine: each emission is a task of its own.
- RuntimeExamples.StaleHandleAborts: the fiber of a task that is through can be scheduled in the machine too; while it is a worker's spare it is dropped there as a finished one, whereas the code would enter it with an empty function and may meet its owner's `reset`.
- RuntimeInvariant.SwapInWorks: giving a callback its fiber and entering it are one step; what a stale handle could do in between is not modelled.
- Appender objects are values, so one appender shared by two loggers is not modelled; neither is a logger changed by other callers between two requests.
- Reading YAML into definitions and trees, writing them out, and `ConfigVar` conversions.
- Cyclic YAML trees, for which `ListAllMember` does not end.
- Log output, log levels as names, backtraces, `FdCtx`, `fcntl`, `ioctl` and socket options.
