# Koro, verified in Dafny

Koro is a work-stealing fiber scheduler for C++20 with epoll waits, timers, a plain thread pool and a double-buffered
asynchronous logger. This project models its concurrent and stateful cores and proves what they guarantee for every
number of workers, fibers, tasks and buffers, and for every interleaving. Where a guarantee people would expect does not
hold, the project proves under which condition it does, and shows a run in which it fails.

`dafny verify dfyconfig.toml` checks everything.

## The scheduler, fibers and blocking I/O

`Machine.dfy` is one transition system for `Scheduler::run`, `stealTask`, `stopping`, `stop`, `submit`,
`IOManager::idle` and `tickle`, `do_io` and the callback it installs. Every atomic operation and every section under a
mutex is a step of its own: pop, `fetch_add`, `tryLock`, resume, requeue, unlock, `fetch_sub`, each victim of a steal
pass, each read inside `stopping()`, the push, the read of `idling` and the eventfd write of `submit`, installing a
callback, raising the pending count, `hold`, copying a callback, `triggered.exchange`, and so on. Memory is sequentially
consistent. What fiber code does between these steps (yield, return, submit, block on a descriptor, add or cancel a
timer) and what epoll reports are arbitrary choices.

The invariants live one to a file: `Tokens` (where every task is), `Switching` (fiber locks and states), `Wakeup` and
`WakeupSteps` (wake-ups owed), `Counters`, `Shutdown`, `Alert` (blocking in epoll_wait). `Scheduler` puts them together
and states the main results over runs and reachable states. `Limits` and `Losses` show where they end, on runs built with
`Runs`: stranded waiters, and tasks left behind at shutdown. `Traces` are runs with all their states; over them `Stopping`
says what a "yes" of `stopping()` has seen, and `Histories` the order of the queues, when eventfds are readable, and what
`submit()` and `stop()` tickle. `Stealing` is the steal loop as imperative code over queue
objects, tied to the machine. `Contexts` is the fiber code itself, with `swapcontext` and the
thread-local pointers of several threads. `Interest` is the channel code with the epoll interest set it mirrors.

Some fields of the machine record history and have no counterpart in the program:

- `clean`: the fiber was made by a worker from a callback and has not itself been passed to `submit()`;
- `displaced`: the waits in do_io whose callback another wait on the same slot has overwritten or removed.

What can go wrong at shutdown is said of the state before a step. A worker covers a queue while its idle fiber has not
terminated, or its last scan has not passed the queue. A step abandons a queue if a thread outside the pool pushes on a
queue that no worker covers, or if the only worker that covers a queue with tasks, in its last scan, loses its `try_lock`
on it to such a thread or to the caller of `stop()`. Before `stop()` nothing is abandoned.

`origin` remembers the callback a fiber was made for, and `lockedBy` which worker set the flag `execute`.

## The logger, the timers, the thread pool

`AsyncLog` is the buffer exchange as a transition system over buffers as values that own numbered heap blocks.
`AsyncLogging` is the class itself, producers and writer loop, with other threads running in between: it carries the
machine's state as a ghost and every method is shown to be a run of the machine. `LogBuffers` is `FixedBuffer` as an
array that is filled in place and moved.

`Timers` is `TimerManager` and `Timer` as classes. A timer may be cancelled between any two reads of its flag. The
queue `tasks` is the history of every push; `Log` picks the pushes of one timer, and the specification of a timer is the
sequence first, first + interval, first + 2 * interval, and so on.

`ThreadPool` is a transition system of the worker lambda, `submit` and the destructor, with spurious wake-ups.

## Model

| member | source | states |
|---|---|---|
| Scheduler.MutualExclusion | koro/scheduler.cpp:203-227 | in every reachable state at most one worker holds or executes a given fiber, and the fiber's lock names that worker, however often the fiber was submitted or woken early |
| Scheduler.AssertsHold | koro/fiber.cpp:105-153 | for every fiber that runs tasks, the asserts on the state in resume, hold and yield, and the one in run() after resume, hold whenever they are evaluated |
| Scheduler.IdleAssertsHold | koro/scheduler.cpp:188-196 | the same for the idle fiber of each worker: ready or terminated whenever the worker is in run(), running whenever it is in idle() |
| Scheduler.IdlingMeansPolling | koro/io_manager.cpp:200-224 | `idling` is set exactly from its store in the idle loop to the store that clears it |
| Scheduler.RunningMeansExecuting | koro/fiber.cpp:106 | a fiber is kRunning if and only if some worker is executing its code |
| Scheduler.OneWakeup | koro/hook.cpp:60-102 | a clean fiber that is neither running nor finished is owed at most one wake-up, a task that resumes it or an untriggered wait whose callback is installed; and exactly one if and only if its wait has not been displaced before its flag was set |
| Scheduler.NeverTwoTasks | koro/hook.cpp:73-84 | a clean fiber never has two tasks, whatever stale copies of its callbacks still run |
| Scheduler.TaskIffTriggered | koro/hook.cpp:70-98 | in do_io, before and after hold(), a clean fiber has a task if and only if its `triggered` flag is set |
| Scheduler.ReadyHasTask | koro/scheduler.cpp:221-225 | a fiber in kReady always has a task in a queue, a hand or a submit call |
| Scheduler.CallbacksConserved | koro/scheduler.cpp:167-243 | every callback ever made is in exactly one queue, hand or submit call, or was started, and that exactly once |
| Scheduler.ActiveCount | koro/scheduler.cpp:199-245 | active_thread_count_ is the number of workers between increment and decrement on every branch; at zero no fiber is running or locked |
| Scheduler.PendingCount | koro/io_manager.cpp:282-311 | pending_event_count_ is the number of counted waits plus uncancelled timers, never negative; at zero no fiber is parked and no timer is live |
| Scheduler.NoLostWakeup | koro/io_manager.cpp:193-224 | a worker about to enter or inside epoll_wait with a non-empty queue has a readable eventfd, or some submit call is still going to write it |
| Scheduler.DrainAtShutdown | koro/scheduler.cpp:162-196 | when every worker has left run(), every queue that no step of the run abandoned is empty, for any number of workers |
| Scheduler.DrainExactly | koro/scheduler.cpp:162-196 | when every worker has left run(), a queue still has tasks if and only if some step abandoned it and no worker has come to cover it since; the condition speaks of worker positions only |
| Scheduler.DrainIfUntouched | koro/scheduler.cpp:249-265 | it is empty if after stop() no outside thread pushed on it and no thief lost its try_lock on it to such a thread or to the caller of stop() |
| Scheduler.OnlyOutside | koro/scheduler.cpp:162-196 | when every worker has left run(), the tasks left are exactly those in queues and those in submit calls of threads outside the pool: none is in a hand or a fiber |
| Scheduler.Stopped | koro/scheduler.cpp:227 | with all workers gone no fiber is running, locked or about to push |
| Scheduler.NothingLeftBehind | koro/scheduler.cpp:96-119 | after a shutdown that leaves every queue empty, with no submit pending, every callback was started exactly once, and every fiber has finished or is parked with its flag unset |
| Stopping.StoppedForAReason | koro/scheduler.cpp:96-119 | whenever an idle fiber has terminated, or stop() is in its last round, one evaluation of stopping() by that worker, or by stop(), found stop_ set at its first read, later no worker active, later nothing pending, and later each queue empty in turn |
| Stopping.Evaluated | koro/scheduler.cpp:98-116 | behind every read of stopping() stand the earlier reads of the same evaluation, each of which found what it must |
| Stopping.QuietInstants | koro/scheduler.cpp:96-119 | so at one instant no fiber was running or locked, at a later one no fiber was parked in do_io and no timer live, and each queue was empty at an instant of its own |
| Traces.HasTrace | koro/scheduler.cpp:151-247 | every run has a trace, so what is said of traces is said of all runs |
| Histories.QueueDiscipline | koro/scheduler.cpp:166-177 | a step takes the front of a queue only for its owner and the back only for a thief, and otherwise adds at most one task at the back |
| Histories.OwnerInOrder | koro/scheduler.cpp:166-177 | over a whole run the tasks a worker takes from its own queue, and then those still in it, are in the order in which they were pushed |
| Histories.ReadableIfWritten | koro/io_manager.cpp:269-276 | at every instant an eventfd is readable if and only if it was written after it was last read |
| Histories.SubmitTickles | koro/scheduler.h:67-88 | a call of submit() tickles exactly if it pushed on an empty queue, and writes the eventfd only if it then saw that worker idling |
| Histories.SubmitsInTurn | koro/scheduler.h:72-74 | calls of submit(), from outside and from fibers together, go to the queues in turn |
| Histories.StopWakes | koro/scheduler.cpp:72-84 | a worker that is inside epoll_wait while stop() passes it has a readable eventfd |
| Scheduler.InvStep | koro/scheduler.cpp:151-247 | all invariants together are kept by every step of every worker, fiber, outside thread and the stop() caller |
| Scheduler.ReachableInv | koro/scheduler.cpp:41-63 | they hold in every state reachable from what init() leaves, for any number of workers |
| Machine.IdleFrame | koro/io_manager.cpp:193-266 | a step of idle() changes only its own worker and its own queue, and leaves idle with no fiber or task in hand |
| Tokens.StepCount | koro/scheduler.cpp:167-243 | the number of copies of any task changes in a step exactly by what the step makes or consumes: pops, steals, failed tryLock and requeues neither lose nor double one |
| Switching.SwitchedStep | koro/scheduler.cpp:201-227 | each step keeps the agreement between fiber locks, fiber states and where each worker and each fiber's code stands |
| Wakeup.ReferencedStep | koro/hook.cpp:70-100 | tasks, waits, callbacks and program counters never refer to something that does not exist |
| WakeupSteps.WokenStep | koro/hook.cpp:73-102 | each step keeps the number of tasks of every clean fiber equal to what it is owed |
| WakeupSteps.InstalledStep | koro/io_manager.cpp:75-113 | a wait that has not been displaced is the installed one from its registration to its end, and what is installed on a slot is a wait on that very slot that has not been displaced |
| Counters.ActiveStep | koro/scheduler.cpp:199-245 | each step keeps active_thread_count_ exact |
| Counters.PendingStep | koro/io_manager.cpp:110-174 | each step keeps pending_event_count_ exact |
| Counters.JobsStep | koro/scheduler.cpp:229-243 | each step keeps every callback in exactly one place |
| Shutdown.VictimOffset | koro/scheduler.cpp:252-256 | a thief looks at queue q in exactly one round of its pass, and never at its own queue |
| Shutdown.StopStepKeeps | koro/scheduler.cpp:188-196 | idle fibers terminate only after stop_ has been set, and workers leave only after their idle fiber terminated |
| Shutdown.CoveredStep | koro/scheduler.cpp:249-265 | a step keeps a queue empty or covered if and only if, in the state before it, it does not abandon the queue |
| Shutdown.UnwatchedKeeps | koro/scheduler.cpp:249-265 | no step takes the last task from a queue that no worker covers |
| Shutdown.AbandonedAfterStop | koro/scheduler.cpp:96-119 | nothing is abandoned before stop() is called |
| Shutdown.LiveIdleCovers | koro/scheduler.cpp:188-196 | a worker whose idle fiber has not terminated covers every queue |
| Alert.AlertStep | koro/scheduler.h:72-88 | each step keeps every blocked worker with work notified or about to be |
| Limits.StrandedExactly | koro/hook.cpp:73-98 | a parked clean fiber is stranded if and only if its flag is unset, no copy of its callback is left, and its wait was displaced or the idle fiber that polls for its descriptor has terminated |
| Limits.StrandedOrOwed | koro/hook.cpp:73-98 | any other parked clean fiber still has a task, a callback installed where somebody polls, or a copy of it |
| Limits.SecondWaiterStrands | koro/io_manager.cpp:77-84 | another waiter that registers on the slot of a quiet waiter, or unregisters there, strands it |
| Limits.SecondWaiterComes | koro/io_manager.cpp:77-84 | a run to a quiet waiter and a second one about to overwrite its callback |
| Limits.FirstWaiterLeaves | koro/io_manager.cpp:152-165 | a run to a quiet second waiter and a first one, woken by a queued copy, about to remove the second's callback |
| Limits.LastPollerLeaves | koro/io_manager.cpp:200-206 | a run to a state where every worker has left and a fiber is parked with its callback installed, stranded |
| Limits.StrandedStep | koro/io_manager.cpp:77-84 | no step of any thread gives a stranded fiber a way back, short of submitting the fiber itself |
| Limits.StrandedForever | koro/io_manager.cpp:77-84 | such a fiber stays parked in every continuation of the run |
| Losses.LateSubmitIsLost | koro/scheduler.h:72-88 | a run in which a task submitted from outside after stop() is never taken |
| Losses.LockedOutTaskIsLost | koro/scheduler.cpp:256-257 | a run in which the only call of submit() from outside pushed before stop(), and a task that a fiber submits is lost because the last thief's try_lock meets the caller of stop() inside stopping() |
| Losses.AbandonedTaskIsTaken | koro/scheduler.cpp:249-265 | a run in which a push abandons a queue and a worker that finds another task still comes back to it |
| Runs.ScanAll | koro/scheduler.cpp:249-265 | with every queue empty a worker's pass runs to its end |
| Runs.IdleEnds | koro/io_manager.cpp:200-206 | with stop_ set, both counters zero and every queue empty an idle fiber that enters its loop terminates |
| Runs.ComesToPoll | koro/io_manager.cpp:200-222 | with every queue empty and stop_ unset a worker comes from the top of run() to epoll_wait, idling |
| Runs.TakesInstead | koro/io_manager.cpp:208-218 | with a task in its queue the idle fiber yields without polling, and run() takes the task |
| Runs.PollReturns | koro/io_manager.cpp:222-224 | when epoll_wait returns the worker clears `idling` and comes to the events |
| Runs.EventQueues | koro/io_manager.cpp:242-255 | an event on a bound slot queues the installed callback on the worker's own queue |
| Runs.EventsEnd | koro/io_manager.cpp:259-263 | after the last event, with stop_ set, both counters zero and every queue empty, the idle fiber terminates |
| Runs.EventsOver | koro/io_manager.cpp:259-265 | after the last event, stop_ unset, the idle fiber yields to run() |
| Runs.TicklesAll | koro/scheduler.cpp:74-77 | one round of stop() writes the eventfd of every worker it sees idling and of no other |
| Runs.StopEnds | koro/scheduler.cpp:79-84 | with stop_ set, both counters zero and every queue empty stop() tickles once more and joins |
| Stealing.TaskQueue.PopBack | koro/scheduler.cpp:259-260 | takes the newest task and leaves the others in order |
| Stealing.FirstTaken | koro/scheduler.cpp:252-263 | the first round in which the try_lock succeeds on a non-empty queue, and none before it did |
| Stealing.StealTask | koro/scheduler.cpp:249-265 | the loop returns the newest task of the first victim that is free and non-empty, removes just that task, or returns nothing and changes nothing |
| Stealing.EveryOtherQueue | koro/scheduler.cpp:254 | a pass visits every queue but the thief's own, each exactly once |
| Stealing.OwnerLocksOut | koro/scheduler.cpp:256-257 | a thief can pass a queue that has tasks while its owner is at its own pop |
| Stealing.NothingToSteal | koro/scheduler.cpp:249-265 | with every try_lock free a pass comes to nothing if and only if every other queue is empty |
| Stealing.PassRuns | koro/scheduler.cpp:249-265 | undisturbed, the rounds of the machine are one call of that loop |
| Contexts.Thread.SwapContext | koro/fiber.cpp:111-124 | the thread's execution is saved in one context and the one in the other context goes on |
| Contexts.Process.NewThread | koro/scheduler.cpp:151-155 | a new thread has no main fiber yet |
| Contexts.Process.NewFiber | koro/fiber.cpp:38-64 | a new task fiber is ready and its own execution waits in its context |
| Contexts.Process.RunningFiber | koro/fiber.cpp:190-203 | the first call on a thread makes its main fiber, running and named by all three pointers; any later call names the fiber that is executing and changes nothing |
| Contexts.Process.Resume | koro/fiber.cpp:100-125 | the resumed fiber is executing, running, and named by t_fiber; all threads and fibers stay consistent |
| Contexts.Process.HoldFiber | koro/fiber.cpp:127-150 | control goes to the main fiber of the thread that resumed the fiber last, t_fiber names it, it is running, and the fiber's own execution waits in its context |
| Contexts.Process.YieldFiber | koro/fiber.cpp:151-177 | the same for yield, which makes the fiber ready unless it has terminated |
| Contexts.Process.MainBegin | koro/fiber.cpp:205-208 | mainFunc finds itself, not the main fiber, as the running fiber |
| Contexts.Process.MainEnd | koro/fiber.cpp:214-224 | after the callback, on whatever thread, the fiber is terminated without callback and the resuming thread's main fiber goes on |
| Contexts.Process.Migrate | koro/fiber.cpp:100-225 | a fiber parked on one thread and finished on another returns each time to the thread that resumed it and leaves the other where it was |
| Contexts.Process.OneProcessor | koro/fiber.cpp:108 | no execution is on two threads at once |
| Interest.EpollPoller.UpdateChannel | koro/epoll_poller.cpp:30-52 | the interest set gets the channel's mask exactly when epoll_ctl succeeds, and in_epoll_ is set by a successful add |
| Interest.EpollPoller.RemoveChannel | koro/epoll_poller.cpp:54-63 | the descriptor leaves the interest set, and in_epoll_ is cleared, exactly when epoll_ctl succeeds |
| Interest.IOManager.RegisterEvent | koro/io_manager.cpp:69-113 | installs one callback, leaves the other direction and every other descriptor alone, counts one; the mirror survives if and only if epoll_ctl succeeded or nothing had to change; other masks are refused without a trace |
| Interest.IOManager.UnregisterEvent | koro/io_manager.cpp:143-175 | clears the named directions, uncounts each; the mirror survives if and only if epoll_ctl succeeded or nothing had to change |
| Interest.IOManager.RemoveChannel | koro/io_manager.cpp:115-141 | clears every callback and leaves the pending count as it is; the interest set loses the descriptor exactly if the channel was in epoll and epoll_ctl succeeds, and keeps the others; a second call does nothing |
| Interest.IOManager.Run | koro/io_manager.cpp:69-175 | over any sequence of registrations and unregistrations on any channels and directions, epoll_ctl succeeding, every channel keeps its mirror and the pending count follows the operations |
| Interest.IOManager.WaitRound | koro/hook.cpp:90-101 | a round of do_io restores the mirror, the pending count and the other direction |
| Interest.IOManager.RegisterThenTrigger | koro/io_manager.cpp:75-104 | the callback registered for a direction is the one an event in that direction queues, and the error callback the one an error queues |
| Interest.IOManager.UnregisterThenTrigger | koro/io_manager.cpp:150-165 | after one direction is unregistered its events queue nothing, those of the other still what was registered |
| Interest.Channel.TriggerEvent | koro/channel.cpp:54-80 | queues the read callback for a read event, the write callback for a write event, the error callback for an error, if there is one; any other event queues nothing |
| Interest.Channel.HandleEvent | koro/channel.cpp:34-52 | queues the read callback for a read event, the write callback for a write event, both for a hang-up, error, read and write callback for an error, each as installed when it is triggered, while other threads install and remove callbacks |
| Interest.RaisedMeans | koro/channel.cpp:34-52 | an error or hang-up raises both directions, each event is raised at most once, errors first |
| Timers.Timer.Repeat | koro/timer.h:60-63 | the next expiration is counted from the last one |
| Timers.Timer.Enable | koro/timer.h:45-48 | sets the flag and nothing else |
| Timers.PushNumber | koro/timer_manager.cpp:70-92 | whatever has happened, push number k of a timer was for first + k * interval, was not early, and a one-shot timer has at most one |
| Timers.PushedInOrder | koro/timer_manager.cpp:81-90 | one check pushes in deadline order, only expired entries |
| Timers.PushedLog | koro/timer_manager.cpp:81-90 | one check pushes each expired timer that it reads as on exactly once, and no other |
| Timers.NotPushed | koro/timer_manager.cpp:84 | a check pushes nothing for a timer it reads as off |
| Timers.CancelledNotPushed | koro/timer_manager.cpp:84 | a check pushes nothing for a timer cancelled before it began |
| Timers.LaterUntouched | koro/timer_manager.cpp:77-79 | a check leaves every later entry in the set, and everything else in it afterwards is a repeat of an expired entry |
| Timers.ExpiredAndOn | koro/timer_manager.cpp:77-117 | an expired timer that is on throughout is pushed once and, if it repeats, put back under its next deadline |
| Timers.OnlyLaterOrRepeated | koro/timer_manager.cpp:77-117 | after a check the set holds only later entries and next deadlines of expired repeating timers that were on |
| Timers.FiredIsFaithful | koro/timer.h:60-63 | a push followed by repeat() leaves a timer at its next deadline |
| Timers.InsertKeeps | koro/timer_manager.cpp:94-105 | inserting keeps the set ordered and without duplicates, adds just the entry, and the earliest expiration is the smaller of the two |
| Timers.UpperBound | koro/timer_manager.cpp:77 | splits the set into what expires by now and what expires later |
| Timers.CheckKeeps | koro/timer_manager.cpp:70-125 | a check keeps every timer ever registered in agreement with its specification |
| Timers.RegisterKeeps | koro/timer_manager.cpp:39-51 | so does a registration |
| Timers.TimerManager.RegisterTimer | koro/timer_manager.cpp:39-51 | adds one entry, turns the timer on, re-arms only for a new earliest expiration; the timerfd is set for the earliest expiration if and only if the last arming was in time |
| Timers.TimerManager.TriggerTimer | koro/timer_manager.cpp:70-125 | an expired timer still on at the end has been pushed once, for its deadline, and if it repeats is in the set under its next one; later entries stay; nothing else is in the set; nothing is pushed for a timer cancelled before; the timerfd is set for the earliest expiration unless that has passed |
| Timers.TimerManager.PushExpired | koro/timer_manager.cpp:81-90 | the first loop, under concurrent cancellation |
| Timers.TimerManager.ResetTimer | koro/timer_manager.cpp:107-125 | puts back exactly the repeating timers read as on and sets the timerfd for the earliest expiration, if that has not passed |
| Timers.TimerManager.PutBackAll | koro/timer_manager.cpp:107-117 | the second loop, under concurrent cancellation: what it finds on the first loop found on |
| Timers.TimerManager.Insert | koro/timer_manager.cpp:94-105 | puts the entry at a place that fits and reports whether it is a new earliest expiration |
| Timers.TimerManager.ResetTimerFd | koro/timestamp.h:30-51 | a deadline that has passed disarms the timerfd, any other arms it |
| Timers.TimerManager.UnregisterEvent | koro/timer_manager.cpp:53-68 | clears the flag of that timer and keeps everything else; an id of zero or a timer that is gone changes nothing |
| Timers.TimerManager.Run | koro/timer_manager.cpp:39-125 | in any sequence of registrations, checks and cancellations a cancelled timer stays cancelled and nothing more is pushed for it |
| Timers.PastDeadlineDisarms | koro/timestamp.h:35-39 | registering a deadline that has passed leaves two timers in the set and the timerfd disarmed |
| AsyncLog.LogOrder | elog/async_logging.cpp:38-64 | at every point the accepted messages are, in order, those written or dropped, the rest of the batch, bufs_, cur_buf_; the file holds the written ones in order |
| AsyncLog.UnwrittenAtReturn | elog/async_logging.cpp:95-168 | when the writer returns the unwritten messages are exactly bufs_ then cur_buf_; none is lost if and only if none was accepted since the writer last held the lock |
| AsyncLog.NeverNull | elog/async_logging.cpp:52-62 | cur_buf_ is never null, queued buffers are full, the reserves are non-null and empty at each loop head |
| AsyncLog.SingleOwner | elog/fixed_buffer.hpp:37-51 | every allocated block has exactly one owner among the six holders, or was freed exactly once: no assignment leaks |
| AsyncLog.FreshOnlyIfNeeded | elog/async_logging.cpp:52-60 | a push allocates only if the current buffer is full and the next one gone, the writer only what its batch lacks to two buffers, and these blocks are the only ones that appear |
| AsyncLog.DropBound | elog/async_logging.cpp:125-135 | all buffers of a batch but the last are full; a batch of k > 100 keeps its first two, reports k - 2, and loses between (k-3)*n+1 and (k-2)*n messages, the newest of it; a smaller one loses none |
| AsyncLog.ShutdownLosesMessages | elog/async_logging.cpp:95 | a run in which an accepted message is neither written nor reported as dropped |
| AsyncLog.InvStep | elog/async_logging.cpp:38-168 | every step of producers, writer and shutdown keeps order, shape, stock and ownership |
| AsyncLogging.AsyncLogging.PushMessage | elog/async_logging.cpp:38-64 | a producer that finds done_ set does nothing; any other has its message accepted, after those of other producers, even if done_ is set in between |
| AsyncLogging.AsyncLogging.PushLocked | elog/async_logging.cpp:45-63 | the locked section is one push of the machine |
| AsyncLogging.AsyncLogging.SetDone | elog/async_logging.cpp:66-69 | sets done_ and nothing else |
| AsyncLogging.AsyncLogging.Exchange | elog/async_logging.cpp:97-118 | the writer's locked section is the machine's collecting step |
| AsyncLogging.AsyncLogging.DropTail | elog/async_logging.cpp:125-135 | the overflow rule is the machine's |
| AsyncLogging.AsyncLogging.WriteBatch | elog/async_logging.cpp:137-144 | while other threads push, the file grows by exactly the messages of the batch, in order |
| AsyncLogging.AsyncLogging.ResizeBatch | elog/async_logging.cpp:146-149 | afterwards the batch has at least two buffers |
| AsyncLogging.AsyncLogging.FirstReserve | elog/async_logging.cpp:151-155 | a used reserve is replaced by an emptied buffer of the batch |
| AsyncLogging.AsyncLogging.SecondReserve | elog/async_logging.cpp:157-161 | the same for the second reserve |
| AsyncLogging.AsyncLogging.ClearBatch | elog/async_logging.cpp:163 | the rest of the batch is destroyed |
| AsyncLogging.AsyncLogging.Turn | elog/async_logging.cpp:95-165 | interleaved with any pushes, a turn writes or drops everything accepted before it, the file grows by exactly the batch taken, cut down and reported by the overflow rule, and the loop ends only when done_ is set, with nothing written |
| AsyncLogging.AsyncLogging.WriteTaken | elog/async_logging.cpp:125-163 | what the loop does with a batch: the file grows by it under the overflow rule, and the loop is back at its head |
| AsyncLogging.AsyncLogging.InOrder | elog/async_logging.cpp:38-64 | after any use of the object its accepted messages are in order and cur_buf_ owns a block |
| LogBuffers.FixedBuffer.Move | elog/fixed_buffer.hpp:31-35 | the new buffer has block and messages of the old one, which is null afterwards |
| LogBuffers.FixedBuffer.MoveFrom | elog/fixed_buffer.hpp:37-51 | the same for assignment, and nothing on self-assignment |
| LogBuffers.FixedBuffer.Push | elog/fixed_buffer.hpp:83-91 | appends, or does nothing when full |
| LogBuffers.FixedBuffer.Reset | elog/fixed_buffer.hpp:101-104 | empties the buffer and keeps its block |
| ThreadPool.DrainOnDestruction | koro/thread_pool.cpp:61-76 | when all workers are joined, every task pushed has run exactly once, under every interleaving, except, exactly, those pushed after their worker had left and never stolen |
| ThreadPool.InTime | koro/thread_pool.h:47-50 | a push before the destructor begins, or on a queue not yet stopped, is never too late |
| ThreadPool.DestructorStopsAll | koro/thread_pool.cpp:63-70 | while the destructor is at worker i the flags set are exactly those of the workers before it; when it joins every flag is set and every parked worker has been notified |
| ThreadPool.JoinReturns | koro/thread_pool.cpp:72-75 | from every state in which the destructor joins, for any number of workers, some run takes all workers out of their loops |
| ThreadPool.PassRuns | koro/thread_pool.cpp:78-93 | a steal pass takes the newest task of the first queue after the worker's own whose try_lock succeeds and that has one; a failed try_lock skips just that queue |
| ThreadPool.PassFindsAll | koro/thread_pool.cpp:78-93 | with every try_lock free it comes to nothing if and only if every other queue is empty |
| ThreadPool.WaitsForWork | koro/thread_pool.cpp:38-47 | a parked worker leaves cv.wait only with a task in its queue or its stop flag set |
| ThreadPool.ParksWhenIdle | koro/thread_pool.cpp:31-47 | with every queue empty and its flag unset a worker comes to park |
| ThreadPool.SubmitsInTurn | koro/thread_pool.h:42-47 | call number i goes to worker i modulo the number of workers |
| ThreadPool.LatePushIsLost | koro/thread_pool.cpp:50-53 | a run in which a push after the worker left never runs |
| ThreadPool.RunsAtMostOnce | koro/thread_pool.cpp:78-93 | no task ever runs twice or is queued again after it ran |
| ThreadPool.NoLostNotify | koro/thread_pool.cpp:31-48 | a parked worker with a task or its stop flag set has been notified or is still owed a notify |
| ThreadPool.OwnerOrder | koro/thread_pool.cpp:26-30 | over a whole run the tasks a worker takes from its own queue are in push order and older than all that is still in the queue |
| ThreadPool.TrackedStep | koro/thread_pool.cpp:26-53 | each step keeps: the queues of workers that left hold just the late tasks not stolen, and a stolen task is in no queue |
| ThreadPool.InvStep | koro/thread_pool.cpp:20-57 | every step of workers, submitters and destructor keeps conservation, order, stop discipline, late and stolen tasks, and notification |

## Left out

- Form: the scheduler loop, `do_io`, `idle` and the thread pool are interleaved protocols; they are modelled as step
  functions on values with explicit program counters, so object identity and update in place are not captured there.
- Liveness: nothing is claimed about eventual wake-up, `stop()` returning or joins not hanging.
- Memory: weak orderings and compiler caching of thread-locals; memory is sequentially consistent.
- Events: epoll may report any bound slot at any time, and epoll_wait may return at any time: more events than the kernel
  would report.
- Descriptors: closing or removing a descriptor is only modelled as code in `Interest`. In the machine a descriptor keeps
  the worker it was bound to, so closing it and reusing the number, even with no waiter, is not covered: a stale event
  handled by another worker would push on the channel's queue without a tickle. Resizing the channel table is left out.
- Direct callers of `registerEvent` and `bindTaskQueue`: in the machine channels are driven through do_io only.
- Scheduler.PendingCount: counts the waits of do_io and timers; waits registered by direct callers of `registerEvent` are
  not in the machine. Each timer is cancelled at most once; one that fires does not lower the count, as in the code.
- Scheduler.OneWakeup: is about fibers submitted once, as a callback.
- Base scheduler: the `idle` of the base class waits with no predicate and has no wake-up guarantee; only the one of
  IOManager is modelled.
- Several schedulers: `init` uses one static for all instances, so one instance is modelled, after `init`.
- Nested fibers and error callbacks beyond their task: `handleError` is empty.
- Timers: how ids are numbered, intervals as floating-point seconds (they are exact nanoseconds here),
  and the address order of entries with equal times, which is left open.
- Masks: epoll masks are sets of bit numbers instead of 32-bit words; only the bits the code names
  matter.
- AsyncLogging.AsyncLogging.Turn: the loop around it is left out, since it need not end; the wait on the condition
  variable is a stretch of interference.
- Log files, formatting, log levels and flags: the log output is an append-only sequence of lines.
- Contexts: stacks, signal masks and failures of swapcontext and getcontext.
