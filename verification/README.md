# The coroutine runtime, modelled and proved in Dafny

This project models the four machines of the coroutine runtime in `src/` and proves what they
promise each other:

* the **timers** (`src/timer/`): an ordered set keyed by deadline alone, with cancel, refresh, reset,
  re-arm, a drain loop and a wake-up flag;
* the **event table** of the IO scheduler (`src/iomanager/`): fd contexts, the interest set of epoll, a
  pending counter and the waiters handed to the scheduler;
* the **fibers** (`src/fiber/`): control transfer between the fibers of one thread;
* the **scheduler** (`src/scheduler/`) with everything above it: workers that share one list, run fibers
  under their mutexes, look after timers and events when idle, and leave when all is at rest, together
  with the hooked sleeps (`src/hook/`).

Code that updates objects is modelled by classes whose methods are proved against specification
functions; what the code is for is proved about those functions, over whole runs. What happens between
threads is modelled by step systems, and proved over every interleaving of their steps.

| file | content |
|---|---|
| `Options.dfy`, `Bags.dfy` | null pointers; bags of things spread over a sequence |
| `DeadlineSet.dfy`, `Drain.dfy` | the ordered set of timers; the drain loop on it |
| `TimerModel.dfy`, `TimerLaws.dfy`, `TimerLife.dfy` | the timer manager as a value; refinement of a plain collection; lifecycle and clock |
| `TimerEffects.dfy` | what each call does to its timer, in plain terms |
| `TimerValues.dfy`, `Timers.dfy` | lemmas for, and the classes `Timer` and `TimerManager` |
| `WakeUp.dfy` | one idle worker, any number of threads inserting timers, the pipe |
| `FdModel.dfy`, `FdLaws.dfy`, `IoManager.dfy` | the event table as a value; its laws; the classes `Context` and `IOManager` |
| `FdEffects.dfy` | what each operation does to its waiter, in plain terms |
| `FdBatches.dfy` | a batch of reports with operations of other threads in between |
| `PendingCount.dfy` | the pending counter between the instructions of concurrent operations |
| `FiberModel.dfy`, `Fibers.dfy` | control transfer as a value; the classes `Fiber` and `Thread` |
| `Tasks.dfy`, `Schedulers.dfy` | the list of the scheduler as a value; the class `Scheduler` |
| `Runtime.dfy`, `RuntimeMoves.dfy` | scheduler, fibers, timers and idle loops as one step system; what each move leaves alone |
| `RuntimeCalls.dfy` | what the calls of running code come to, from their beginning to their return |
| `RuntimeMutex.dfy`, `RuntimeTasks.dfy`, `RuntimeLogs.dfy` | mutual exclusion; exactly-once and order; yields are complete before resumes |
| `RuntimeResets.dfy` | the assertions of run, resume and yield, and when they fail |
| `RuntimeShutdown.dfy` | the pending counter among all other steps; what shutdown leaves behind |
| `RuntimeCredits.dfy`, `RuntimeSleep.dfy` | the right to resume a sleeper, on its way from its timer to a worker; sleeps end to end |
| `RuntimeJobs.dfy`, `RuntimeWakes.dfy` | what jobs name; a resume on its way can be made |
| `RuntimeEnds.dfy` | the verdict of stopping(), and when all workers can still come to leave |
| `RuntimeLeaks.dfy` | runs in which something is left behind, is lost or fails |
| `Hooks.dfy` | the conversions of the hooked sleeps to milliseconds |

## Where the code falls short of what it is for

Each of these is stated as an exact condition; the failures that need several threads come with a run.

* Two timers with one deadline are one element to the set: the second is dropped, and an operation on it
  hits the first (`TimerLaws.RefinesIff`, `TimerLaws.ClashLosesTimers`), and a re-arm that clashes loses a
  recurring timer (`Drain.NoRearmLostIff`).
* So a hooked sleep hangs for good if its deadline is taken when it begins, or if a cancel finds its timer
  at the deadline of another one (`RuntimeSleep.SleepFateIff`, `RuntimeWakes.SleepHangsIff`,
  `RuntimeLeaks.TwoSleepersOneWakes`).
* `Fiber::reset` takes no mutex. A fiber that is reset after its state has become TERM and before its last
  yield fails the assertion of that yield (`RuntimeResets.FailsIff`, `RuntimeLeaks.ResetTooEarly`).
* The drain loop does not end for a recurring timer whose new deadline is still within reach
  (`Drain.TerminatesIff`): a period of zero, or any recurring timer after a clock rollover.
* The guards of `delEvent` and `cancelEvent` are read as `(!events) & event`; operations on an event that is
  not registered, next to one that is, break the table or an assertion (`FdLaws.ApplyIff`,
  `FdLaws.DelVerdictIff`). The evident intent is what `Safe` describes.
* The same guards let `delEvent` lower the pending counter for an event that is not registered, next to one
  that is; then all workers can leave while a waiter is registered (`RuntimeLeaks.DeletedOther`), and the
  unsigned counter can wrap around (`FdEffects.CounterWraps`).
* `IOManager::stopping` makes three separate reads, and `cancelEvent` lowers the counter before it hands the
  waiter over. With more than one worker, or with calls from outside, the workers can leave while a timer is
  set or a waiter still registered; reading all at once would help against the first only. Shutdown is safe
  exactly without these and with events deleted only while they are registered
  (`RuntimeLeaks.ShutdownSafeIff`). The accepted tasks are nevertheless all done
  (`RuntimeShutdown.AcceptedTasksRun`), which is what the repository's README promises (README.md:156).
* A task pinned to a thread that is not a worker, or whose worker has left, keeps all idle fibers going, and
  `stop()` joins for ever; nothing else does (`RuntimeEnds.CanJoinIff`, `RuntimeEnds.PinnedToNobody`).
* The idle loop locks a descriptor only when it handles the report about it. If another thread deletes or
  cancels one of two reported events first, the assertion of `triggerEvent` fails (`FdBatches.InterleavedIff`,
  `FdBatches.CancelledInBetween`).
* The hooked `sleep` is cut short beyond 4294967 seconds. `nanosleep` is wrong from 2^31 milliseconds on: the
  deadline even lies in the past for the upper half of every span of 2^32 milliseconds
  (`Hooks.SleepExactIff`, `Hooks.NanosleepExactIff`).

## Model

| member | source | states |
|---|---|---|
| DeadlineSet.FoundIffOccupied | src/timer/timer.cc:77-80 | find succeeds exactly when some timer in the set has that very deadline, whoever it is |
| DeadlineSet.FoundItself | src/timer/timer.cc:18-21 | a timer of the set is found at its own deadline, at its own place |
| DeadlineSet.InsertMembers | src/timer/timer.cc:168-168 | insert adds the timer if its deadline is free and changes nothing otherwise |
| DeadlineSet.EraseMembers | src/timer/timer.cc:18-21 | erase takes out whatever has the deadline and nothing else |
| Drain.TerminatesIff | src/timer/timer.cc:138-155 | the drain loop ends if and only if no reached recurring timer is re-armed within reach of the loop, with or without a rollover |
| Drain.UsualTermination | src/timer/timer.cc:138-155 | it ends with positive periods and no rollover, and after a rollover without recurring timers |
| Drain.TrappedForever | src/timer/timer.cc:142-155 | a trapped timer keeps the loop going for any number of turns |
| Drain.FiresTheDue | src/timer/timer.cc:134-156 | exactly the callbacks of the reached timers are collected, in deadline order, and nothing reached stays in the set |
| Drain.Fates | src/timer/timer.cc:148-154 | which timers a drain leaves in the set and which have left it, each with its final value: unreached ones untouched, recurring ones re-armed unless their place is taken, one-shots without callback |
| Drain.NoRearmLostIff | src/timer/timer.cc:148-151 | no recurring timer is lost in a drain if and only if the re-arm deadlines are beyond reach, free and distinct |
| Timers.Timer.Cancel | src/timer/timer.cc:7-23 | clears the callback once, erases what the set finds at the deadline, and reports whether there was a callback |
| Timers.Timer.Refresh | src/timer/timer.cc:26-42 | moves the timer to one period from now; refuses without callback or when nothing is found |
| Timers.Timer.Reset | src/timer/timer.cc:45-69 | new period from now or from the start of the current one, nothing for an unchanged period, and the insertion's front hook |
| Timers.TimerManager.Erase | src/timer/timer.cc:18-21 | the loop over the set finds and erases what has the deadline |
| Timers.TimerManager.Place | src/timer/timer.cc:168-168 | the insertion keeps a timer with a taken deadline outside, and reports the position |
| Timers.TimerManager.AddTimer | src/timer/timer.cc:164-180 | inserts, and runs the front hook only for the first insertion at the front since the last getNextTimer |
| Timers.TimerManager.NewTimer | src/timer/timer.cc:90-95 | the timer made is returned even when the set drops it |
| Timers.TimerManager.GetNextTimer | src/timer/timer.cc:110-131 | lowers the flag; all bits set without timers, 0 when due, otherwise the remaining milliseconds rounded down |
| Timers.TimerManager.DetectClockRollover | src/timer/timer.cc:183-195 | a reading more than an hour before the last one is a rollover; the reading is kept |
| Timers.TimerManager.DrainOne | src/timer/timer.cc:143-154 | one turn of the loop, as the model has it |
| Timers.TimerManager.ListExpiredCb | src/timer/timer.cc:134-156 | the whole drain, whenever it ends: set, timers outside, callbacks and clock |
| TimerLaws.RefinesIff | src/timer/timer.cc:7-69 | add, cancel, refresh, reset and drain do to the deadline-keyed set what they do to a plain collection if and only if the deadlines they install are free; then no timer is lost |
| TimerLaws.RunRefines | src/timer/timer.cc:77-80 | over every run without clashes the set is the plain collection |
| TimerLaws.FrontIsEarliest | src/timer/timer.cc:121-121 | begin is the minimum |
| TimerLaws.ClashLosesTimers | src/timer/timer.cc:77-80 | two timers for one instant: the second is not in the set, and cancelling it takes out the first |
| TimerLaws.CollectWorks | src/timer/timer.cc:134-156 | what a drain makes of every timer, in the set and outside it |
| TimerLife.CallLives | src/timer/timer.cc:7-69 | every call keeps a callback in every timer of the set, and a dead timer dead |
| TimerLife.DeadForever | src/timer/timer.cc:143-154 | once cancelled, or fired as a one-shot, a timer is never in the set again, whatever is called |
| TimerLife.CancelledOnce | src/timer/timer.cc:7-23 | after a successful cancel, over any run, a further cancel returns false and so does refresh |
| TimerLife.DeadRefuses | src/timer/timer.cc:26-56 | cancel, refresh and reset of a dead timer fail and change nothing |
| TimerLife.CollectFires | src/timer/timer.cc:142-146 | a drain collects one callback for each due timer and for no other, never an empty one |
| TimerLife.CollectKills | src/timer/timer.cc:152-154 | a one-shot that has fired is dead |
| TimerLife.RunBegins | src/timer/timer.cc:63-66 | with a monotone clock no period begins in the future, after any run of construct, refresh, reset and re-arm |
| TimerLife.RefreshPostpones | src/timer/timer.cc:25-42 | refresh never moves a deadline earlier |
| TimerEffects.CreateEffect | src/timer/timer.cc:71-75 | a new timer is due ms milliseconds after its construction, with its period, kind and callback; it is in the set exactly when that deadline was free, and the hook runs exactly when it precedes every deadline of the set and the flag is down; no other timer changes |
| TimerEffects.RefreshEffect | src/timer/timer.cc:26-42 | a refresh that works makes the deadline one period from now and keeps everything else of the timer; the verdict says when it works |
| TimerEffects.ResetEffect | src/timer/timer.cc:45-69 | a reset that moves a timer gives it the new period, and the deadline now + the new period, or the old deadline plus the difference of the periods; identity, callback and kind stay, and so do the other timers |
| TimerEffects.CancelEffect | src/timer/timer.cc:7-23 | a cancel takes the callback and the element found at the deadline, and nothing else; it returns true exactly when there was a callback |
| TimerEffects.TimeoutExact | src/timer/timer.cc:110-131 | all 64 bits set without timers, 0 once the earliest deadline has come, otherwise the whole milliseconds to it |
| TimerEffects.PeekEffect | src/timer/timer.cc:110-114 | getNextTimer lowers the flag and changes no timer; the next timer that is due before all others runs the hook |
| TimerEffects.CollectEffect | src/timer/timer.cc:134-156 | with the clock at most 3600000000000 ticks back a drain collects exactly the timers due at the reading and leaves the others untouched; with the clock further back it collects every timer; what becomes of each timer |
| TimerEffects.MonotoneNeverEarly | src/timer/timer.cc:183-195 | over every run with a clock that never goes back no drain takes it for a rollover, and none collects a timer before its deadline |
| WakeUp.StepKeeps | src/iomanager/ioscheduler.cc:282-289 | every step of the worker and of the inserting threads keeps the cover: no deadline before the end of the wait, or a byte in the pipe or on its way |
| WakeUp.NoDeadlineOverslept | src/iomanager/ioscheduler.cc:330-341 | whenever the worker waits, its wait ends within the cap and in time for every deadline unless a tickle is in the pipe or in flight; the front hook has run at most once since the last getNextTimer |
| WakeUp.BecomesIdle | src/iomanager/ioscheduler.cc:291-327 | a worker with nothing to do becomes idle, and stopping() lowers the flag when it asks for the next timer |
| WakeUp.WaitsFor | src/iomanager/ioscheduler.cc:330-341 | an idle worker waits five seconds, or the whole milliseconds to the earliest deadline if fewer, and not at all once it is due |
| WakeUp.FrontWakes | src/iomanager/ioscheduler.cc:282-289 | a call that runs the front hook while the worker waits leads to a byte in the pipe that ends the wait |
| WakeUp.TickleWrites | src/iomanager/ioscheduler.cc:282-289 | a tickle writes one byte if a thread is counted idle and none otherwise |
| WakeUp.CollectsAfterWait | src/iomanager/ioscheduler.cc:343-345 | however a wait ends, what is due can be collected next, and the worker goes back to the list |
| FdLaws.GrowthWorks | src/iomanager/ioscheduler.cc:97-105 | growing a table of at least 32 slots for any descriptor beyond it makes room, keeps every context and adds empty ones |
| FdLaws.AddKeeps | src/iomanager/ioscheduler.cc:107-138 | on an agreeing table addEvent completes: an event that is set is refused, any other is armed with exactly one of fiber and callback, counted and in the interest set |
| FdLaws.DelKeeps | src/iomanager/ioscheduler.cc:142-181 | deleting a registered event takes it out of context, counter and interest set and hands over nobody |
| FdLaws.CancelKeeps | src/iomanager/ioscheduler.cc:184-225 | cancelling does the same and hands the waiter to the scheduler once |
| FdLaws.CancelAllKeeps | src/iomanager/ioscheduler.cc:227-274 | cancelAll hands over all waiters of the descriptor and its closing assertion holds |
| FdLaws.ReportKeeps | src/iomanager/ioscheduler.cc:366-407 | a report about registered events fires exactly those, an error firing all; the mode chosen for epoll_ctl is the valid one |
| FdLaws.DelOfOther | src/iomanager/ioscheduler.cc:157-172 | deleting an event that is not registered, next to one that is, breaks the counter |
| FdLaws.ApplyIff | src/iomanager/ioscheduler.cc:90-274 | an operation on an agreeing table completes and leaves it agreeing if and only if it is safe |
| FdLaws.ApplyKeeps | src/iomanager/ioscheduler.cc:90-274 | and then every waiter is accounted for: registered afterwards + handed over + deleted = registered before + added |
| FdLaws.InitConsistent | src/iomanager/ioscheduler.cc:34-34 | the table after construction agrees and holds no waiter |
| FdLaws.WaitersConserved | src/iomanager/ioscheduler.cc:90-274 | over every safe run the waiters are conserved, the counter is the number of set bits, the interest set is the table, and nothing handed over is taken back |
| FdLaws.EachWaiterOnce | src/iomanager/ioscheduler.cc:72-86 | from the constructed table on: all waiters ever added = still registered + handed to the scheduler once + deleted |
| FdLaws.Frame | src/iomanager/ioscheduler.cc:97-105 | the table never shrinks, slot i keeps descriptor i, other contexts are untouched, and a waiter stays until an operation takes it out |
| FdEffects.GrownEffect | src/iomanager/ioscheduler.cc:97-105 | a table too small for the descriptor gets one and a half times the descriptor as its size, truncated; no event is gained or lost |
| FdEffects.AddEffect | src/iomanager/ioscheduler.cc:90-139 | afterwards exactly the given waiter is armed for the event, -1 exactly for an event that was set; no other event or waiter changes, and nobody is handed over |
| FdEffects.DelEffect | src/iomanager/ioscheduler.cc:142-181 | the event is gone and its waiter handed to nobody; every other event and waiter stays |
| FdEffects.CounterWraps | src/iomanager/ioscheduler.cc:157-172 | after the delete of an event that is not registered, deleting the only registered one takes the unsigned counter below zero |
| FdEffects.CancelEffect | src/iomanager/ioscheduler.cc:184-225 | the event is gone and its waiter is the one appended to the queue; every other event and waiter stays |
| FdEffects.NothingToTake | src/iomanager/ioscheduler.cc:157-166 | the verdict of delEvent and cancelEvent where they change nothing |
| FdEffects.CancelAllEffect | src/iomanager/ioscheduler.cc:227-274 | every event of the descriptor is gone, the waiters are appended READ first, and other descriptors stay as they are |
| FdEffects.ReportEffect | src/iomanager/ioscheduler.cc:366-407 | after a report an event is gone and its waiter appended to the queue if and only if it was registered and the report names it or is an error; every other event and waiter stays |
| FdLaws.BatchSafe | src/iomanager/ioscheduler.cc:354-408 | a batch about different descriptors, still registered when it starts, runs through without a failed assertion |
| FdBatches.ReportAbortsIff | src/iomanager/ioscheduler.cc:366-407 | handling a report fails the assertion of triggerEvent if and only if the report names an event nobody waits for, next to one that fires |
| FdBatches.InterleavedIff | src/iomanager/ioscheduler.cc:366-369 | a report about registered events fails after an operation of another thread if and only if that operation took one event of the report out and left another one to fire |
| FdBatches.CancelledInBetween | src/iomanager/ioscheduler.cc:398-402 | READ and WRITE are added and reported, READ is cancelled before the report is handled, and its assertion fails |
| FdBatches.MixedBatchSafe | src/iomanager/ioscheduler.cc:354-408 | with any operations of other threads between the reports, a batch runs through if they are safe and take out nothing that is still to be reported |
| FdLaws.DelVerdictIff | src/iomanager/ioscheduler.cc:157-159 | delEvent returns true for registered events only, exactly where its guard means what it was written for |
| IoManager.Context.TriggerEvent | src/iomanager/ioscheduler.cc:72-86 | fails exactly when the event is not registered or nobody waits; otherwise clears the bit and context and yields the waiter |
| IoManager.IOManager.ContextResize | src/iomanager/ioscheduler.cc:422-431 | existing contexts keep their identity, new slots get fresh ones |
| IoManager.IOManager.AddEvent | src/iomanager/ioscheduler.cc:90-139 | the new state and result of addEvent, growth included |
| IoManager.IOManager.DelEvent | src/iomanager/ioscheduler.cc:142-181 | the new state and result of delEvent |
| IoManager.IOManager.CancelEvent | src/iomanager/ioscheduler.cc:184-225 | the new state and result of cancelEvent, or the failed assertion |
| IoManager.IOManager.CancelAll | src/iomanager/ioscheduler.cc:227-274 | the new state and result of cancelAll, or the failed assertion |
| IoManager.IOManager.HandleReport | src/iomanager/ioscheduler.cc:366-407 | the new state after one report, or the failed assertion |
| IoManager.IOManager.HandleBatch | src/iomanager/ioscheduler.cc:354-408 | the loop over a batch runs through as a safe run of reports and leaves the table agreeing |
| PendingCount.StepKeeps | src/iomanager/ioscheduler.cc:125-128 | every instruction of every thread keeps the counter apart from the set bits by exactly what is in progress |
| PendingCount.EachBitOnce | src/iomanager/ioscheduler.cc:72-86 | however the instructions of the threads interleave: bits ever set = still set + waiters handed over + bits deleted, as multisets |
| PendingCount.CounterNeverWraps | src/iomanager/ioscheduler.h:71-71 | however the instructions of the threads interleave, the counter is at least what they still have to count down |
| PendingCount.CounterNeverLow | src/iomanager/ioscheduler.cc:260-270 | the counter is below the number of set bits only by deletes and cancels under way, so not at all inside cancelAll and the idle batch |
| PendingCount.CounterExact | src/iomanager/ioscheduler.cc:398-407 | between operations the counter is the number of set bits |
| PendingCount.ZeroMeansNothing | src/iomanager/ioscheduler.cc:291-295 | a zero seen with no delete or cancel under way means nothing registered and no count owed |
| PendingCount.ZeroDuringCancel | src/iomanager/ioscheduler.cc:220-223 | a zero seen inside a cancel does not |
| PendingCount.AddRuns | src/iomanager/ioscheduler.cc:125-138 | an add that runs through sets the bit and counts it |
| PendingCount.RemoveRuns | src/iomanager/ioscheduler.cc:167-180 | a delete or cancel that runs through clears the bit and counts it down; the waiter is handed over by the cancel only |
| PendingCount.FireRuns | src/iomanager/ioscheduler.cc:397-407 | a waiter that is fired is handed over, cleared and counted down, each once |
| PendingCount.FiringOpens | src/iomanager/ioscheduler.cc:366-368 | cancelAll and the idle loop get a descriptor exactly when nobody holds it, and may leave it as they found it |
| FiberModel.DisciplineIff | src/fiber/fiber.cc:149-199 | a step keeps the thread's pointers and contexts right if and only if fibers are resumed from their carrier |
| FiberModel.RunDisciplined | src/fiber/fiber.cc:9-14 | over every ruled run t_fiber is the executing fiber, and at most main, scheduler fiber and one more are nested |
| FiberModel.YieldReturns | src/fiber/fiber.cc:176-199 | a yield or an end gives control to the carrier and changes nothing but the state of the fiber |
| FiberModel.ResumeTransfers | src/fiber/fiber.cc:149-169 | a resume from its carrier is possible for a ready fiber and makes it the executing one; nothing else of the thread changes |
| FiberModel.YieldTransfers | src/fiber/fiber.cc:176-199 | a fiber that yields becomes READY, one that finishes TERM, and its carrier executes; nothing else changes |
| FiberModel.ResetRevives | src/fiber/fiber.cc:126-142 | a terminated fiber that is reset can be resumed, and executes when resumed from its carrier; nothing else changes and it stays in its scheduler |
| FiberModel.ArrivalJoins | src/fiber/fiber.cc:87-113 | a fiber that joins the thread has its own context, and can be resumed exactly if it is READY; one that leaves again leaves the thread as it was |
| FiberModel.YieldReturnsToResumer | src/fiber/fiber.cc:149-220 | whatever happens in between, a yield returns to the fiber that resumed |
| FiberModel.ResumeYield | src/fiber/fiber.cc:149-199 | resuming a fiber that yields at once changes nothing |
| FiberModel.TermUntilReset | src/fiber/fiber.cc:126-142 | a finished fiber runs again only after a reset |
| FiberModel.StartDisciplined | src/fiber/fiber.cc:34-46 | the first GetThis leaves everything right |
| FiberModel.ResumeFromTaskGoesAstray | src/fiber/fiber.cc:154-169 | a fiber resumed from another scheduled one leaves t_fiber naming a fiber that does not execute |
| Fibers.Fiber.Reset | src/fiber/fiber.cc:126-142 | a terminated fiber becomes ready with a new callback and a fresh context |
| Fibers.Fiber.Resume | src/fiber/fiber.cc:149-169 | the new pointers, state and contexts of the thread |
| Fibers.Fiber.Yield | src/fiber/fiber.cc:176-199 | the same for a yield, which keeps TERM |
| Fibers.Fiber.Finish | src/fiber/fiber.cc:212-219 | the end of the callback drops it and yields for good |
| Fibers.Thread.GetThis | src/fiber/fiber.cc:34-46 | makes the main fiber on the first call and returns the current one afterwards |
| Fibers.Thread.SwapContext | src/fiber/fiber.cc:156-156 | saves the executing code in one context and goes on with the other's |
| Tasks.TakesOldest | src/scheduler/scheduler.cc:97-114 | what a scan takes is the oldest task of its lane, and no other lane changes |
| Tasks.NothingFoundIff | src/scheduler/scheduler.cc:101-106 | a scan finds nothing if and only if there is no unpinned task and none pinned to the thread |
| Schedulers.Scheduler.ScheduleLock | src/scheduler/scheduler.h:38-55 | appends a task that is not empty, and reports whether the list was empty |
| Schedulers.Scheduler.ScheduleLockFrom | src/scheduler/scheduler.h:82-96 | the pointer overloads also leave the caller's value empty |
| Schedulers.Scheduler.TakeTask | src/scheduler/scheduler.cc:97-120 | the scan takes the first eligible task, keeps the order of the rest, counts the worker active, and tickles if a task was skipped or taken |
| Schedulers.Scheduler.BeginStop | src/scheduler/scheduler.cc:162-166 | the flag is set afterwards, and the call returns early only when everything had stopped |
| RuntimeMutex.StepKeeps | src/scheduler/scheduler.cc:123-139 | every step keeps: a fiber's mutex is held by the worker using it, and a running fiber is executed by the holder |
| RuntimeCalls.SubmitEffect | src/scheduler/scheduler.h:38-55 | what running code schedules is queued last, for the thread asked for; an empty task is not queued |
| RuntimeCalls.LaunchEffect | src/fiber/fiber.cc:87-113 | a fiber that is made and scheduled is READY, free and without a past, and is queued last |
| RuntimeCalls.AddTimerEffect | src/timer/timer.cc:90-95 | a timer added by running code is due ms milliseconds from now and is in the set exactly if that deadline was free |
| RuntimeCalls.EraseTimerEffect | src/timer/timer.cc:18-21 | a cancel takes what is set for the deadline out of the set, and nothing else |
| RuntimeCalls.SleepEffect | src/hook/hook.cc:76-87 | a hooked sleep leaves a one-shot timer that wakes this very fiber, if the deadline is free, records the deadline and goes on to yield; it is possible in an IOManager only |
| RuntimeCalls.RestartEffect | src/fiber/fiber.cc:126-142 | a reset is possible for a terminated fiber only and makes it READY; mutex and past stay |
| RuntimeCalls.AddEventEffect | src/iomanager/ioscheduler.cc:125-138 | an addEvent run through registers the waiter last and counts it |
| RuntimeCalls.DropEventEffect | src/iomanager/ioscheduler.cc:167-180 | a delEvent run through takes the waiter out, counts it down and schedules nobody |
| RuntimeCalls.CancelEventEffect | src/iomanager/ioscheduler.cc:210-224 | a cancelEvent run through does the same and schedules that waiter, and nobody else, for any thread |
| RuntimeCalls.ReportEffect | src/iomanager/ioscheduler.cc:397-407 | a report of the idle loop does to table, counter and list what a cancel does |
| RuntimeCalls.CollectEffect | src/timer/timer.cc:134-156 | an idle worker can collect for any reading not ahead of the clock exactly if the loop ends; it then holds the callbacks of the timers due, earliest first, and has touched no other |
| RuntimeCalls.AddedAndRemoved | src/iomanager/ioscheduler.cc:90-225 | adding an event and deleting it again changes nothing; cancelling it instead schedules its waiter |
| RuntimeCalls.OutsideEffect | src/scheduler/scheduler.h:38-55 | a call from a thread outside does what one of running code does, and is late after stop() |
| RuntimeCalls.OutsideCallEffect | src/iomanager/ioscheduler.cc:90-225 | an event call from a thread outside does what one of running code does, and is late after stop() |
| RuntimeTasks.MutualExclusion | src/scheduler/scheduler.cc:123-139 | over every run a fiber is in the hands of one worker at most, and it is running exactly when the holder of its mutex executes it |
| RuntimeResets.FailsIff | src/fiber/fiber.cc:126-131 | a run has failed an assertion of run, resume or yield, or has a fiber whose last yield will fail, if and only if a fiber was reset between its end and its last yield |
| RuntimeResets.DoomedFails | src/fiber/fiber.cc:207-219 | the last yield of a fiber that was reset too early can be made at once and fails; no other step averts it |
| RuntimeResets.UnheldResetsNeverFail | src/fiber/fiber.cc:176-178 | in a run that resets only fibers whose mutex nobody holds, no assertion fails |
| RuntimeResets.EndedUntilReset | src/scheduler/scheduler.cc:124-129 | over every run a fiber that has ended stays TERM and is not resumed, however often it is scheduled, until it is reset |
| RuntimeLeaks.ResetTooEarly | src/fiber/fiber.cc:207-219 | a run of one worker in which a reset from outside comes between TERM and the last yield, whose assertion fails |
| RuntimeTasks.EachTaskOnce | src/scheduler/scheduler.cc:92-153 | over every run: accepted = waiting + in hand + done, as multisets; the active count is the number in hand; each lane is taken in order of acceptance, by threads that are allowed to |
| RuntimeLogs.ResumedOnceSaved | src/scheduler/scheduler.cc:123-131 | over every run a fiber is resumed only after its last yield is complete, however often and wherever it is queued |
| RuntimeShutdown.StepBalances | src/iomanager/ioscheduler.cc:397-407 | every step keeps the counter apart from the registered waiters by exactly the calls and reports in progress and the deletes of events that were not registered |
| RuntimeShutdown.CounterInRuns | src/iomanager/ioscheduler.cc:125-128 | in every configuration and every run: counter + deletes of events that were not registered = waiters registered and not about to be taken out + calls and reports in progress that are counted |
| RuntimeShutdown.QuietStays | src/scheduler/scheduler.cc:202-205 | once at rest, the runtime stays at rest unless a call from outside begins or returns |
| RuntimeShutdown.AcceptedTasksRun | src/scheduler/scheduler.cc:36-39 | in every configuration and every run: when it is over and no call from outside has begun or returned after stop(), every accepted task is done and the destructor's assertion holds |
| RuntimeShutdown.TrustedIsSafe | src/iomanager/ioscheduler.cc:291-295 | in the trusted configurations nothing is left: no timer, no waiter registered or in a call, no task, nobody active, no callback between collecting and scheduling |
| RuntimeEnds.VerdictIff | src/scheduler/scheduler.cc:202-215 | at the top of its loop the idle fiber of an undisturbed worker ends if and only if stop is set, the list empty and nobody active, and in an IOManager no timer set and no event pending; otherwise it goes on to wait, and nothing else changes |
| RuntimeEnds.CheckIsNext | src/scheduler/scheduler.cc:208-215 | a worker there has no other move |
| RuntimeEnds.ReadsIff | src/iomanager/ioscheduler.cc:291-295 | each of the three reads of IOManager::stopping sees the state at its own moment and decides by it alone |
| RuntimeEnds.AllScan | src/scheduler/scheduler.cc:92-153 | from every state with positive periods some continuation brings every worker back to the scan with nothing to take, without anybody leaving |
| RuntimeEnds.StrandedForever | src/scheduler/scheduler.cc:101-106 | a task that only absent threads may take stays in the list for ever, and a worker that has not terminated goes on idling |
| RuntimeEnds.CanJoinIff | src/scheduler/scheduler.cc:143-148 | in every state of every run all workers can still come to leave, so that stop() can join them, if and only if their idle fibers have ended already or every waiting task has a worker that may take it and has not left; for an IOManager with positive periods and without deletes of events that were not registered |
| RuntimeEnds.PinnedToNobody | src/scheduler/scheduler.h:38-55 | a run with stop set, nobody active and a task pinned to a thread that does not exist, after which stop() never returns |
| RuntimeLeaks.LastOneLeaves | src/iomanager/ioscheduler.cc:313-327 | a run of two or more workers that all leave while a timer is set |
| RuntimeLeaks.OutsiderTooQuick | src/iomanager/ioscheduler.cc:291-295 | a run of one worker that reads step by step and leaves while a timer set from outside before stop() is pending |
| RuntimeLeaks.CancelTooSlow | src/iomanager/ioscheduler.cc:220-223 | a run in which all workers leave, however they read, while a cancel from outside has lowered the counter and not handed its waiter over |
| RuntimeLeaks.DeletedOther | src/iomanager/ioscheduler.cc:157-172 | a run of any number of workers, however they read, that all leave while a waiter is registered, after its task has deleted another event that was not |
| RuntimeLeaks.ShutdownSafeIff | src/iomanager/ioscheduler.cc:291-295 | shutdown leaves nothing behind if and only if the scheduler is a plain one, or events are deleted only while registered, nobody calls from outside, and the reads of stopping() are one step or there is one worker |
| RuntimeCredits.DrainShares | src/timer/timer.cc:142-155 | a drain hands every wake-up on or keeps it: none is lost and none doubled |
| RuntimeCredits.FiredAreDue | src/timer/timer.cc:142-146 | a wake-up that is collected belongs to a timer that is due |
| RuntimeCredits.StepSleeps | src/hook/hook.cc:81-86 | every step keeps the resume of a sleeper on its way or makes it, without doubling it, except an erase that hits its timer, which takes it for good |
| RuntimeSleep.SleepIsRight | src/hook/hook.cc:81-86 | over every run a fiber scheduled by nobody else is resumed at most once for each hooked sleep, not before its deadline, and not before its yield is complete |
| RuntimeSleep.OneWakeAtATime | src/hook/hook.cc:97-100 | over every run at most one wake-up of such a fiber is set, collected, queued or in hand, and none while it executes |
| RuntimeSleep.SleepFateIff | src/hook/hook.cc:94-101 | after a sleep, over any continuation in which the fiber has not been resumed, its resume is set, collected, queued or in hand if and only if the deadline was free and no erase has hit the timer while it was set; otherwise no continuation resumes the fiber |
| RuntimeWakes.ComesToRest | src/scheduler/scheduler.cc:92-153 | from every state that carries a resume, some continuation either resumes the fiber or brings every worker to where it has nothing in hand and nothing to take, with the timers untouched |
| RuntimeWakes.HangsIff | src/iomanager/ioscheduler.cc:313-350 | with one worker that has not terminated and is not between the reads of stopping(), and no recurring timer of period zero, a sleeper is never resumed in any continuation if and only if no resume of it is on its way |
| RuntimeWakes.SleepHangsIff | src/hook/hook.cc:81-86 | then a sleep hangs if and only if its deadline was taken or an erase has hit its timer while that was set |
| RuntimeWakes.TrustedHangsIff | src/iomanager/ioscheduler.cc:313-350 | where shutdown is safe, nothing need be known of the workers: in every reachable state a sleeper is never resumed again if and only if no resume of it is on its way |
| RuntimeWakes.TrustedSleepHangsIff | src/hook/hook.cc:81-86 | there a sleep hangs, after any continuation, if and only if its deadline was taken or an erase has hit its timer while that was set |
| RuntimeLeaks.TwoSleepersOneWakes | src/hook/hook.cc:83-85 | a run in which two fibers sleep for the same time at the same reading of the clock, and the second is never resumed |
| Hooks.SleepExactIff | src/hook/hook.cc:83-83 | the deadline of a sleep is the full time ahead exactly up to 4294967 seconds, short by a multiple of 2^32 milliseconds beyond, and never in the past |
| Hooks.UsleepExactIff | src/hook/hook.cc:97-97 | usleep falls short by less than a millisecond, and not at all exactly for whole milliseconds |
| Hooks.NanosleepExactIff | src/timer/timer.cc:71-75 | the deadline of a nanosleep is the whole milliseconds ahead exactly when they fit an int; it lies in the past exactly for the upper half of each span of 2^32 milliseconds; it is off by a multiple of 2^32 milliseconds |

## Left out

- The system calls: epoll is a map from descriptors to masks that reports arbitrary events, the pipe a byte count, swapcontext a change of the executing fiber. Calls that are valid in the model are taken to succeed.
- src/thread: thread identities are given; worker w of the step system has identity w.
- The socket, read, write and fcntl hooks, `do_io` and the fd manager: they have no behaviour yet.
- `addConditionTimer`: a one-branch wrapper.
- Stacks, reference counts, fiber identifiers and debug output; EPOLLET, which is always set; the overlay of `event.data.fd` and `event.data.ptr`.
- Overflow of 64-bit deadlines, and the period of `Timer::reset` as a bounded number. The constructor takes a period of 2^63 milliseconds or more as a negative one (src/timer/timer.cc:74); `Hooks` states what that makes of the hooked sleeps, the other modules have periods that are not negative.
- Timers.Timer.Reset: the lock is dropped between its two halves (src/timer/timer.cc:61-67); they are one step here.
- FdLaws.BatchSafe: no operation of another thread comes between the reports of a batch, although the source locks each descriptor on its own (src/iomanager/ioscheduler.cc:368); `FdBatches.MixedBatchSafe` is the theorem with such operations.
- IoManager.IOManager.HandleBatch: runs alone in the same way; what other threads do to the counter between two reports is covered by `PendingCount`.
- IoManager.IOManager.AddEvent: the growth branch takes the exclusive lock while it holds the shared one (src/iomanager/ioscheduler.cc:100-105); it is one exclusive section here, descriptors are not negative, and the calling fiber is taken to be running (src/iomanager/ioscheduler.cc:136).
- Schedulers.Scheduler.TakeTask: the comparison of an erased iterator (src/scheduler/scheduler.cc:115) is taken to mean that a task was taken.
- WakeUp.NoDeadlineOverslept: covers one idle worker and a monotone clock, and leaves out the EINTR retry, which is a wake-up for another reason followed by a new reading.
- Prompt wake-up for plain tasks: a tickle is dropped while no thread is counted idle, so only the cap of 5000 ms remains; the idle count is therefore not part of the step system.
- Runtime: making the fiber of a callback and locking it is one step, as is constructing and inserting a timer; an event call is two steps, the counter and the rest, and has its descriptor to itself in between; `cancelAll` is not among the calls, nor is a `cancelEvent` that fails its assertion; descriptors are not told apart, so a delete of an event that is not registered can come whenever some event is; timers are drained with a monotone clock; what a user's callback may do is any sequence of the modelled calls.
- RuntimeSleep.SleepIsRight: says nothing of a fiber that other code schedules as well, which the code lets cut a sleep short, and nothing of a nanosleep beyond an int of milliseconds, whose deadline can lie in the past (`Hooks.NanosleepExactIff`).
- RuntimeEnds.CanJoinIff: says that the workers can leave, if fibers end, events are reported and recurring timers are cancelled by the code of a callback, not that they will; of an IOManager whose counter is off by a stray delete, or whose drain cannot end, it says nothing.
- RuntimeWakes.HangsIff: says that a resume can be made, not that it will be under fair scheduling; outside the configurations of `RuntimeWakes.TrustedHangsIff` it says nothing of a state in which every worker has terminated or is between the reads of stopping().
- `Fiber::reset` of a fiber whose context is still in use by another thread: the state and the assertions on it are modelled, the overwritten context is not.
