# Zephyr kernel objects: models and proofs

A Dafny model of the concurrent core of the Zephyr kernel as it is in this
repository (`zephyr/kernel`), and of the device dependency compaction that runs
at build time. Each subsystem has two forms:

- a specification on values: datatypes, one function per operation, an invariant
  that every operation keeps, runs of operations, and the laws that hold over
  every run;
- the code in its own form: a class whose methods update lists, flag words, ring
  buffers or memory words in place, with the loops of the source, each method
  proved equal to the function that specifies it.

| files | subsystem | source |
|---|---|---|
| `TimeoutSpec`, `TimeoutQueue` | timeout queue | `zephyr/kernel/timeout.c` |
| `WorkSpec`, `WorkInvariant`, `WorkRuns`, `WorkTheorems`, `WorkEffects`, `WorkWords`, `WorkQueues` | work queues | `zephyr/kernel/work.c` |
| `PipeSpec`, `PipeTheorems`, `PipeRuns`, `PipeOutcomes`, `PipeTicks`, `PipeObject` | pipes | `zephyr/kernel/pipes.c` |
| `SchedSpec`, `SchedInvariant`, `SchedRuns`, `SchedTheorems`, `SchedOrder`, `SchedEffects`, `ThreadWords`, `Scheduler` | scheduler | `zephyr/kernel/sched.c` |
| `PriorityQueues` | the two list-based ready queues | `zephyr/kernel/sched.c` |
| `WaitQueue`, `IdList` | sorted wait queues, linked lists | `zephyr/kernel/sched.c` |
| `BitWords` | bits of a word | `zephyr/kernel/work.c`, `zephyr/kernel/sched.c` |
| `MutexSpec`, `MutexTheorems`, `KMutex` | mutexes with priority inheritance | `zephyr/kernel/mutex.c` |
| `MsgqSpec`, `MsgqCalls`, `MsgqOutcomes`, `MessageQueue` | message queues | `zephyr/kernel/msg_q.c` |
| `MailboxSpec`, `MailboxTheorems`, `MailboxOutcomes`, `Mailbox` | mailboxes | `zephyr/kernel/mailbox.c` |
| `MemSlab` | memory slabs | `zephyr/kernel/mem_slab.c` |
| `DeviceHandles` | dependency compaction and its reader | `zephyr/scripts/gen_handles.py`, `zephyr/include/device.h` |

## Conventions

- One processor: `CONFIG_SMP`, meta-IRQs, deadlines and non-atomic swap are off.
  A region under a spin lock is one atomic step, and steps of any number of
  threads and interrupts interleave freely. A pipe call copies with only the
  scheduler locked; `PipeTicks` shows that timeouts during the copying are as good
  as timeouts after it, so that everywhere else a call is one step.
- The comment above `z_impl_k_msgq_purge` speaks of threads waiting to write; the
  code wakes waiting readers as well, and the model follows the code.
- A flusher gives its semaphore when the queue thread takes it, which is the
  earliest moment its handler can, and may be used again from then on.
- The threads that wait for a drain are kept in the order in which they asked; they
  are all released together, so their order on the wait queue makes no difference.
- Blocking calls are modelled up to the point where they block; waking up,
  timing out and going on are further steps. Logs in the state (accepted,
  delivered, finished, released and so on) record what has happened so far, so
  that laws can speak about whole runs.
- Ticks, counts and priorities are unbounded integers in the specifications; the
  scheduler's class has priority and lock count as bytes. Ticks are those of
  `CONFIG_TIMEOUT_64BIT`. Lower priority numbers are higher priorities.
- What the code asserts of its callers is a precondition of a step: the idle
  thread is left alone, only a running thread blocks or yields, only held blocks
  are freed, a pending timeout is not added again.
- Errors are results: every refused, failed or would-block branch is part of the
  operation it belongs to. Codes are those of
  `zephyr/lib/libc/minimal/include/errno.h`.

## Where the code does not do what one might expect

Each is stated exactly, with an instance:

- Announcing ticks in two portions instead of one gives the same result for all
  handlers exactly when the timer driver reports no elapsed ticks
  (`TimeoutSpec.SplitsIffNothingElapsed`).
- `include/kernel.h` speaks of at least nine combinations of work flags; exactly
  ten occur (`WorkTheorems.FlagCombinationsExactly`).
- A priority change of a pended thread does not move it on its wait queue. Wait
  queues are in order, and wake-ups take the best waiter, exactly as long as such
  changes fit between the neighbours (`SchedOrder.OrderExactly`,
  `SchedOrder.WakeTakesLower`).
- A waiter whose mutex timeout has run out adjusts the owner's priority when it
  runs again. It finds no owner to adjust exactly when the mutex was left free in
  the meantime and not locked since (`MutexTheorems.FaultsExactly`,
  `MutexTheorems.FaultReachable`).
- Until then the owner may have the priority of a waiter that is gone; its exact
  priority is given (`MutexTheorems.ExactlyTarget`, `MutexTheorems.StaleLiftsOwner`).
- That adjustment puts an owner whose own priority is above the ceiling below its
  own priority exactly when a waiter is left (`MutexSpec.AdjustKeeps`,
  `MutexTheorems.CeilingLowersOwner`).
- A thread that waits for the drain of a queue that has not been started is
  forgotten when the queue is started (`WorkTheorems.DrainWakesWhenIdle`,
  `WorkTheorems.DrainForgotten`).
- On a message queue for zero messages putters and getters wait side by side
  (`MsgqSpec.WaitersLaw`).
- A memory slab with two or more blocks of size zero gets a free list that never
  ends (`MemSlab.BuiltExactly`).
- A second-pass handle array has no terminator for the reader to stop at exactly
  when three more devices are required than the node has direct dependencies and
  there are no extra ones (`DeviceHandles.SecondPass`, `DeviceHandles.NoTerminator`).

## Model

| member | source | states |
|---|---|---|
| `TimeoutSpec.AddIsDue` | zephyr/kernel/timeout.c:85-106 | a timeout of n ticks is due n + 1 ticks after the current tick, plus what the driver has counted unless ticks are being announced; one for an absolute tick is due then, or on the next tick if that is past; it is pending once; an endless or already pending one changes nothing |
| `TimeoutSpec.AbortUnlinks` | zephyr/kernel/timeout.c:144-156 | an aborted timeout is no longer pending |
| `TimeoutSpec.AbortedNeverFires` | zephyr/kernel/timeout.c:144-156 | an aborted timeout that no handler adds again never fires, however far time is advanced |
| `TimeoutSpec.Slot` | zephyr/kernel/timeout.c:108-119 | the place of a new expiry: behind every entry that expires no later, in front of the first that expires later |
| `TimeoutSpec.Exec` | zephyr/kernel/timeout.c:82-156 | adding and aborting keep the queue sorted and free of duplicates, do not move the clock, and add nothing that is already due |
| `TimeoutSpec.InsertKeepsOrder` | zephyr/kernel/timeout.c:108-119 | adding keeps the queue sorted by absolute expiry and its entries distinct |
| `TimeoutSpec.RemoveKeepsOrder` | zephyr/kernel/timeout.c:53-60 | removing keeps the queue sorted and its entries distinct |
| `TimeoutSpec.ExecKeepsOthers` | zephyr/kernel/timeout.c:82-156 | no add or abort changes the expiry of another pending timeout |
| `TimeoutSpec.Turn` | zephyr/kernel/timeout.c:243-255 | one turn of the announcement runs the first handler at exactly its expiry and uses up ticks or leading due entries, whatever the handler asks for |
| `TimeoutSpec.EventLoopAdvances` | zephyr/kernel/timeout.c:233-267 | for all handlers: the clock advances by exactly the announced ticks, handlers run at nondecreasing ticks within the announced span, and afterwards everything pending lies in the future |
| `TimeoutSpec.EventLoopIsPunctual` | zephyr/kernel/timeout.c:243-255 | a timeout that no handler aborts fires at exactly its expiry if that is reached, and keeps its expiry if not |
| `TimeoutSpec.EventLoopFiresOnlyRequested` | zephyr/kernel/timeout.c:243-255 | every handler run was asked for: the timeout was pending at the start with that expiry, or an earlier handler asked for exactly that tick, by the numbers of AddIsDue |
| `TimeoutSpec.EventLoopSplits` | zephyr/kernel/timeout.c:233-267 | announcing a+b ticks equals announcing a and then b, with handlers that may re-arm, when no ticks elapse unannounced |
| `TimeoutSpec.SplitsIffNothingElapsed` | zephyr/kernel/timeout.c:62-65 | that splitting law holds for all handlers exactly when the driver reports no elapsed ticks between announcements |
| `TimeoutSpec.RearmDoesNotSplit` | zephyr/kernel/timeout.c:62-65 | a self-re-arming handler for which the law fails when elapsed ticks are reported |
| `TimeoutDeltas.DeltasRoundTrip` | zephyr/kernel/timeout.c:53-60 | the delta encoding determines its list: encoding the absolute expiries of a delta list gives it back |
| `TimeoutDeltas.AbsoluteRoundTrip` | zephyr/kernel/timeout.c:53-60 | every queue of absolute expiries is recovered from its delta list |
| `TimeoutDeltas.EncodesOnlyAbsolute` | zephyr/kernel/timeout.c:108-119 | the entry-by-entry reading of a delta list (each entry counts from its predecessor) has exactly one solution, the prefix sums |
| `TimeoutDeltas.UnlinkAbsolute` | zephyr/kernel/timeout.c:53-60 | adding a removed delta to the successor removes one expiry and moves no other |
| `TimeoutDeltas.LinkAbsolute` | zephyr/kernel/timeout.c:108-119 | linking an entry and reducing the successor inserts one expiry and moves no other |
| `TimeoutDeltas.AbsoluteRebased` | zephyr/kernel/timeout.c:247-262 | passing time up to the first entry leaves all expiries where they were |
| `TimeoutDeltas.DeltasNonNegative` | zephyr/kernel/timeout.c:53-60 | deltas of a well-formed queue are never negative |
| `TimeoutDeltas.TimeoutQueue.constructor` | zephyr/kernel/timeout.c:15-25 | an empty queue at tick 0 |
| `TimeoutDeltas.TimeoutQueue.RemoveTimeout` | zephyr/kernel/timeout.c:53-60 | removes exactly one expiry |
| `TimeoutDeltas.TimeoutQueue.Walk` | zephyr/kernel/timeout.c:108-115 | where the new entry goes, and what is left of its ticks there |
| `TimeoutDeltas.TimeoutQueue.LinkTimeout` | zephyr/kernel/timeout.c:108-119 | the list walk inserts exactly the requested absolute expiry, stably |
| `TimeoutDeltas.TimeoutQueue.AddTimeout` | zephyr/kernel/timeout.c:82-142 | equals the abstract add, and the entry it leaves has exactly the expiry asked for, relative or absolute |
| `TimeoutDeltas.TimeoutQueue.AbortTimeout` | zephyr/kernel/timeout.c:144-156 | equals the abstract abort; succeeds exactly when the timeout was pending, which it no longer is |
| `TimeoutDeltas.TimeoutQueue.Remaining` | zephyr/kernel/timeout.c:159-186 | the expiry minus the current tick and the elapsed ticks; 0 when not pending |
| `TimeoutDeltas.TimeoutQueue.NextTimeout` | zephyr/kernel/timeout.c:67-80 | never sleeps past an expiry or the end of the time slice, and otherwise never wakes earlier than the first expiry unless capped |
| `TimeoutDeltas.TimeoutQueue.RunHandler` | zephyr/kernel/timeout.c:252-254 | a handler that adds and aborts while the list is being announced |
| `TimeoutDeltas.TimeoutQueue.PopFirst` | zephyr/kernel/timeout.c:244-250 | time moves to the first expiry and that entry leaves the list |
| `TimeoutDeltas.TimeoutQueue.FireFirst` | zephyr/kernel/timeout.c:243-255 | equals one turn of the event loop |
| `TimeoutDeltas.TimeoutQueue.Announce` | zephyr/kernel/timeout.c:233-267 | the announcement loop terminates and equals the event loop; the first delta is positive afterwards |
| `WorkInvariant.EditKeeps` | zephyr/kernel/work.c:251-356 | any change of one item and one list that keeps the order of the others keeps the whole invariant |
| `WorkInvariant.AppendKeeps` | zephyr/kernel/work.c:251-283 | an accepted submission keeps flags, lists, queue threads and flushers in agreement |
| `WorkInvariant.DequeueKeeps` | zephyr/kernel/work.c:202-208 | so does taking a queued item off its list |
| `WorkInvariant.FlushKeeps` | zephyr/kernel/work.c:171-193 | so does inserting a flusher behind its target, or in front when the target runs |
| `WorkInvariant.TakeKeeps` | zephyr/kernel/work.c:591-630 | so does the queue thread taking an item or completing a drain |
| `WorkInvariant.FinishKeeps` | zephyr/kernel/work.c:645-654 | so does the end of a handler, with or without a pending cancellation |
| `WorkInvariant.FlusherFindsThemOver` | zephyr/kernel/work.c:591-630 | when a flusher comes to the front, nothing it was sent after is queued or running |
| `WorkRuns.SubmitStep` | zephyr/kernel/work.c:311-356 | a submission keeps the invariant, whatever its outcome |
| `WorkRuns.FlushStep` | zephyr/kernel/work.c:411-427 | a flush request keeps the invariant, with a sync object that may have been used before, once its semaphore was given |
| `WorkRuns.CancelStep` | zephyr/kernel/work.c:472-491 | a cancel keeps the invariant |
| `WorkRuns.CancelSyncStep` | zephyr/kernel/work.c:508-522 | joining the cancellers of an item keeps the invariant |
| `WorkRuns.UnscheduleStep` | zephyr/kernel/work.c:875-887 | unscheduling ends the delay and changes nothing else, and tells whether there was one |
| `WorkRuns.ScheduleStep` | zephyr/kernel/work.c:843-861 | scheduling keeps the invariant |
| `WorkRuns.TakeStep` | zephyr/kernel/work.c:580-630 | the first locked region of the queue thread keeps the invariant |
| `WorkRuns.FinishStep` | zephyr/kernel/work.c:645-654 | the second locked region keeps the invariant, after an item or a flusher |
| `WorkRuns.DrainStep` | zephyr/kernel/work.c:706-736 | a drain request to any queue, started or not, keeps the invariant; it returns at once exactly when nothing is listed, no handler runs, no drain is on and no plug is asked for |
| `WorkRuns.UnplugStep` | zephyr/kernel/work.c:738-756 | unplugging keeps the invariant |
| `WorkRuns.StartStep` | zephyr/kernel/work.c:666-704 | starting a queue keeps the invariant |
| `WorkRuns.Run` | zephyr/kernel/work.c:251-356 | the invariant holds after every run of submissions, flushes, cancels, schedules, timer expiries, worker steps, drains and plugs |
| `WorkRuns.NoReentrancy` | zephyr/kernel/work.c:311-356 | in every reachable state: QUEUED iff exactly once on the list of work->queue and on no other; RUNNING iff the thread of work->queue, and no other, is inside the handler |
| `WorkRuns.SubmissionsConserved` | zephyr/kernel/work.c:251-356 | accepted submissions = finished + removed by cancel + (1 if running) + (1 if queued) |
| `WorkRuns.FlagCombinations` | zephyr/kernel/work.c:472-491 | only ten flag combinations can be reached |
| `WorkTheorems.FlagCombinationsExactly` | zephyr/kernel/work.c:472-522 | each of the ten is reached, so exactly these occur |
| `WorkTheorems.AllTenOccur` | zephyr/kernel/work.c:145-148 | runs that show each of the ten combinations |
| `WorkTheorems.StepAdvances` | zephyr/kernel/work.c:251-356 | no step forgets a submission or reopens one that is over |
| `WorkTheorems.FlushWaitsForAll` | zephyr/kernel/work.c:411-459 | whenever a flusher has run, every submission accepted before the flush was requested has finished or was cancelled, through other flushers, resubmissions and cancels |
| `WorkTheorems.FlushCoversAll` | zephyr/kernel/work.c:411-427 | a flush waits exactly when the item is queued or running, and then covers all submissions accepted so far |
| `WorkTheorems.FinishReleasesExactly` | zephyr/kernel/work.c:109-132 | at the end of a handler exactly its cancellers are released, once each and in order; the other records keep their order |
| `WorkTheorems.CancelWaitersConserved` | zephyr/kernel/work.c:91-132 | cancellation waits ever started = released ones + records on the list; every record is for an item that is CANCELING and RUNNING |
| `WorkTheorems.CancelBlocksSubmission` | zephyr/kernel/work.c:311-320 | after a cancel the item is idle, or still running and refuses every submission |
| `WorkTheorems.CancelledIsIdle` | zephyr/kernel/work.c:645-650 | the end of a cancellation leaves the item idle unless it has been delayed again |
| `WorkTheorems.QueueControl` | zephyr/kernel/work.c:591-630 | the queue thread never sleeps with work or a drain request; plugged and drained means empty and idle; a drain waiter means DRAIN |
| `WorkTheorems.DrainWakesWhenIdle` | zephyr/kernel/work.c:601-612 | a drain waiter leaves only when the queue thread finds the list empty and nothing running, or when starting a queue that was drained before it was started forgets it |
| `WorkTheorems.DrainForgotten` | zephyr/kernel/work.c:679-681 | a run that ends with such a waiter, and the start that forgets it |
| `WorkTheorems.DrainRefusesOutsiders` | zephyr/kernel/work.c:258-283 | over every run during which a queue drains and its own thread submits nothing, no submission, schedule, flush or expired delay of anybody else brings an item onto its list |
| `WorkEffects.SubmitTo` | zephyr/kernel/work.c:251-356 | where an item that is neither queued nor being cancelled goes (the queue that runs it, the one named, or its last one), exactly when that queue is not started or refuses, and that an accepted item is last on its list with the thread awake and nothing else changed |
| `WorkEffects.SubmitLaw` | zephyr/kernel/work.c:311-356 | the other answers of a submission: -EBUSY while cancelling, 0 when already queued, -EINVAL without a queue, and then nothing changes |
| `WorkEffects.FlushLaw` | zephyr/kernel/work.c:171-193 | a flush waits iff the item is queued or running; its flusher is right behind a queued item and in front of everything for one that only runs; nothing else changes |
| `WorkEffects.CancelLaw` | zephyr/kernel/work.c:472-491 | a cancel takes the item off its list, marks that submission cancelled and the item as canceling iff it runs; every other item keeps its place |
| `WorkEffects.CancelDelayableLaw` | zephyr/kernel/work.c:900-905 | the same for a delayable item, whose delay also ends |
| `WorkEffects.CancelSyncLaw` | zephyr/kernel/work.c:508-571 | the synchronous cancels do the same; their caller waits iff the handler runs, behind all who wait already |
| `WorkEffects.ScheduleLaw` | zephyr/kernel/work.c:843-965 | scheduling leaves a queued, delayed or canceling item alone, rescheduling ends the old delay; without a delay either submits, with one the item is delayed for that queue, its timeout pending unless it waits forever |
| `WorkEffects.DelayLaw` | zephyr/kernel/work.c:766-787 | rescheduling an item and letting the delay run out is submitting it to that queue from interrupt level |
| `WorkEffects.FlushDelayableLaw` | zephyr/kernel/work.c:1027-1074 | flushing a delayed item submits it first; the caller waits iff it is then queued or running, for that submission too |
| `WorkEffects.TakeNone` | zephyr/kernel/work.c:601-630 | with an empty list the queue thread completes a drain, releases everybody who waits for it and sleeps; a plugged queue stays plugged |
| `WorkEffects.TakeFirst` | zephyr/kernel/work.c:591-600 | otherwise it takes the first entry and nothing else: an item starts running, a flusher releases who waits for it |
| `WorkEffects.FinishLaw` | zephyr/kernel/work.c:645-654 | when a handler returns, the item is neither running nor canceling, its submission is finished, and the thread is free; no other item changes |
| `WorkEffects.DrainLaw` | zephyr/kernel/work.c:706-736 | a drain returns at once iff no plug is asked for, the list is empty, no handler runs and no drain is on, and then everything ever submitted to the queue is over and nothing changes; otherwise the caller is last among those who wait, the drain is on and a sleeping thread awake |
| `WorkEffects.DrainedMeansOver` | zephyr/kernel/work.c:599-612 | whoever waits for a drain is released only when everything ever submitted to the queue is over |
| `WorkEffects.FlagsOnlyByCall` | zephyr/kernel/work.c:706-756 | no other step starts, plugs or unplugs a queue or begins a drain |
| `WorkEffects.PluggedStaysShut` | zephyr/kernel/work.c:258-283 | over every run without unplugging, draining or starting it, a plugged queue that has drained stays empty and idle |
| `WorkEffects.StepFifo` | zephyr/kernel/work.c:171-208 | no step lets anything overtake what is ahead of it on a list |
| `WorkEffects.FifoLaw` | zephyr/kernel/work.c:251-283 | first in, first out over every run: of two entries that stay on a list the one ahead stays ahead, and the thread does not take the other first |
| `BitWords.SetBit` | zephyr/kernel/work.c:26-30 | setting one bit of a word changes no other; used for the flag words and for the priority bitmask |
| `BitWords.ClearBit` | zephyr/kernel/work.c:20-24 | clearing one bit of a word changes no other |
| `BitWords.TestIsBit` | zephyr/kernel/work.c:32-36 | the mask of flag_test picks that bit |
| `WorkWords.WorkFlags` | zephyr/include/kernel.h:3381-3388 | changing one flag of the word of a work item changes one field of the record it is read as |
| `WorkWords.QueueFlags` | zephyr/include/kernel.h:3394-3402 | the same for the word of a queue |
| `WorkWords.BusyWord` | zephyr/kernel/work.c:145-148 | K_WORK_MASK reads the four flags as the number k_work_busy_get reports; it is zero iff the item is idle |
| `WorkWords.TwoFlags` | zephyr/kernel/work.c:414-415 | one mask tests two flags at once, for flushing and for draining |
| `WorkQueues.FindAndRemove` | zephyr/kernel/work.c:202-208 | removes one item from a list, keeping the order of the others |
| `WorkQueues.WorkSubsystem.QueueSubmit` | zephyr/kernel/work.c:251-283 | the admission decision on the flag word, and the append |
| `WorkQueues.WorkSubsystem.SubmitLocked` | zephyr/kernel/work.c:311-356 | equals Submit, on flag words: refused, already queued, submitted, or resubmitted to the queue that runs it |
| `WorkQueues.WorkSubsystem.QueueFlusher` | zephyr/kernel/work.c:171-193 | puts the flusher behind its target, or in front when the target is not on the list |
| `WorkQueues.WorkSubsystem.FlushLocked` | zephyr/kernel/work.c:411-427 | equals Flush, with the mask of two flags |
| `WorkQueues.WorkSubsystem.QueueRemove` | zephyr/kernel/work.c:202-208 | takes a queued item off its list and does nothing otherwise |
| `WorkQueues.WorkSubsystem.CancelLocked` | zephyr/kernel/work.c:472-491 | equals CancelAsync, and returns the busy flags of the word |
| `WorkQueues.WorkSubsystem.ReleaseCancellers` | zephyr/kernel/work.c:109-132 | the list walk releases exactly the matching records and keeps the others in order |
| `WorkQueues.WorkSubsystem.SubmitToQueue` | zephyr/kernel/work.c:358-383 | a submission, keeping the invariant |
| `WorkQueues.WorkSubsystem.WorkFlush` | zephyr/kernel/work.c:429-459 | a flush up to the point where the caller waits |
| `WorkQueues.WorkSubsystem.WorkCancel` | zephyr/kernel/work.c:524-539 | a cancel and the flags it returns |
| `WorkQueues.WorkSubsystem.WorkCancelSync` | zephyr/kernel/work.c:541-571 | a synchronous cancel; it waits exactly when the item was running |
| `WorkQueues.WorkSubsystem.Schedule` | zephyr/kernel/work.c:907-929 | schedules an idle or running item, leaves a queued, delayed or cancelling one alone |
| `WorkQueues.WorkSubsystem.Reschedule` | zephyr/kernel/work.c:943-965 | drops a pending delay and schedules anew |
| `WorkQueues.WorkSubsystem.CancelDelayable` | zephyr/kernel/work.c:900-905 | drops the delay and cancels |
| `WorkQueues.WorkSubsystem.CancelDelayableSync` | zephyr/kernel/work.c:995-1025 | the synchronous form; it waits exactly when the item was running |
| `WorkQueues.WorkSubsystem.FlushDelayable` | zephyr/kernel/work.c:1027-1074 | submits a delayed item at once and flushes it |
| `WorkQueues.WorkSubsystem.WorkTimeout` | zephyr/kernel/work.c:766-787 | the expiry of a delay submits the item |
| `WorkQueues.WorkSubsystem.GoToSleep` | zephyr/kernel/work.c:601-630 | nothing to do: a drain completes and the thread sleeps |
| `WorkQueues.WorkSubsystem.WorkerTake` | zephyr/kernel/work.c:591-630 | the first locked region of the loop, keeping the invariant |
| `WorkQueues.WorkSubsystem.FinishItem` | zephyr/kernel/work.c:645-652 | the item stops running; a cancellation is finalised; equals Finish |
| `WorkQueues.WorkSubsystem.WorkerFinish` | zephyr/kernel/work.c:645-654 | the second locked region of the loop, keeping the invariant |
| `WorkQueues.WorkSubsystem.QueueDrain` | zephyr/kernel/work.c:706-736 | a drain request to any queue; the caller waits unless nothing is listed, no handler runs, no drain is on and no plug is asked for |
| `WorkQueues.WorkSubsystem.QueueUnplug` | zephyr/kernel/work.c:738-756 | unplugs, and tells whether the queue was plugged |
| `WorkQueues.WorkSubsystem.QueueStart` | zephyr/kernel/work.c:666-704 | starts a queue with empty lists and only STARTED set |
| `PipeSpec.FeedBytes` | zephyr/kernel/pipes.c:456-487 | waiting readers are stored exactly the front of the data, in queue order |
| `PipeSpec.PullBytes` | zephyr/kernel/pipes.c:602-665 | what is pulled from the writers is the front of what they offer, and the rest stays on offer |
| `PipeTheorems.FeedCalls` | zephyr/kernel/pipes.c:456-487 | no waiting reader is lost or duplicated by a put |
| `PipeTheorems.FeedReaders` | zephyr/kernel/pipes.c:456-487 | each reader has stored exactly what the log says was delivered to it |
| `PipeTheorems.PullWriters` | zephyr/kernel/pipes.c:602-665 | each writer has left exactly the data the log does not show as taken |
| `PipeTheorems.FeedShape` | zephyr/kernel/pipes.c:321-345 | a reader leaves the queue with its whole request met and stays on it only with bytes outstanding |
| `PipeTheorems.PullShape` | zephyr/kernel/pipes.c:321-345 | a writer leaves the queue with nothing left and stays on it only with bytes left |
| `PipeTheorems.PutStream` | zephyr/kernel/pipes.c:456-496 | a put keeps the stream law |
| `PipeTheorems.GetStream` | zephyr/kernel/pipes.c:583-665 | a get keeps the stream law |
| `PipeTheorems.PutShape` | zephyr/kernel/pipes.c:269-281 | after a put: everything placed, or ring full and no reader waiting |
| `PipeTheorems.GetShape` | zephyr/kernel/pipes.c:269-281 | after a get: satisfied, or ring empty and no writer waiting |
| `PipeRuns.PutKeeps` | zephyr/kernel/pipes.c:398-545 | a put keeps the whole invariant, in every branch |
| `PipeRuns.GetKeeps` | zephyr/kernel/pipes.c:547-713 | a get keeps the whole invariant, in every branch |
| `PipeRuns.ExpireWriterKeeps` | zephyr/kernel/pipes.c:531-544 | so does the timeout of a waiting put |
| `PipeRuns.ExpireReaderKeeps` | zephyr/kernel/pipes.c:696-712 | so does the timeout of a waiting get |
| `PipeRuns.Run` | zephyr/kernel/pipes.c:398-713 | the invariant holds after every run of puts, gets and timeouts |
| `PipeRuns.StreamLaw` | zephyr/kernel/pipes.c:190-253 | over every run: bytes taken from writers, in order = bytes delivered to readers, in order, followed by the ring |
| `PipeRuns.WaitersLaw` | zephyr/kernel/pipes.c:269-281 | over every run: readers wait only if the ring is empty and no writer waits; writers only if it is full and no reader waits; nobody waits for nothing |
| `PipeRuns.CallsLaw` | zephyr/kernel/pipes.c:362-374 | over every run: every call waits in one place or has returned once; its count is the bytes moved for it, and its code agrees with its minimum |
| `PipeRuns.PutNoWait` | zephyr/kernel/pipes.c:297-311 | a put that may not wait moves nothing and fails with -EIO, exactly when too little room is there, or moves at least its minimum and returns 0 |
| `PipeRuns.GetNoWait` | zephyr/kernel/pipes.c:297-311 | the same for a get |
| `PipeRuns.GetReleases` | zephyr/kernel/pipes.c:583-665 | a writer taken off the wait queue by a get returns its full count; one left on it keeps bytes, with the ring full |
| `PipeRuns.PutReleases` | zephyr/kernel/pipes.c:456-487 | a reader taken off the wait queue by a put returns its full count |
| `PipeOutcomes.PutInvalid` | zephyr/kernel/pipes.c:415-419 | a put is refused as invalid iff its minimum exceeds its size; the pipe is as it was |
| `PipeOutcomes.PutWaits` | zephyr/kernel/pipes.c:498-544 | a put that may wait places n bytes, the lesser of its size and what readers want plus the room; it returns them iff n is all or at least a minimum above zero, and otherwise waits with the rest |
| `PipeOutcomes.GetInvalid` | zephyr/kernel/pipes.c:558-562 | a get is refused as invalid iff its minimum exceeds its size |
| `PipeOutcomes.GetWaits` | zephyr/kernel/pipes.c:667-712 | a get that may wait takes n bytes, the lesser of its size and what there is; it returns them iff n is all or at least a minimum above zero, and otherwise waits for the rest |
| `PipeOutcomes.FeedInOrder` | zephyr/kernel/pipes.c:447-487 | waiting readers are served in order: each gets exactly the bytes that follow what those in front of it want |
| `PipeOutcomes.PutTimesOut` | zephyr/kernel/pipes.c:362-374 | a put that times out reports exactly the bytes taken from it, with success iff those are its minimum, and they stay taken |
| `PipeOutcomes.GetTimesOut` | zephyr/kernel/pipes.c:362-374 | the same for a get |
| `PipeOutcomes.WritersHadToWait` | zephyr/kernel/pipes.c:507-534 | over every run, whoever waits in a put came to wait by a put of the run that found less room than its size, and less than its minimum if that is above zero |
| `PipeOutcomes.ReadersHadToWait` | zephyr/kernel/pipes.c:676-700 | over every run, the same for whoever waits in a get |
| `PipeTicks.QuietPut` | zephyr/kernel/pipes.c:398-545 | a put that is split into preparing and copying, with no tick in between, is the whole put |
| `PipeTicks.QuietGet` | zephyr/kernel/pipes.c:547-713 | the same for a get |
| `PipeTicks.InsertRemove` | zephyr/kernel/sched.c:930-945 | inserting a waiter and removing another commute on a sorted queue |
| `PipeTicks.PutReaderTick` | zephyr/kernel/pipes.c:441-454 | a reader whose timeout runs out while a put copies still gets its bytes, and returns as if it had timed out just after the put |
| `PipeTicks.PutWriterTick` | zephyr/kernel/pipes.c:398-545 | so does a writer whose timeout runs out then, even if the put joins that queue |
| `PipeTicks.GetWriterTick` | zephyr/kernel/pipes.c:583-665 | a writer whose timeout runs out while a get copies still gives its bytes, and returns as if it had timed out just after the get |
| `PipeTicks.GetReaderTick` | zephyr/kernel/pipes.c:547-713 | so does a reader whose timeout runs out then |
| `PipeTicks.TimedStepIs` | zephyr/kernel/pipes.c:441-454 | a call with any number of timeouts while it copies is that call followed by timeouts |
| `PipeTicks.TimedRunIsRun` | zephyr/kernel/pipes.c:262-266 | every run with timeouts during calls ends as some run with timeouts between calls |
| `PipeTicks.TimedStreamLaw` | zephyr/kernel/pipes.c:190-253 | so the stream law and the law of waiters hold with timeouts at any time |
| `PipeObject.WindowPut` | zephyr/kernel/pipes.c:190-217 | writing a run at the write index appends it to the contents |
| `PipeObject.WindowGet` | zephyr/kernel/pipes.c:227-253 | reading a run at the read index takes it off the front |
| `PipeObject.PullWorking` | zephyr/kernel/pipes.c:318-345 | the working set of pipe_xfer_prepare is exactly the writers a get empties, and the writer left on the queue is cut |
| `PipeObject.GetDone` | zephyr/kernel/pipes.c:583-665 | once the planned amounts have flowed, caller, ring and queue are as the abstract get leaves them |
| `PipeObject.KPipe.constructor` | zephyr/kernel/pipes.c:88-102 | an empty pipe over the given buffer |
| `PipeObject.KPipe.XferIn` | zephyr/kernel/pipes.c:167-180 | the copy loop into the ring |
| `PipeObject.KPipe.XferOut` | zephyr/kernel/pipes.c:167-180 | the copy loop out of the ring |
| `PipeObject.KPipe.PutRun` | zephyr/kernel/pipes.c:200-214 | one round of the buffer loop: up to the end of the buffer |
| `PipeObject.KPipe.BufferPut` | zephyr/kernel/pipes.c:190-217 | two rounds append as many bytes as fit, across the end of the buffer |
| `PipeObject.KPipe.GetRun` | zephyr/kernel/pipes.c:236-250 | one round of the buffer loop |
| `PipeObject.KPipe.BufferGet` | zephyr/kernel/pipes.c:227-253 | two rounds take as many bytes as asked or present, from the front |
| `PipeObject.KPipe.PrepareWriters` | zephyr/kernel/pipes.c:285-348 | fails exactly when waiting is not allowed and too little is on offer; otherwise splits the queue at the first writer that does not fit |
| `PipeObject.KPipe.PrepareReaders` | zephyr/kernel/pipes.c:285-348 | the same for readers |
| `PipeObject.KPipe.ServeCaller` | zephyr/kernel/pipes.c:602-626 | working-set writers serve the caller and are released when used up |
| `PipeObject.KPipe.HeadServes` | zephyr/kernel/pipes.c:628-637 | the writer left on the queue serves the caller |
| `PipeObject.KPipe.Refill` | zephyr/kernel/pipes.c:644-656 | the rest of the working set goes into the ring completely |
| `PipeObject.KPipe.HeadRefills` | zephyr/kernel/pipes.c:658-665 | the writer left on the queue fills the ring |
| `PipeObject.KPipe.ServeFirst` | zephyr/kernel/pipes.c:583-637 | the get up to the point where the caller has its data |
| `PipeObject.KPipe.RefillLast` | zephyr/kernel/pipes.c:644-665 | the get from there on |
| `PipeObject.KPipe.GetBytes` | zephyr/kernel/pipes.c:583-665 | the whole copying of a get equals GetMoves |
| `PipeObject.KPipe.PipeGet` | zephyr/kernel/pipes.c:547-713 | equals the abstract get, with its result, and keeps the invariant |
| `PipeObject.KPipe.ServeReaders` | zephyr/kernel/pipes.c:456-472 | working-set readers get their whole requests |
| `PipeObject.KPipe.ServeAll` | zephyr/kernel/pipes.c:456-487 | and the reader left on the queue gets what remains |
| `PipeObject.KPipe.PutBytes` | zephyr/kernel/pipes.c:456-496 | the whole copying of a put equals PutMoves |
| `PipeObject.KPipe.PipePut` | zephyr/kernel/pipes.c:398-545 | equals the abstract put, with its result, and keeps the invariant |
| `PipeObject.KPipe.ReadAvail` | zephyr/kernel/pipes.c:755-780 | the two indexes and the byte count give the number of bytes in the ring |
| `PipeObject.KPipe.WriteAvail` | zephyr/kernel/pipes.c:792-817 | and the free space |
| `WaitQueue.Slot` | zephyr/kernel/sched.c:930-945 | where a new waiter goes |
| `WaitQueue.InsertedAt` | zephyr/kernel/sched.c:930-945 | behind everyone of its own or a higher priority, in front of everyone of a lower one; the others keep their order, and the queue stays sorted |
| `WaitQueue.PriqAdd` | zephyr/kernel/sched.c:930-945 | the list walk does that |
| `SchedSpec.Slot` | zephyr/kernel/sched.c:930-945 | the first place in front of a thread of lower priority |
| `SchedInvariant.QueueRunq` | zephyr/kernel/sched.c:181-194 | queueing keeps the ready queue exact: the threads marked queued, once each, by priority and first come first served |
| `SchedInvariant.DequeueRunq` | zephyr/kernel/sched.c:196-203 | so does dequeueing |
| `SchedInvariant.HeadIsBest` | zephyr/kernel/sched.c:954-963 | the head is the first queued thread of the highest queued priority |
| `SchedInvariant.PendWaitqs` | zephyr/kernel/sched.c:592-603 | pending keeps the wait queues exact: pended_on == q iff once on q |
| `SchedInvariant.UnpendWaitqs` | zephyr/kernel/sched.c:633-638 | so does unpending |
| `SchedInvariant.UpdateCacheOk` | zephyr/kernel/sched.c:420-446 | recomputing the cache establishes the cache invariant |
| `SchedRuns.ReadyKeeps` | zephyr/kernel/sched.c:467-485 | ready_thread completes every step that made a thread runnable |
| `SchedRuns.StartKeeps` | zephyr/kernel/sched.c:503-515 | starting a thread keeps the invariant |
| `SchedRuns.StartLaterKeeps` | zephyr/kernel/sched.c:605-610 | so does giving an unstarted thread a start timeout |
| `SchedRuns.SuspendKeeps` | zephyr/kernel/sched.c:517-536 | so does suspending |
| `SchedRuns.ResumeKeeps` | zephyr/kernel/sched.c:547-565 | so does resuming |
| `SchedRuns.WakeupKeeps` | zephyr/kernel/sched.c:1316-1341 | so does k_wakeup |
| `SchedRuns.ThreadTimeoutKeeps` | zephyr/kernel/sched.c:649-667 | so does the timeout of a pended, sleeping or unstarted thread |
| `SchedRuns.WakeKeeps` | zephyr/kernel/sched.c:1641-1661 | so does waking the first waiter |
| `SchedRuns.RequeueKeeps` | zephyr/kernel/sched.c:1183-1199 | so does yielding or time slicing |
| `SchedRuns.SetPrioKeeps` | zephyr/kernel/sched.c:739-764 | so does a change of priority, of queued and of other threads |
| `SchedRuns.PendCurrentKeeps` | zephyr/kernel/sched.c:612-697 | so does pending the current thread and switching away |
| `SchedRuns.SleepKeeps` | zephyr/kernel/sched.c:1236-1245 | so does sleeping |
| `SchedRuns.LockKeeps` | zephyr/kernel/sched.c:824-831 | so does locking the scheduler |
| `SchedRuns.UnlockKeeps` | zephyr/kernel/sched.c:833-849 | so does unlocking it |
| `SchedRuns.SwapKeeps` | zephyr/kernel/sched.c:851-865 | so does switching to the cached thread |
| `SchedRuns.JoinKeeps` | zephyr/kernel/sched.c:1553-1583 | so does joining |
| `SchedTheorems.WakeEachWakes` | zephyr/kernel/sched.c:1451-1461 | unpend_all wakes everyone on the queue with result 0 and changes nobody else |
| `SchedTheorems.EndThreadKeeps` | zephyr/kernel/sched.c:1463-1492 | aborting a thread keeps the invariant |
| `SchedTheorems.AbortWakesJoiners` | zephyr/kernel/sched.c:1451-1492 | after an abort every joiner has result 0, pends no more and is queued iff ready; no other thread has changed |
| `SchedTheorems.StepKeeps` | zephyr/kernel/sched.c:181-203 | every kind of step keeps the invariant |
| `SchedTheorems.CacheLaw` | zephyr/kernel/sched.c:420-446 | over every run: the cache is the first queued thread of the highest queued priority, or idle if none is queued, or the current thread while that may not be preempted |
| `SchedTheorems.ListsLaw` | zephyr/kernel/sched.c:181-203 | over every run: QUEUED iff once on the ready queue; pended_on == q iff once on q; never both; queued iff ready (their order: SchedOrder.WaitOrderLaw) |
| `SchedTheorems.DeadForever` | zephyr/kernel/sched.c:1463-1492 | from its death on, over every run, a thread is on no list, has no timeout, and nobody waits to join it |
| `SchedTheorems.JoinLaw` | zephyr/kernel/sched.c:1553-1583 | when join returns 0, -EBUSY and -EDEADLK, exactly; otherwise the caller pends on the join queue of a live thread and another thread runs |
| `SchedEffects.CreateLaw` | zephyr/kernel/thread.c:769-788 | a new thread has its priority, has not started and is on no queue |
| `SchedEffects.StartLaw` | zephyr/kernel/sched.c:503-515 | starting makes a thread that had not started ready unless something else holds it, once on the ready queue; a started one and everybody else is left alone |
| `SchedEffects.ResumeLaw` | zephyr/kernel/sched.c:547-565 | resuming a suspended thread makes it ready unless something else holds it; any other thread is left alone |
| `SchedEffects.WakeupLaw` | zephyr/kernel/sched.c:1316-1341 | a wakeup ends a sleep with or without a timeout, exactly for a thread that does not pend and has a timeout or is only suspended |
| `SchedEffects.TimeoutLaw` | zephyr/kernel/sched.c:649-667 | a thread whose timeout has run out pends nowhere, has no timeout, has started, is not suspended and is on the ready queue once; one that pended finds -EAGAIN; nobody else changes |
| `SchedEffects.WakeLaw` | zephyr/kernel/sched.c:1641-1661 | waking a queue gives the first waiter the result and makes it ready unless it is suspended; the others keep their places |
| `SchedEffects.SuspendLaw` | zephyr/kernel/sched.c:517-536 | a suspended thread is off the ready queue, has no timeout, pends where it did, and is not next to run |
| `SchedEffects.SleepLaw` | zephyr/kernel/sched.c:1236-1245 | a sleeper is suspended with a timeout, and the best ready thread gets the processor |
| `SchedEffects.PendLaw` | zephyr/kernel/sched.c:592-697 | a thread that pends is on that wait queue, with -EAGAIN to find and a timeout iff one was given; those who waited keep their order; the best ready thread gets the processor |
| `SchedEffects.YieldLaw` | zephyr/kernel/sched.c:1183-1199 | who yields goes behind everybody of its priority, and goes on iff nobody else of its own or a higher priority is ready, even if it may not be preempted |
| `SchedEffects.SliceLaw` | zephyr/kernel/sched.c:388-392 | the end of a time slice does the same but for the switch |
| `SchedEffects.SetPrioLaw` | zephyr/kernel/sched.c:739-764 | a ready thread with a new priority goes behind everybody of that priority and the best thread is next; of any other only the priority changes |
| `SchedEffects.UnlockLaw` | zephyr/kernel/sched.c:833-849 | unlocking counts back; the best thread is next iff the caller may be preempted again |
| `SchedEffects.AbortLaw` | zephyr/kernel/sched.c:1463-1492 | after an abort the best ready thread is next, even if the current one may not be preempted |
| `SchedEffects.CooperativeKeepsCpu` | zephyr/kernel/sched.c:119-153 | over every run of starts, resumes, wakeups, timeouts, wakes, creations and suspensions of others, a running thread that may not be preempted stays the one to run |
| `SchedOrder.CalmWakeEach` | zephyr/kernel/sched.c:1451-1461 | waking everyone on a join queue keeps the order and the priorities on all wait queues |
| `SchedOrder.PendInOrder` | zephyr/kernel/sched.c:592-603 | a new waiter goes behind those of its own or a higher priority, so the queue stays in order |
| `SchedOrder.StepOrderExactly` | zephyr/kernel/sched.c:739-764 | a step keeps all wait queues in order exactly when it is not a priority change of a pended thread that does not fit between its neighbours on the queue |
| `SchedOrder.OrderExactly` | zephyr/kernel/sched.c:756-758 | over every run: the wait queues are in order at every point iff every priority change of a pended thread fits; so in particular if there is no such change |
| `SchedOrder.WaitOrderLaw` | zephyr/kernel/sched.c:592-603 | over every such run: each wait queue is sorted by priority and first come first served among equals |
| `SchedOrder.WakeTakesBest` | zephyr/kernel/sched.c:1641-1661 | and a wake-up takes the best waiter, the first of its priority, and leaves the others waiting |
| `SchedOrder.WakeTakesLower` | zephyr/kernel/sched.c:756-758 | a run in which a pended thread is raised above another one and the wake-up takes the lower one |
| `Scheduler.Kernel.constructor` | zephyr/kernel/sched.c:1084-1108 | only the idle thread, running |
| `ThreadWords.StateBits` | zephyr/include/kernel_structs.h:47-66 | setting or clearing one thread state bit changes no other |
| `ThreadWords.PreemptWord` | zephyr/include/kernel/thread.h:62-87 | one comparison of the halfword made of sched_locked and prio tells whether the priority is preemptible and the scheduler unlocked |
| `ThreadWords.PreventedWord` | zephyr/kernel/include/ksched.h:106-113 | the mask tells whether a thread may run; the whole byte tells whether it is only suspended |
| `ThreadWords.PrioRoundTrip` | zephyr/include/kernel/thread.h:76-87 | every priority of a signed byte is read back from it |
| `ThreadWords.LockCounts` | zephyr/kernel/include/ksched.h:251-259 | the lock count that runs down from zero, modulo 256, counts the nesting under the assertions of the kernel |
| `Scheduler.Kernel.IsReady` | zephyr/kernel/include/ksched.h:120-124 | reads the state byte and the timeout; equals Ready |
| `Scheduler.Kernel.CreateThread` | zephyr/kernel/thread.c:769-788 | the words of a new thread; equals the creation step |
| `Scheduler.Kernel.PriqAdd` | zephyr/kernel/sched.c:930-945 | the insertion loop |
| `Scheduler.Kernel.ListRemove` | zephyr/kernel/sched.c:947-952 | removal from a list |
| `Scheduler.Kernel.RunqAdd` | zephyr/kernel/sched.c:181-194 | sets QUEUED and inserts; equals QueueThread |
| `Scheduler.Kernel.RunqRemove` | zephyr/kernel/sched.c:196-203 | clears QUEUED and removes; equals DequeueThread |
| `Scheduler.Kernel.AddToWaitq` | zephyr/kernel/sched.c:592-610 | equals PendOn after Unready |
| `Scheduler.Kernel.UnpendThread` | zephyr/kernel/sched.c:633-638 | equals Unpend |
| `Scheduler.Kernel.SchedWake` | zephyr/kernel/sched.c:1641-1661 | wakes the first waiter with the given result, and tells whether there was one |
| `Scheduler.Kernel.PendCurr` | zephyr/kernel/sched.c:689-697 | pends the current thread and switches |
| `Scheduler.Kernel.StartThread` | zephyr/kernel/sched.c:503-515 | equals Start |
| `Scheduler.Kernel.SuspendThread` | zephyr/kernel/sched.c:517-536 | equals Suspend |
| `Scheduler.Kernel.ResumeThread` | zephyr/kernel/sched.c:547-565 | equals Resume |
| `Scheduler.Kernel.WakeupThread` | zephyr/kernel/sched.c:1316-1341 | equals Wakeup |
| `Scheduler.Kernel.TimeoutHandler` | zephyr/kernel/sched.c:649-667 | equals ThreadTimeout |
| `Scheduler.Kernel.SetPriority` | zephyr/kernel/sched.c:739-764 | equals SetPrio, and tells whether the thread was ready |
| `Scheduler.Kernel.Yield` | zephyr/kernel/sched.c:1183-1199 | requeues the current thread behind its equals and switches |
| `Scheduler.Kernel.TickSleep` | zephyr/kernel/sched.c:1210-1251 | sleeps, or yields if there are no ticks to sleep |
| `Scheduler.Kernel.SchedLock` | zephyr/kernel/sched.c:824-831 | counts the lock byte down; equals Lock |
| `Scheduler.Kernel.SchedUnlock` | zephyr/kernel/sched.c:833-849 | counts it up; equals Unlock |
| `Scheduler.Kernel.UnpendAll` | zephyr/kernel/sched.c:1451-1461 | the loop over the join queue equals WakeEach |
| `Scheduler.Kernel.AbortThread` | zephyr/kernel/sched.c:1463-1492 | equals EndThread |
| `Scheduler.Kernel.JoinThread` | zephyr/kernel/sched.c:1553-1583 | equals Join, with its result |
| `PriorityQueues.CtzIsLowest` | zephyr/kernel/sched.c:1054-1068 | counting trailing zeros finds the lowest set bit of any non-zero 32-bit mask |
| `PriorityQueues.DumbAddOfLevel` | zephyr/kernel/sched.c:930-945 | adding to the sorted list appends to the threads of that priority and leaves the other priorities alone |
| `PriorityQueues.DumbAddSorted` | zephyr/kernel/sched.c:930-945 | and keeps the list sorted |
| `PriorityQueues.DumbRemoveOfLevel` | zephyr/kernel/sched.c:947-952 | removing takes the thread out of its priority only |
| `PriorityQueues.AddAgrees` | zephyr/kernel/sched.c:1036-1042 | the multi-queue and the sorted list agree after an addition |
| `PriorityQueues.RemoveAgrees` | zephyr/kernel/sched.c:1044-1052 | and after a removal |
| `PriorityQueues.BestAgrees` | zephyr/kernel/sched.c:1054-1068 | two agreeing queues give the same best thread |
| `PriorityQueues.BestIsFirst` | zephyr/kernel/sched.c:954-963 | which is of the highest priority and the longest queued one of it |
| `PriorityQueues.QueuesAgree` | zephyr/include/sched_priq.h:54-57 | after every sequence of additions, removals and priority changes of unqueued threads: same best thread, bit v set iff queue v is not empty, and queue v is the priority-v part of the sorted list |
| `PriorityQueues.SortedQueue.Add` | zephyr/kernel/sched.c:930-945 | equals DumbAdd |
| `PriorityQueues.SortedQueue.Remove` | zephyr/kernel/sched.c:947-952 | equals DumbRemove |
| `PriorityQueues.Unlink` | zephyr/kernel/sched.c:947-952 | removal from a list |
| `PriorityQueues.MultiQueue.constructor` | zephyr/kernel/sched.c:1098-1102 | 32 empty queues and no bit set |
| `PriorityQueues.MultiQueue.Add` | zephyr/kernel/sched.c:1036-1042 | equals MqAdd |
| `PriorityQueues.MultiQueue.Remove` | zephyr/kernel/sched.c:1044-1052 | equals MqRemove |
| `PriorityQueues.MultiQueue.Best` | zephyr/kernel/sched.c:1054-1068 | equals MqBest |
| `MutexSpec.EnqueueSorted` | zephyr/kernel/sched.c:930-945 | a new waiter keeps the wait queue sorted; its head has the best priority |
| `MutexSpec.LockKeeps` | zephyr/kernel/mutex.c:95-146 | a lock, free, recursive, refused or contended, keeps the invariant |
| `MutexSpec.PendPrios` | zephyr/kernel/mutex.c:132-146 | a contended lock lifts the owner to the priority of the new waiter, as far as the ceiling allows, and never lowers it |
| `MutexSpec.ExpireKeeps` | zephyr/kernel/mutex.c:146-160 | so does the timeout of a waiter; there is still an owner then |
| `MutexSpec.AdjustKeeps` | zephyr/kernel/mutex.c:162-172 | recomputing after a timeout gives the owner what it should have exactly when no waiter is left or its own priority is not above the ceiling; otherwise it puts the owner below its own priority |
| `MutexSpec.UnlockKeeps` | zephyr/kernel/mutex.c:195-272 | an unlock, refused, nested or final with hand-off, keeps the invariant |
| `MutexTheorems.InheritanceLaw` | zephyr/kernel/mutex.c:72-183 | over every run, for all priorities and ceilings: owner is NULL iff lock_count is 0; waiters imply an owner; the exact priority of the owner; with its own priority not above the ceiling it is at least its own and every waiter's up to the ceiling, and the best of them once no timed-out waiter is still to run; everybody else has their own |
| `MutexTheorems.ExactlyTarget` | zephyr/kernel/mutex.c:162-172 | over every run: the owner has the priority it should have iff the last recomputation has not put it below its own and nobody who has timed out since would lift it higher |
| `MutexTheorems.EnqueueBehind` | zephyr/kernel/sched.c:930-945 | who waits for the mutex goes behind everybody of its own or a higher priority |
| `MutexTheorems.LockLaw` | zephyr/kernel/mutex.c:95-146 | a free mutex is taken, with the owner's priority noted; somebody else's gives -EBUSY or a wait |
| `MutexTheorems.UnlockLaw` | zephyr/kernel/mutex.c:195-236 | -EINVAL iff there is no owner, -EPERM iff somebody else owns it, and then nothing changes; until the last unlock only the count does |
| `MutexTheorems.OwnerKeeps` | zephyr/kernel/mutex.c:95-272 | mutual exclusion over every run: until it unlocks, the owner stays the owner |
| `MutexTheorems.FinalUnlock` | zephyr/kernel/mutex.c:238-263 | the final unlock restores the priority the owner had, and hands the mutex to the waiter in front |
| `MutexTheorems.RecursiveLock` | zephyr/kernel/mutex.c:107-125 | a recursive lock and its unlock cancel out |
| `MutexTheorems.FreeExactly` | zephyr/kernel/mutex.c:238-263 | over every run: there is no owner iff an unlock without waiters has left the mutex free and nobody has locked it since |
| `MutexTheorems.FaultsExactly` | zephyr/kernel/mutex.c:162-172 | over every run that starts with the timeout of a waiter: when that waiter goes on it finds no owner iff the mutex was left free in the meantime and not locked since |
| `MutexTheorems.PromptLaw` | zephyr/kernel/mutex.c:162-172 | a run in which every timeout is acted on at once never finds the owner gone, and has the exact priority at every such point, unless the owner's own is above the ceiling |
| `MutexTheorems.FaultReachable` | zephyr/kernel/mutex.c:162-172 | a run in which the owner is gone |
| `MutexTheorems.CeilingLowersOwner` | zephyr/kernel/mutex.c:72-79 | a run in which the timeout of one of two waiters puts an owner of priority -2 down to the ceiling 0 |
| `MutexTheorems.StaleLiftsOwner` | zephyr/kernel/mutex.c:162-172 | a run in which the owner still has the priority of a waiter that has timed out |
| `KMutex.Mutex.constructor` | zephyr/kernel/mutex.c:49-61 | a free mutex, for any priorities and ceiling |
| `KMutex.Mutex.Pend` | zephyr/kernel/sched.c:930-945 | the insertion loop on the wait queue |
| `KMutex.Mutex.LockBy` | zephyr/kernel/mutex.c:95-146 | equals Lock, with its result |
| `KMutex.Mutex.Expires` | zephyr/kernel/sched.c:649-667 | a waiter leaves the wait queue; equals Expire |
| `KMutex.Mutex.TimedOut` | zephyr/kernel/mutex.c:162-172 | equals Adjust, and tells whether there is an owner at all; then the call returns -EAGAIN |
| `KMutex.Mutex.UnlockBy` | zephyr/kernel/mutex.c:195-272 | equals Unlock, with its result |
| `MsgqSpec.PutKeeps` | zephyr/kernel/msg_q.c:116-174 | a put keeps the invariant: stored, handed to a waiting getter, refused or blocked |
| `MsgqSpec.GetKeeps` | zephyr/kernel/msg_q.c:206-270 | so does a get, with the waiting putter it admits |
| `MsgqSpec.PurgeKeeps` | zephyr/kernel/msg_q.c:318-337 | so does a purge |
| `MsgqSpec.ExpireKeeps` | zephyr/kernel/msg_q.c:159-166 | so does the timeout of a waiter, which returns -EAGAIN |
| `MsgqSpec.FifoLaw` | zephyr/kernel/msg_q.c:116-337 | over every run: accepted messages, in order = messages that have left (received or purged), in order, followed by the contents; never more than max_msgs |
| `MsgqSpec.WaitersLaw` | zephyr/kernel/msg_q.c:116-270 | all waiters are getters of an empty queue or all are putters of a full one, over every run, exactly when max_msgs > 0 |
| `MsgqSpec.MixedWaiters` | zephyr/kernel/msg_q.c:116-270 | a queue for zero messages on which a putter and a getter wait |
| `MsgqSpec.PeekLaw` | zephyr/kernel/msg_q.c:284-305 | after every run a peek shows the first accepted message that has not left, and -ENOMSG iff there is none |
| `MsgqCalls.StepAccounts` | zephyr/kernel/msg_q.c:116-337 | every step keeps the accounts of all calls |
| `MsgqCalls.CallsLaw` | zephyr/kernel/msg_q.c:116-337 | over every run: every call waits once or has returned once; a put has entered its own message once iff it has returned 0; a get has taken one message, the one in its buffer, iff it has returned 0 |
| `MsgqSpec.PurgeTellsAll` | zephyr/kernel/msg_q.c:318-337 | a purge leaves an empty queue and wakes every waiter with -ENOMSG |
| `MsgqOutcomes.PutLaw` | zephyr/kernel/msg_q.c:116-174 | a put succeeds iff there is room: its message goes last, or to the first waiting receiver; otherwise -ENOMSG or a wait |
| `MsgqOutcomes.GetLaw` | zephyr/kernel/msg_q.c:206-270 | a get succeeds iff there is a message and takes the first; then the first waiting sender gets its message in, last; otherwise -ENOMSG or a wait |
| `MessageQueue.SlotWritten` | zephyr/kernel/msg_q.c:144-149 | writing one message into the byte buffer changes no other |
| `MessageQueue.WrapNext` | zephyr/kernel/msg_q.c:145-148 | advancing a byte pointer and wrapping it at the buffer end is advancing the slot, also for messages of no bytes |
| `MessageQueue.SlotsPut` | zephyr/kernel/msg_q.c:144-149 | storing at the write pointer appends |
| `MessageQueue.SlotsGet` | zephyr/kernel/msg_q.c:219-225 | fetching at the read pointer takes the first message |
| `MessageQueue.MsgQueue.constructor` | zephyr/kernel/msg_q.c:35-55 | an empty queue over the given buffer |
| `MessageQueue.MsgQueue.CopyIn` | zephyr/kernel/msg_q.c:144-144 | the memcpy into the buffer |
| `MessageQueue.MsgQueue.Store` | zephyr/kernel/msg_q.c:144-149 | appends one message |
| `MessageQueue.MsgQueue.Fetch` | zephyr/kernel/msg_q.c:219-225 | takes the first message |
| `MessageQueue.MsgQueue.Pend` | zephyr/kernel/sched.c:612-624 | puts the caller on the wait queue |
| `MessageQueue.MsgQueue.AdmitFirst` | zephyr/kernel/msg_q.c:227-247 | a get lets the message of the first waiting putter in |
| `MessageQueue.MsgQueue.PutMsg` | zephyr/kernel/msg_q.c:116-174 | equals Put, with its result |
| `MessageQueue.MsgQueue.GetMsg` | zephyr/kernel/msg_q.c:206-270 | equals Get, with its result |
| `MessageQueue.MsgQueue.PeekMsg` | zephyr/kernel/msg_q.c:284-305 | equals Peek |
| `MessageQueue.MsgQueue.WakeAll` | zephyr/kernel/msg_q.c:327-331 | the loop that wakes every waiter |
| `MessageQueue.MsgQueue.PurgeMsgs` | zephyr/kernel/msg_q.c:318-337 | equals Purge |
| `MailboxSpec.FindRx` | zephyr/kernel/mailbox.c:243-246 | the first receiver in queue order such that neither names somebody else |
| `MailboxSpec.FindTx` | zephyr/kernel/mailbox.c:411-414 | the first sender in queue order such that neither names somebody else |
| `MailboxTheorems.PutCounts` | zephyr/kernel/mailbox.c:223-306 | a send is counted once: waiting, matched or failed |
| `MailboxTheorems.GetCounts` | zephyr/kernel/mailbox.c:395-452 | so is a receive |
| `MailboxTheorems.PutQueues` | zephyr/kernel/mailbox.c:223-306 | after a send, of every waiting pair one names somebody else |
| `MailboxTheorems.GetQueues` | zephyr/kernel/mailbox.c:395-452 | the same after a receive |
| `MailboxTheorems.DisposeCounts` | zephyr/kernel/mailbox.c:164-207 | a disposal moves one message from open to finished |
| `MailboxTheorems.StepKeeps` | zephyr/kernel/mailbox.c:164-452 | every step keeps the invariant |
| `MailboxTheorems.RendezvousLaw` | zephyr/kernel/mailbox.c:223-306 | over every run, of a waiting sender and a waiting receiver one names somebody else |
| `MailboxTheorems.OnceLaw` | zephyr/kernel/mailbox.c:110-152 | every message is matched with at most one receive and every receive with at most one message; all others wait or have failed, once |
| `MailboxTheorems.DisposalLaw` | zephyr/kernel/mailbox.c:164-207 | a matched sender goes on exactly once, by the disposal of its message; until then the message is open |
| `MailboxTheorems.OnlyDisposalResumes` | zephyr/kernel/mailbox.c:164-207 | over every run that does not retrieve, discard or finish checking a matched message, its receiver has it and its sender has not gone on |
| `MailboxOutcomes.PutLaw` | zephyr/kernel/mailbox.c:223-306 | a send meets the first receiver where target and source, as given, are the other party or anybody; the size becomes the smaller one, infos are exchanged, both are named; with none it gives -ENOMSG or waits; a synchronous sender is held either way |
| `MailboxOutcomes.GetLaw` | zephyr/kernel/mailbox.c:395-452 | the same for a receive, which returns with the match |
| `MailboxOutcomes.DiscardLaw` | zephyr/kernel/mailbox.c:348-393 | a discarded message tells its sender that nothing was received; one kept for later stays open unless there is nothing to keep |
| `MailboxOutcomes.MatchLaw` | zephyr/kernel/mailbox.c:110-152 | over every run, every match joins a send and a receive that were made, and as given the target is anybody or that receiver and the source is anybody or that sender |
| `MailboxTheorems.RetrieveLaw` | zephyr/kernel/mailbox.c:348-362 | retrieving stores the agreed front of the sender's data and tells the sender how much |
| `MailboxTheorems.DisposeTwice` | zephyr/kernel/mailbox.c:169-172 | disposing of a message twice is disposing of it once |
| `Mailbox.SearchRx` | zephyr/kernel/mailbox.c:243-246 | the search through the receiving queue |
| `Mailbox.SearchTx` | zephyr/kernel/mailbox.c:411-414 | the search through the sending queue |
| `Mailbox.KMailbox.constructor` | zephyr/kernel/mailbox.c:89-96 | an empty mailbox |
| `Mailbox.KMailbox.MessagePut` | zephyr/kernel/mailbox.c:223-306 | equals Put, with its result |
| `Mailbox.KMailbox.MessageGet` | zephyr/kernel/mailbox.c:395-452 | equals Get, with its result |
| `Mailbox.KMailbox.Lookup` | zephyr/kernel/mailbox.c:169-181 | the message a receive holds |
| `Mailbox.KMailbox.MessageDispose` | zephyr/kernel/mailbox.c:164-207 | equals Dispose; does nothing the second time |
| `Mailbox.KMailbox.DataGet` | zephyr/kernel/mailbox.c:348-393 | equals Consume, with the bytes stored |
| `MemSlab.BlocksApart` | zephyr/kernel/mem_slab.c:39-44 | blocks are at multiples of block_size and do not overlap |
| `MemSlab.LinkedUnique` | zephyr/kernel/mem_slab.c:26-46 | memory determines the free list |
| `MemSlab.LinkedElsewhere` | zephyr/kernel/mem_slab.c:147-171 | a write outside the free blocks does not change the free list |
| `MemSlab.BuiltLinked` | zephyr/kernel/mem_slab.c:26-46 | the initialisation loop leaves a list of all blocks in memory |
| `MemSlab.BuiltExactly` | zephyr/kernel/mem_slab.c:26-46 | that list ends, and then holds distinct blocks, exactly when block_size > 0 or there is at most one block |
| `MemSlab.BuiltLoops` | zephyr/kernel/mem_slab.c:26-46 | with block_size 0 and two blocks the first block links to itself |
| `MemSlab.AllocTakes` | zephyr/kernel/mem_slab.c:103-120 | an allocation takes the first block of the list |
| `MemSlab.AllocWaits` | zephyr/kernel/mem_slab.c:121-138 | an allocation that finds none fails or waits and changes no block |
| `MemSlab.FreeReturns` | zephyr/kernel/mem_slab.c:164-166 | a freed block goes in front of the list |
| `MemSlab.FreeHandsOver` | zephyr/kernel/mem_slab.c:152-163 | or straight to the first waiter, leaving the list alone |
| `MemSlab.WriteKeeps` | zephyr/kernel/mem_slab.c:103-145 | whatever a holder writes into its block, the free list is untouched |
| `MemSlab.SlabLaw` | zephyr/kernel/mem_slab.c:26-171 | over every run: the list in memory ends; every block is on it once or held by exactly one call; length of free list + num_used == num_blocks; waiters imply an empty list |
| `MemSlab.AllocFresh` | zephyr/kernel/mem_slab.c:103-145 | a successful allocation gives a block nobody held; exactly when it fails or waits, and then nothing else changes |
| `MemSlab.FreeServes` | zephyr/kernel/mem_slab.c:152-163 | with a waiter, freeing gives the block to the first one |
| `MemSlab.ExpireLaw` | zephyr/kernel/mem_slab.c:129-136 | a timeout takes one waiter off the queue, the others wait on in order, and no block changes hands |
| `MemSlab.FreeThenAlloc` | zephyr/kernel/mem_slab.c:103-171 | freeing and allocating again gives the same block |
| `MemSlab.KSlab.Init` | zephyr/kernel/mem_slab.c:26-101 | refuses misaligned buffers and sizes, having set only shape and count; otherwise builds the free list |
| `MemSlab.KSlab.AllocBlock` | zephyr/kernel/mem_slab.c:103-145 | equals Alloc, with its result |
| `MemSlab.KSlab.FreeBlock` | zephyr/kernel/mem_slab.c:147-171 | equals Free |
| `DeviceHandles.RequiresLeads` | zephyr/scripts/gen_handles.py:255-275 | forwarding finds exactly the used nodes reachable by a path of unused non-root nodes |
| `DeviceHandles.ForwardLighter` | zephyr/scripts/gen_handles.py:272-275 | replacing a node by the nodes it depends on lowers the sum of 2^ordinal |
| `DeviceHandles.PoppedFinds` | zephyr/scripts/gen_handles.py:267-275 | what one turn of the loop does to what can still be found |
| `DeviceHandles.Compact` | zephyr/scripts/gen_handles.py:258-275 | the worklist loop terminates on every acyclic graph and yields exactly the required devices |
| `DeviceHandles.ParseHandles` | zephyr/scripts/gen_handles.py:239-253 | the loop over a first-pass array |
| `DeviceHandles.ParseRoundTrip` | zephyr/include/device.h:737-754 | it reads back both lists of dependencies of a first-pass array |
| `DeviceHandles.Emit` | zephyr/scripts/gen_handles.py:297-309 | the padding loop and its overflow assertion |
| `DeviceHandles.RequiredHandlesGet` | zephyr/include/device.h:475-492 | the counting loop stops at the first ENDS or SEP |
| `DeviceHandles.ReadBack` | zephyr/include/device.h:475-492 | reading an emitted array gives exactly the required handles; the reader stops inside the array exactly when there are extra handles or the array is longer than the required ones; the extra ones follow the separator |
| `DeviceHandles.HandlesOf` | zephyr/scripts/gen_handles.py:289-291 | the handles of a set of nodes, one each |
| `DeviceHandles.SecondPass` | zephyr/scripts/gen_handles.py:239-309 | from the graph to the reader, for every graph, used set and handles: the assertion fails iff more than three (two, with extra ones) more devices are required than there are direct dependencies; otherwise the reader finds the handles of exactly the required devices, and a terminator unless exactly three more are required and there are no extra ones |
| `DeviceHandles.NoTerminator` | zephyr/scripts/gen_handles.py:307-309 | a graph in which exactly four devices are required through one dependency, so that there is no terminator |

## Left out

- Multiprocessor paths, inter-processor interrupts, CPU masks, spin lock internals and the context switch itself: they rest on architecture code.
- The red-black tree ready queue (`zephyr/kernel/sched.c:965-1028`): its tree library is not part of this model.
- Meta-IRQ preemption, deadline scheduling and the hardware side of time slicing; a slice expiry is the step that requeues the current thread.
- Dummy threads, asynchronous pipe puts and the pool of asynchronous mailbox descriptors; an asynchronous mailbox message is one whose sender does not wait.
- Polling, tracing, logging, object permissions and system call marshalling.
- Semaphores, stacks, queues, condition variables, futexes and heaps: easier instances of the same waiting and hand-off patterns.
- `z_timeout_expires` and 32-bit tick arithmetic; time is unbounded here.
- Overflow of `size_t` sums in `pipe_xfer_prepare` and of `lock_count`.
- Mailbox memory-pool blocks and messages without a data pointer: a message has as many bytes as its descriptor says.
- Unpending a thread and making it ready are one step of the scheduler model; a caller that does something in between (as pipes and mailboxes do) is modelled in its own subsystem.
- Several mutexes held by one thread, and waiters whose priority changes while they wait.
- ELF reading and source output of `gen_handles.py`, and `device_from_handle`.
- SchedTheorems.CacheLaw: speaks about the states between locked regions; within a region the cache is recomputed last.
- TimeoutSpec.Exec: adding a timeout that is already pending, which the code asserts against, has no effect.
- TimeoutDeltas.TimeoutQueue.NextTimeout: the cap is INT_MAX; `CONFIG_SYSTEM_CLOCK_SLOPPY_IDLE`, which replaces it, is off.
- The flag word of a flusher: the queue thread sets and clears its RUNNING flag, and nobody reads it. That a sync object used for a flush shares its memory with one used for a cancel is not modelled.
- The class of the pipe has no timeout method: timeouts are steps of the state machine.
