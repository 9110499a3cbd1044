# FreeRTOS kernel and ADPCM codec of the Telink BLE SDK

Dafny models of the FreeRTOS V10.4.2 kernel in this SDK (`tasks.c`, `queue.c`, `timers.c`, `stream_buffer.c`,
`event_groups.c`, `list.c`) and of its voice codec (`adpcm.c`), with proofs of what they promise.

Most parts come in two files. A `...Model` file gives the state as a value, each kernel operation as a function on it, and
events and runs over those; the theorems are about all runs. The file beside it holds the code itself, a class with the
source's variables and loops, and each of its methods is proved to compute the function. So a change to the code that
matters breaks a method, and a change to both breaks a theorem.

| part | values, events and theorems | code |
|---|---|---|
| lists | `Lists` | `Lists` (linked nodes on the heap) |
| tick, delay, scheduler | `TaskModel`, `DelayedTasks`, `TaskPartition`, `DeferredTicks`, `TaskStates`, `Preemption`, `ReadyOrder` | `Scheduler` |
| timeouts | `Timeouts` | `Timeouts` |
| queues | `QueueModel`, `QueueOrder`, `QueueLockCount`, `QueueSets` | `Queues` |
| mutexes | `InheritanceModel`, `MutexSlip` | `Inheritance`, on the scheduler of `Scheduler` |
| stream and message buffers | `StreamInterleaving`, `StreamTransfers` | `StreamBuffers` |
| software timers | `TimerModel`, `TimerShares`, `TimerCourse`, `TimerDrift`, `TimerWork`, `TimerReset`, `TimerUndone` | `Timers` |
| event groups | `EventGroupModel`, `EventGroupLaws` | `EventGroups` |
| ADPCM | `AdpcmModel` | `Adpcm` |

`Rings` holds what queues and stream buffers share. `dafny verify dfyconfig.toml` checks everything.

Configuration: preemption and time slicing, generic task selection, mutexes, INCLUDE_vTaskSuspend, 32-bit ticks, seven
priorities, little-endian memory, as `FreeRTOSConfig.h` of the SDK sets them; tickless idle is a parameter. A critical
section, an interrupt and a section run with the scheduler suspended are each one atomic step. `configASSERT` is compiled
to nothing in this SDK, so what it asserts is either proved or a condition on the step that callers must meet.

What the code does that its comments do not say, each shown by a lemma:

- A zero wait at the last tick before the wrap would put a task on the list that is about to be swapped out, to sleep for two
  wraps (`DelayedTasks.ZeroWaitAtLastTick`). Callers of the kernel do not do this with a task's own delay.
- A timeout checked two wraps late may not be seen (`Timeouts.LostWrapExample`, exactly when: `Timeouts.VerdictIsExact`).
- A mutex given back without a yield can leave the giver running below a task that waits for another free mutex, which it can
  then take without inheriting (`MutexSlip.SlipHappens`, `InheritanceModel.SlipBreaksInheritance`).
- After the 128th post, or message taken, by interrupts while a queue is locked, unlocking wakes nobody
  (`QueueLockCount.PostCanBeLost`, `TakeCanBeLost`); the assertion against it is compiled to nothing.
- A reset, a stop or a new period does not hold if the timer is on no list when the daemon receives it, because its own
  restart is then queued behind: after the list switch (`TimerUndone.ResetIsLost`), but also, without a wrap or a preemption,
  when the callback of a late timer resets or stops its own timer (`TimerUndone.LateCallbackIsIgnored`). Received while the
  timer is on a list it holds (`TimerReset.SoleIffListed`, `ListedHolds`, `UnlistedDoesNotHold`, `StopHoldsIff`, `ResetHoldsIff`).
- The byte count of a stream buffer longer than 2^31 is wrong when it is nearly full and its head ahead of its tail (`StreamBuffers.CountsRightIff`).
- A lone empty message in a message buffer is reported to its sender as not written and stays invisible to the receiver
  (`StreamBuffers.MoreThanALength`).

## Model

| member | source | states |
|---|---|---|
| `Lists.List.constructor` | eagle_ble_sdk/3rd-party/freertos-V5/list.c:48-70 | A new list is a ring of the end marker alone, with the walk standing on it. |
| `Lists.List.InsertEnd` | eagle_ble_sdk/3rd-party/freertos-V5/list.c:85-112 | On the heap: the ring stays well formed and the new node lies just before the one the walk stands on. |
| `Lists.List.Insert` | eagle_ble_sdk/3rd-party/freertos-V5/list.c:115-180 | On the heap, for every value including the end marker's own: the search stops, the ring stays well formed and the node lies where `Inserted` puts its item. |
| `Lists.Remove` | eagle_ble_sdk/3rd-party/freertos-V5/list.c:183-209 | On the heap: the list is found through the item, the rest of the ring keeps its order, the walk steps back if it stood on the item, and the new length is returned. |
| `Lists.List.NextEntry` | eagle_ble_sdk/3rd-party/freertos-V5/include/list.h:279-290 | The walk moves on by one node, skips the end marker and delivers the owner it reaches. |
| `Lists.InsertKeepsSorted` | eagle_ble_sdk/3rd-party/freertos-V5/list.c:115-180 | A sorted list stays sorted and equal values keep their order of arrival: new after equals, everything else where it was. |
| `Lists.InsertEndIsVisitedLast` | eagle_ble_sdk/3rd-party/freertos-V5/list.c:85-112 | An item inserted at the end is delivered after every other item except the one the walk stands on. |
| `Lists.RemovePreservesVisitOrder` | eagle_ble_sdk/3rd-party/freertos-V5/list.c:183-209 | Removing any item, also the one the walk stands on, leaves the others in the order they would have been delivered. |
| `Lists.RoundVisitsEachOnce` | eagle_ble_sdk/3rd-party/freertos-V5/include/list.h:279-290 | n next-entry calls on an unchanged list of n items deliver each item exactly once. |
| `DelayedTasks.EveryDelayIsExact` | eagle_ble_sdk/3rd-party/freertos-V5/tasks.c:5263-5373 | From start-up, in every run: a task that blocks for w ticks (not indefinitely) is on the delayed lists exactly while true time is below its start plus w and ready from then on, unless a step about that task comes first; any number of wraps, suspensions, stale unblock times and priority changes in between. |
| `DelayedTasks.ExactDelay` | eagle_ble_sdk/3rd-party/freertos-V5/tasks.c:5263-5373 | The same from any state that satisfies the invariant. |
| `DelayedTasks.TickIsExact` | eagle_ble_sdk/3rd-party/freertos-V5/tasks.c:2725-2895 | One tick, across the wrap: true time grows by one, sleepers whose time lies beyond it still sleep, all others have become ready. |
| `DelayedTasks.CatchUpIsExact` | eagle_ble_sdk/3rd-party/freertos-V5/tasks.c:2264-2297 | The same for n ticks delivered in a row by the catch-up loop. |
| `DelayedTasks.StepKeepsInv` | eagle_ble_sdk/3rd-party/freertos-V5/tasks.c:199-211 | Every operation keeps: no wake time before the tick count on the current list, only earlier ones on the overflow list, both sorted, and the cached unblock time a lower bound of the head. |
| `DelayedTasks.StepOnTime` | eagle_ble_sdk/3rd-party/freertos-V5/tasks.c:2725-2895 | No operation that is not about a task wakes it early or late. |
| `DelayedTasks.SwapFindsNobody` | eagle_ble_sdk/3rd-party/freertos-V5/tasks.c:199-206 | The assertion in the list switch: the list swapped out is empty. |
| `DelayedTasks.AdvanceKeepsAlarms` | eagle_ble_sdk/3rd-party/freertos-V5/tasks.c:199-211 | Moving the clock, the list switch included, changes nobody's true wake time. |
| `DelayedTasks.SetAlarmIsExact` | eagle_ble_sdk/3rd-party/freertos-V5/tasks.c:5301-5335 | The wrapped wake time and the choice of list stand for exactly now + wait. |
| `DelayedTasks.SetAlarmKeepsInv` | eagle_ble_sdk/3rd-party/freertos-V5/tasks.c:5301-5335 | Blocking keeps the lists' invariant if and only if the wait is not zero at the last tick before the wrap. |
| `DelayedTasks.ZeroWaitAtLastTick` | eagle_ble_sdk/3rd-party/freertos-V5/tasks.c:5301-5335 | The failing case: such a task lands on the list about to be swapped out and sleeps for two wraps. |
| `DelayedTasks.SwitchAskedFor` | eagle_ble_sdk/3rd-party/freertos-V5/tasks.c:2758-2838 | The unblocking loop asks for a switch if and only if some task that is due is at least as urgent as the running one. |
| `DelayedTasks.SwitchRecorded` | eagle_ble_sdk/3rd-party/freertos-V5/tasks.c:2232-2262 | So does draining the pending ready list, for the tasks it moves. |
| `TaskPartition.RunKeepsPartition` | eagle_ble_sdk/3rd-party/freertos-V5/tasks.c:219-223 | In every reachable state each task's state item is on exactly one list, ready lists are indexed by priority and bounded by the recorded top, tasks on event lists are blocked, and nothing is left pending while the scheduler runs. |
| `TaskPartition.StepKeepsPartition` | eagle_ble_sdk/3rd-party/freertos-V5/tasks.c:1154-1245 | Every operation, deletion, suspension and priority changes included, keeps that. |
| `TaskPartition.ExactlyOneList` | eagle_ble_sdk/3rd-party/freertos-V5/tasks.c:219-223 | A task exists if and only if its item is on a list, and then it is on one list once. |
| `TaskPartition.LengthsSumToTasks` | eagle_ble_sdk/3rd-party/freertos-V5/tasks.c:1068-1130 | The lengths of all state lists add up to the number of tasks. |
| `TaskPartition.SwitchPicksTop` | eagle_ble_sdk/3rd-party/freertos-V5/tasks.c:134-149 | While any task is ready the search finds a list, and the task picked is ready and at least as urgent as every ready task. |
| `TaskPartition.SwitchTakesTurns` | eagle_ble_sdk/3rd-party/freertos-V5/tasks.c:145-149 | Tasks of the top priority are picked in turn. |
| `TaskPartition.InitialPartition` | eagle_ble_sdk/3rd-party/freertos-V5/tasks.c:3648-3677 | Start-up satisfies the invariant. |
| `TaskStates.StepRefines` | eagle_ble_sdk/3rd-party/freertos-V5/tasks.c:1154-3278 | Each of the seventeen operations does to each task exactly what an account without lists says: its place (ready, asleep until a true time, parked, ended), whether it waits on an event or is pending, its priority. |
| `TaskStates.RunRefines` | eagle_ble_sdk/3rd-party/freertos-V5/tasks.c:1154-3278 | Over every run a task goes from state to state as that account says. |
| `TaskStates.StepScene` | eagle_ble_sdk/3rd-party/freertos-V5/tasks.c:2126-2318 | Only ticks and the resume of the scheduler move time, suspension and pended ticks, and only a context switch changes the running task. |
| `TaskStates.StepTasks` | eagle_ble_sdk/3rd-party/freertos-V5/tasks.c:1154-1245 | Which tasks there are after each operation, and their priorities. |
| `TaskStates.OnePlace` | eagle_ble_sdk/3rd-party/freertos-V5/tasks.c:219-223 | A task has one place: no two wake times, nor a wake time and another list. |
| `TaskStates.WokenIsReady` | eagle_ble_sdk/3rd-party/freertos-V5/tasks.c:3165-3230 | No wake is lost: over every run, after a wake, notification, resume or creation, from a task or an interrupt and in any nesting of suspensions, the task is ready whenever the scheduler is not suspended, until another step is about it. |
| `TaskStates.ParkedStaysParked` | eagle_ble_sdk/3rd-party/freertos-V5/tasks.c:5263-5300 | Over every run a task that blocked without limit, or was suspended, is neither ready nor on a delayed list, however many ticks pass, until a step is about it. |
| `Preemption.TickAsksIff` | eagle_ble_sdk/3rd-party/freertos-V5/tasks.c:2725-2895 | A tick asks for a switch if and only if one was pending, or it wakes a task at least as urgent as the running one, or several tasks of the running one's priority are ready after it. |
| `Preemption.TickAsksForTurns` | eagle_ble_sdk/3rd-party/freertos-V5/tasks.c:2823-2862 | With the running task ready: the last part is that another task of its priority is. |
| `Preemption.ResumeAsksIff` | eagle_ble_sdk/3rd-party/freertos-V5/tasks.c:2232-2297 | Resuming the scheduler records a switch if and only if one was pending, or a task made ready meanwhile is at least as urgent as the running one, or one of the ticks held back asks for it. |
| `Preemption.StepRecords` | eagle_ble_sdk/3rd-party/freertos-V5/tasks.c:3165-3278 | Exactly when each operation sets the yield flag; only a switch carried out clears it. |
| `Preemption.StepRunsTop` | eagle_ble_sdk/3rd-party/freertos-V5/tasks.c:1592-1596 | No operation leaves a ready task more urgent than the running one without a switch being pending or asked for. |
| `Preemption.RunningIsTop` | eagle_ble_sdk/3rd-party/freertos-V5/tasks.c:1592-1596 | Over every run, from a context switch until an operation asks for the next: unless one is pending, the running task is at least as urgent as every ready task. |
| `ReadyOrder.JoinsBehind` | eagle_ble_sdk/3rd-party/freertos-V5/tasks.c:219-223 | A task made ready is picked after every task of its priority but the one whose turn it is. |
| `ReadyOrder.LeavesTurns` | eagle_ble_sdk/3rd-party/freertos-V5/tasks.c:1706-1775 | A ready task that leaves takes nobody's turn. |
| `ReadyOrder.PendingInOrder` | eagle_ble_sdk/3rd-party/freertos-V5/tasks.c:2232-2262 | Tasks made ready when the scheduler resumes take their turns in the order in which they were woken. |
| `ReadyOrder.DueInOrder` | eagle_ble_sdk/3rd-party/freertos-V5/tasks.c:2758-2838 | Tasks that one tick wakes take theirs in the order of their wake times. |
| `DeferredTicks.RunHearsEveryTick` | eagle_ble_sdk/3rd-party/freertos-V5/tasks.c:2881-2883 | Over every run, tick count plus pended ticks has grown by exactly the number of tick interrupts. |
| `DeferredTicks.StepHears` | eagle_ble_sdk/3rd-party/freertos-V5/tasks.c:2126-2143 | A tick interrupt adds one to that sum in any nesting of suspensions; no other operation changes it. |
| `DeferredTicks.TickCountIsTime` | eagle_ble_sdk/3rd-party/freertos-V5/tasks.c:2210-2318 | Whenever the scheduler is not suspended the tick count alone is the number of ticks, and no task is pending. |
| `DeferredTicks.DeferredTicksAreDirectTicks` | eagle_ble_sdk/3rd-party/freertos-V5/tasks.c:2210-2318 | However suspensions and ticks nest, once the scheduler runs again the whole state is that of the same ticks delivered unsuspended; only the recorded switch request may differ. |
| `Scheduler.Kernel.IncrementTick` | eagle_ble_sdk/3rd-party/freertos-V5/tasks.c:2725-2895 | The tick with its unblocking loop computes one tick of the model and its switch request, or pends it. |
| `Scheduler.Kernel.UnblockDueTasks` | eagle_ble_sdk/3rd-party/freertos-V5/tasks.c:2758-2838 | The loop terminates and wakes what the model wakes. |
| `Scheduler.Kernel.SwitchDelayedLists` | eagle_ble_sdk/3rd-party/freertos-V5/tasks.c:199-211 | The switch swaps the lists, counts the overflow and recomputes the unblock time. |
| `Scheduler.Kernel.ResetNextTaskUnblockTime` | eagle_ble_sdk/3rd-party/freertos-V5/tasks.c:3988-4006 | The cached time becomes the head's, or the maximum when the list is empty. |
| `Scheduler.Kernel.ResumeAll` | eagle_ble_sdk/3rd-party/freertos-V5/tasks.c:2210-2318 | Draining, recomputing and catching up compute the model's resume, and the result says whether a switch was requested. |
| `Scheduler.Kernel.SuspendAll` | eagle_ble_sdk/3rd-party/freertos-V5/tasks.c:2126-2143 | Suspensions are counted. |
| `Scheduler.Kernel.SelectHighestPriorityTask` | eagle_ble_sdk/3rd-party/freertos-V5/tasks.c:134-149 | The search loop terminates at the first non-empty list from the recorded top downwards and takes the next task of it. |
| `Scheduler.Kernel.SwitchContext` | eagle_ble_sdk/3rd-party/freertos-V5/tasks.c:3010-3075 | No switch while the scheduler is suspended, only a record of the request. |
| `Scheduler.Kernel.AddCurrentTaskToDelayedList` | eagle_ble_sdk/3rd-party/freertos-V5/tasks.c:5263-5373 | Blocking in 32-bit arithmetic computes the model's block. |
| `Scheduler.Kernel.PlaceOnEventList` | eagle_ble_sdk/3rd-party/freertos-V5/tasks.c:3086-3101 | The running task goes on the event list at the place its item value gives it, that is by priority, and blocks. |
| `Scheduler.Kernel.PlaceOnUnorderedEventList` | eagle_ble_sdk/3rd-party/freertos-V5/tasks.c:3104-3127 | The same at the end of the list, with the caller's value marked as in use. |
| `Scheduler.Kernel.PlaceOnEventListRestricted` | eagle_ble_sdk/3rd-party/freertos-V5/tasks.c:3132-3160 | How the timer daemon blocks: for a given time, or without limit. |
| `Scheduler.Kernel.RemoveFromEventList` | eagle_ble_sdk/3rd-party/freertos-V5/tasks.c:3165-3230 | A wake from an event list makes the task ready, or pends it while the scheduler is suspended. |
| `Scheduler.Kernel.RemoveFromUnorderedEventList` | eagle_ble_sdk/3rd-party/freertos-V5/tasks.c:3233-3278 | The same for event groups, always with the scheduler suspended. |
| `Scheduler.Kernel.Suspend` | eagle_ble_sdk/3rd-party/freertos-V5/tasks.c:1706-1775 | A task is taken off its lists and suspended, and the unblock time recomputed; the running task then yields. |
| `Scheduler.Kernel.Resume` | eagle_ble_sdk/3rd-party/freertos-V5/tasks.c:1858-1905 | Only a task that is suspended and not waiting or pending is made ready; the result says whether that yields. |
| `Scheduler.Kernel.ResumeFromISR` | eagle_ble_sdk/3rd-party/freertos-V5/tasks.c:1912-1980 | The same from an interrupt: made ready, or pended while the scheduler is suspended, and whether a yield is required. |
| `Scheduler.Kernel.NotifyWaiting` | eagle_ble_sdk/3rd-party/freertos-V5/tasks.c:4913-4950 | A task waiting for a notification is made ready, even with the scheduler suspended; whether that yields. |
| `Scheduler.Kernel.NotifyWaitingFromISR` | eagle_ble_sdk/3rd-party/freertos-V5/tasks.c:5055-5090 | The same from an interrupt, pended while the scheduler is suspended. |
| `Scheduler.Kernel.AbortBlocked` | eagle_ble_sdk/3rd-party/freertos-V5/tasks.c:2655-2700 | A blocked task is taken off its state list and its event list and made ready; the result is its aborted flag. |
| `Scheduler.Kernel.PriorityInherit` | eagle_ble_sdk/3rd-party/freertos-V5/tasks.c:4056-4141 | A holder less urgent than the running task gets its priority, its event item the matching value unless in use, and moves between ready lists if ready; the result also counts an earlier inheritance. |
| `Scheduler.Kernel.PriorityDisinherit` | eagle_ble_sdk/3rd-party/freertos-V5/tasks.c:4146-4219 | One mutex fewer is held; with the last one, a task that had inherited gets its base priority back, on the ready lists too. |
| `Scheduler.Kernel.PriorityDisinheritAfterTimeout` | eagle_ble_sdk/3rd-party/freertos-V5/tasks.c:4226-4325 | A holder of one mutex goes to the greater of its base and the given priority, on the ready lists too. |
| `Timeouts.VerdictIsExact` | eagle_ble_sdk/3rd-party/freertos-V5/tasks.c:3302-3364 | On a finite wait the verdict is "deadline reached" exactly, if and only if no wrap was lost: two or more overflows, tick count before the entry, wrapped elapsed time below the wait. |
| `Timeouts.LostWrapExample` | eagle_ble_sdk/3rd-party/freertos-V5/tasks.c:3302-3364 | The input on which the verdict fails: checked nearly two wraps late, a finite wait has still not expired. |
| `Timeouts.NeverEarly` | eagle_ble_sdk/3rd-party/freertos-V5/tasks.c:3302-3364 | A timeout is never reported before its deadline, however often the count wrapped. |
| `Timeouts.RetryKeepsDeadline` | eagle_ble_sdk/3rd-party/freertos-V5/tasks.c:3341-3347 | A retry keeps the true deadline if and only if no wrap was lost, and never makes it earlier. |
| `Timeouts.TimeOut.CheckForTimeOut` | eagle_ble_sdk/3rd-party/freertos-V5/tasks.c:3302-3364 | The code computes that verdict, the time left and the new entry time; an aborted delay counts as a timeout and leaves the wait as it is. |
| `Timeouts.Receive` | eagle_ble_sdk/3rd-party/freertos-V5/queue.c:1340-1454 | Over any number of retries: data is taken at the first turn that sees any; unless its delay was aborted, the report of an empty queue comes at or after the original deadline, also from the critical section, never on an indefinite wait; with at most one overflow between checks, at the first check from the deadline on that finds the queue empty; after an aborted delay, at once if it is. |
| `QueueModel.NoLostWakeUp` | eagle_ble_sdk/3rd-party/freertos-V5/queue.c:2227-2344 | Over every interleaving of tasks, interrupts, lock, unlock and timeout: while a task waits to receive there are no more messages than tasks woken for them and not yet run, or still to be woken on unlocking; symmetrically for senders and free slots. |
| `QueueModel.WaitsOnlyWhenItMust` | eagle_ble_sdk/3rd-party/freertos-V5/queue.c:1340-1454 | Once woken tasks have run and the queue is unlocked, receivers wait only on an empty queue, senders only on a full one. |
| `QueueModel.StepKeepsInv` | eagle_ble_sdk/3rd-party/freertos-V5/queue.c:768-977 | Each critical section, interrupt and timeout keeps the invariant behind it. |
| `QueueModel.PostHonouredIffCountFits` | eagle_ble_sdk/3rd-party/freertos-V5/queue.c:1122-1131 | A post while the queue is locked and a receiver waits is honoured on unlocking if and only if the 8-bit lock count has not reached its maximum. |
| `QueueModel.TakeHonouredIffCountFits` | eagle_ble_sdk/3rd-party/freertos-V5/queue.c:1895-1908 | Likewise for a message taken while a sender waits. |
| `QueueLockCount.PostCanBeLost` | eagle_ble_sdk/3rd-party/freertos-V5/queue.c:1122-1131 | From creation, on any queue of 128 places or more, a run reaches that maximum; one more post and the unlocking leave a task waiting on a queue that is not empty, nobody woken. |
| `QueueLockCount.TakeCanBeLost` | eagle_ble_sdk/3rd-party/freertos-V5/queue.c:1895-1908 | Likewise a task is left waiting to send to a queue with free places. |
| `QueueModel.RunIsFifo` | eagle_ble_sdk/3rd-party/freertos-V5/queue.c:2150-2163 | In every run that posts at the back, messages are taken in the order posted, none lost or repeated. |
| `QueueModel.FrontIsTakenNext` | eagle_ble_sdk/3rd-party/freertos-V5/queue.c:2150-2203 | A message posted at the front is the next one taken, the others staying as they were. |
| `QueueModel.OverwriteReplaces` | eagle_ble_sdk/3rd-party/freertos-V5/queue.c:2176-2203 | On a queue of one place an overwrite leaves that message alone, full or not. |
| `QueueModel.RefusedIffFull` | eagle_ble_sdk/3rd-party/freertos-V5/queue.c:788-900 | A post at either end is refused if and only if the queue is full, and then changes nothing. |
| `QueueModel.LockLosesNoCount` | eagle_ble_sdk/3rd-party/freertos-V5/queue.c:249-261 | Locking, locked before or not, loses no count. |
| `QueueOrder.WokenGoFirst` | eagle_ble_sdk/3rd-party/freertos-V5/queue.c:860-900 | Over every run in which each task that blocks goes behind all waiters at least as urgent: each task that a post, peek, take or unlock wakes is more urgent than every task left waiting, or as urgent and blocked earlier; as many are woken as messages or slots are announced, if they are there. |
| `QueueOrder.InsertGoesBehind` | eagle_ble_sdk/3rd-party/freertos-V5/tasks.c:3086-3101 | Inserting by item value puts a task exactly there. |
| `QueueOrder.TimesOutTakesOne` | eagle_ble_sdk/3rd-party/freertos-V5/tasks.c:2797-2808 | A timeout takes its task off the event lists and nobody else. |
| `Queues.QueueControl.constructor` | eagle_ble_sdk/3rd-party/freertos-V5/queue.c:264-278 | A new queue is empty and unlocked. |
| `Queues.QueueControl.CopyDataToQueue` | eagle_ble_sdk/3rd-party/freertos-V5/queue.c:2123-2203 | In the circular store: back appends, front prepends, overwrite on a queue of one replaces. |
| `Queues.QueueControl.CopyDataFromQueue` | eagle_ble_sdk/3rd-party/freertos-V5/queue.c:2206-2224 | The read position moves on by one and the oldest message is read. |
| `Queues.QueueControl.TrySend` | eagle_ble_sdk/3rd-party/freertos-V5/queue.c:788-900 | The critical section stores the message if accepted, wakes one receiver and yields if that one is more urgent. |
| `Queues.QueueControl.TrySendFromISR` | eagle_ble_sdk/3rd-party/freertos-V5/queue.c:1028-1131 | The same from an interrupt, counting instead of waking while the queue is locked; the result says whether a more urgent task was woken. |
| `Queues.QueueControl.TryReceive` | eagle_ble_sdk/3rd-party/freertos-V5/queue.c:1340-1378 | The oldest message is taken and one sender woken, with a yield if that one is more urgent. |
| `Queues.QueueControl.TryReceiveFromISR` | eagle_ble_sdk/3rd-party/freertos-V5/queue.c:1860-1917 | The same from an interrupt, counting while locked, and whether a more urgent task was woken. |
| `Queues.QueueControl.TryPeek` | eagle_ble_sdk/3rd-party/freertos-V5/queue.c:1703-1745 | The oldest message is read, the contents stay, and another receiver is woken, with a yield if that one is more urgent. |
| `Queues.QueueControl.LockQueue` | eagle_ble_sdk/3rd-party/freertos-V5/queue.c:249-261 | Counts start from zero unless already running. |
| `Queues.QueueControl.UnlockTxHalf` | eagle_ble_sdk/3rd-party/freertos-V5/queue.c:2235-2313 | The loop wakes one receiver for each message posted while locked, or all of them, and records a missed yield if one of those is more urgent. |
| `Queues.QueueControl.UnlockRxHalf` | eagle_ble_sdk/3rd-party/freertos-V5/queue.c:2316-2343 | The same for senders and messages taken. |
| `Queues.UrgentAmongFirstMeans` | eagle_ble_sdk/3rd-party/freertos-V5/queue.c:2256-2313 | A missed yield is recorded if and only if one of the tasks woken is more urgent than the running one. |
| `Queues.YieldsForWhomItWakes` | eagle_ble_sdk/3rd-party/freertos-V5/queue.c:860-892 | The yields and missed yields are for a task that the wake has taken off the event list. |
| `QueueSets.HandlesMatchMessages` | eagle_ble_sdk/3rd-party/freertos-V5/queue.c:801-835 | Over every run, for each member of a set: handles in the set, selections outstanding and posts not yet announced add up to its messages. |
| `QueueSets.PostFindsRoom` | eagle_ble_sdk/3rd-party/freertos-V5/queue.c:2966-2970 | A set as long as its members together always has room for the handle of a post, the assertion in the notification. |
| `QueueSets.NotifyManyConserves` | eagle_ble_sdk/3rd-party/freertos-V5/queue.c:2235-2310 | Unlocking a member announces each post once and drops none. |
| `QueueSets.StepConserves` | eagle_ble_sdk/3rd-party/freertos-V5/queue.c:2862-2925 | Posting, locking, selecting, receiving, joining and leaving keep that balance. |
| `QueueSets.SelectsInOrder` | eagle_ble_sdk/3rd-party/freertos-V5/queue.c:2933-2945 | Over every run members are selected in the order in which their messages were announced, once for each. |
| `QueueSets.MembershipIff` | eagle_ble_sdk/3rd-party/freertos-V5/queue.c:2862-2927 | A queue joins a set if and only if it is in none and empty, and leaves it if and only if it is empty. |
| `InheritanceModel.HolderCoversWaiters` | eagle_ble_sdk/3rd-party/freertos-V5/tasks.c:4056-4325 | Over every run in which no give slips: a mutex holder is never less urgent than a waiter, and its priority is the maximum of its base and its waiters' once timed-out waiters have undone theirs. |
| `InheritanceModel.StepKeepsInv` | eagle_ble_sdk/3rd-party/freertos-V5/queue.c:1486-1673 | Each take, block, give, timeout, undo and switch keeps the invariant, including while a mutex is free and tasks still wait for it. |
| `InheritanceModel.GiveKeepsUnlessItSlips` | eagle_ble_sdk/3rd-party/freertos-V5/queue.c:788-900 | A give keeps the invariant if and only if it does not slip: the giver loses an inherited priority, the task it wakes is no more urgent, so no yield follows, and a more urgent task waits for another free mutex. |
| `InheritanceModel.SlipBreaksInheritance` | eagle_ble_sdk/3rd-party/freertos-V5/queue.c:860-892 | After any give that slips the giver can take such a mutex and hold it below a waiter's priority. |
| `MutexSlip.SlipHappens` | eagle_ble_sdk/3rd-party/freertos-V5/queue.c:860-892 | A run of 22 steps from tasks at rest, in which no give has slipped so far, ends in a give that slips. |
| `InheritanceModel.OneMutexNeverSlips` | eagle_ble_sdk/3rd-party/freertos-V5/tasks.c:4146-4219 | With a single mutex no give slips. |
| `InheritanceModel.TakeKeeps` | eagle_ble_sdk/3rd-party/freertos-V5/queue.c:1500-1525 | Whoever takes a free mutex is at least as urgent as those still waiting for it. |
| `InheritanceModel.BlockKeeps` | eagle_ble_sdk/3rd-party/freertos-V5/queue.c:1586-1625 | Blocking on a held mutex raises the holder just enough and remembers that it did. |
| `InheritanceModel.GiveUpKeeps` | eagle_ble_sdk/3rd-party/freertos-V5/queue.c:1640-1668 | Undoing an inheritance after a timeout leaves the holder at the maximum of base and waiters. |
| `InheritanceModel.GiveAsksIff` | eagle_ble_sdk/3rd-party/freertos-V5/queue.c:860-905 | A give asks for a switch if and only if the task it wakes is more urgent than the giver now is, or, waking nobody, the giver lost priority. |
| `InheritanceModel.WakeAsksIff` | eagle_ble_sdk/3rd-party/freertos-V5/tasks.c:2823-2825 | A task timed out or made ready otherwise asks for one if and only if it is more urgent than the running task, or, by a tick or a resume, as urgent. |
| `Inheritance.ChangeIsSetPrio` | eagle_ble_sdk/3rd-party/freertos-V5/tasks.c:4085-4110 | Moving a task between ready lists changes its priority and nobody's readiness, which is how the model sees it. |
| `Inheritance.MutexKernel.TryTake` | eagle_ble_sdk/3rd-party/freertos-V5/queue.c:1488-1547 | The critical section of a take, with the count of mutexes held. |
| `Inheritance.MutexKernel.InheritAndBlock` | eagle_ble_sdk/3rd-party/freertos-V5/queue.c:1583-1625 | On the scheduler's own lists: the holder inherits, and the caller goes on the mutex's event list at its priority and leaves the ready lists. |
| `Inheritance.MutexKernel.UndoInheritance` | eagle_ble_sdk/3rd-party/freertos-V5/queue.c:1634-1668 | The timed-out path, on the same lists. |
| `Inheritance.MutexKernel.GiveMutex` | eagle_ble_sdk/3rd-party/freertos-V5/queue.c:788-905 | The give, on the same lists, with its choice of when to yield. |
| `StreamInterleaving.NothingLostOrReordered` | eagle_ble_sdk/3rd-party/freertos-V5/stream_buffer.c:1123-1248 | One writer and one reader interleaved at every index read, byte copy and index publish: bytes published are bytes received followed by the bytes in the ring, and stale counts are safe lower bounds. |
| `StreamInterleaving.NeverOverwrites` | eagle_ble_sdk/3rd-party/freertos-V5/stream_buffer.c:1123-1169 | The writer never writes the slot of an unread byte, nor one slot twice. |
| `StreamInterleaving.StepKeepsInv` | eagle_ble_sdk/3rd-party/freertos-V5/stream_buffer.c:1172-1227 | Each such step keeps that. |
| `StreamTransfers.SendsWhatFitted` | eagle_ble_sdk/3rd-party/freertos-V5/stream_buffer.c:1123-1169 | Over every interleaving a send publishes the front of its bytes, as many as there was space for when it looked. |
| `StreamTransfers.ReceivesWhatWasThere` | eagle_ble_sdk/3rd-party/freertos-V5/stream_buffer.c:1172-1227 | A receive takes the oldest bytes, as many as were there when it looked and it has room for. |
| `StreamBuffers.CountsAreDistances` | eagle_ble_sdk/3rd-party/freertos-V5/stream_buffer.c:475-497 | Up to 2^31 both counts are distances round the ring and add up to length - 1. |
| `StreamBuffers.CountsRightIff` | eagle_ble_sdk/3rd-party/freertos-V5/stream_buffer.c:1230-1248 | The 32-bit count is the distance from tail to head for every fill of a buffer if and only if its length is at most 2^31. |
| `StreamBuffers.StreamBuffer.constructor` | eagle_ble_sdk/3rd-party/freertos-V5/stream_buffer.c:240-300 | One byte more than asked for is allocated, so that all of it can be used. |
| `StreamBuffers.StreamBuffer.WriteBytes` | eagle_ble_sdk/3rd-party/freertos-V5/stream_buffer.c:1123-1169 | The two-piece copy appends the bytes, across the wrap. |
| `StreamBuffers.StreamBuffer.ReadBytes` | eagle_ble_sdk/3rd-party/freertos-V5/stream_buffer.c:1172-1227 | The two-piece copy takes the oldest bytes. |
| `StreamBuffers.StreamBuffer.Send` | eagle_ble_sdk/3rd-party/freertos-V5/stream_buffer.c:511-638 | A message buffer gets one whole record or nothing; a stream buffer as many bytes as fit; the result counts them. |
| `StreamBuffers.StreamBuffer.Receive` | eagle_ble_sdk/3rd-party/freertos-V5/stream_buffer.c:744-845 | The oldest message is returned and exactly its record removed, or nothing changes when the caller's buffer is too small. |
| `StreamBuffers.StreamBuffer.NextMessageLength` | eagle_ble_sdk/3rd-party/freertos-V5/stream_buffer.c:848-890 | The length the next receive will return, with the buffer unchanged. |
| `StreamBuffers.StreamBuffer.WriteMessage` | eagle_ble_sdk/3rd-party/freertos-V5/stream_buffer.c:692-741 | Length and payload are written together or not at all. |
| `StreamBuffers.StreamBuffer.ReadMessage` | eagle_ble_sdk/3rd-party/freertos-V5/stream_buffer.c:950-999 | Length read, payload read or the tail put back. |
| `StreamBuffers.FirstRecord` | eagle_ble_sdk/3rd-party/freertos-V5/stream_buffer.c:950-999 | The first record can be read off the bytes of any sequence of messages. |
| `StreamBuffers.LengthRoundTrip` | eagle_ble_sdk/3rd-party/freertos-V5/stream_buffer.c:718-722 | The four length bytes give back the length. |
| `StreamBuffers.MoreThanALength` | eagle_ble_sdk/3rd-party/freertos-V5/stream_buffer.c:816-822 | The receiver's test finds every message except a lone empty one. |
| `TimerModel.PlacementIsExact` | eagle_ble_sdk/3rd-party/freertos-V5/timers.c:699-740 | For every command less than one wrap old: processed at once if and only if its expiry has come, else put where the place stands for exactly that expiry. |
| `TimerModel.VerdictIsExact` | eagle_ble_sdk/3rd-party/freertos-V5/timers.c:708-735 | The wrapped comparisons decide true order and epoch. |
| `TimerModel.SwitchHeadDecreases` | eagle_ble_sdk/3rd-party/freertos-V5/timers.c:901-943 | The list switch terminates: the timers' distance to the end of the epoch shrinks with every pass. |
| `TimerDrift.CommandRules` | eagle_ble_sdk/3rd-party/freertos-V5/timers.c:788-862 | Over every run: once a Start less than one wrap old or a new period has been served for a timer, one-shot or auto-reload, its place stands for exactly command time + period, then two periods and so on, one call at or after each expiry, until the next command for it is served; a one-shot timer is called once and is then nowhere. |
| `TimerDrift.SoleCommandRules` | eagle_ble_sdk/3rd-party/freertos-V5/timers.c:788-862 | If that was the only command queued for the timer and it is then left alone, it keeps that course through its own restarts too, in one place. |
| `TimerDrift.StopRules` | eagle_ble_sdk/3rd-party/freertos-V5/timers.c:838-842 | After a stop is served the timer is on no list and not called until the next command for it is served, which may be its own restart. |
| `TimerDrift.ListsKeepTheirEpoch` | eagle_ble_sdk/3rd-party/freertos-V5/timers.c:699-740 | Over every run from empty lists: each timer on a list keeps the course that the last command served told it, and its next expiry lies in the epoch of the list it is on. |
| `TimerDrift.NoDrift` | eagle_ble_sdk/3rd-party/freertos-V5/timers.c:508-548 | A timer started at s with period p and then left alone: call number i comes at or after s + (i+1)p and the next is always set for exactly s + (n+1)p after n calls, through all three reload paths and any lateness below one wrap, in one place; one-shot, it is called once. |
| `TimerDrift.CaughtUp` | eagle_ble_sdk/3rd-party/freertos-V5/timers.c:587-646 | Over every such run, whenever the daemon would block after n calls: s + np <= now < s + (n+1)p; a one-shot timer has been called if and only if s + p <= now. |
| `TimerDrift.CommandCaughtUp` | eagle_ble_sdk/3rd-party/freertos-V5/timers.c:587-646 | The same after any command served, until the next one for the timer. |
| `TimerWork.ReachesIdle` | eagle_ble_sdk/3rd-party/freertos-V5/timers.c:541-575 | From every sound state the daemon's own turns, the clock standing still, bring it to rest. |
| `TimerWork.DueCallsAreMade` | eagle_ble_sdk/3rd-party/freertos-V5/timers.c:541-575 | By then a timer on its course has been called for every expiry that lies behind. |
| `TimerWork.ServingWorks` | eagle_ble_sdk/3rd-party/freertos-V5/timers.c:743-890 | Every command served leaves strictly less to do, so the receive loop ends although serving posts commands. |
| `TimerReset.SoleIffListed` | eagle_ble_sdk/3rd-party/freertos-V5/timers.c:783-787 | The guard: a command about to be served for a timer on its course, apart from whose own restart it is the only one, is alone in the queue if and only if the timer is on a list, or is a one-shot timer already called. |
| `TimerReset.ListedHolds` | eagle_ble_sdk/3rd-party/freertos-V5/timers.c:783-862 | A reset, stop or new period received while the timer is on a list holds, over every run in which the timer is then left alone. |
| `TimerReset.UnlistedDoesNotHold` | eagle_ble_sdk/3rd-party/freertos-V5/timers.c:521-525 | Received while the timer waits as its own restart, it does not: over every run in which that restart is served next, before the expiry asked for, the timer is back on its old course, with its new period if it got one. |
| `TimerReset.StopHoldsIff` | eagle_ble_sdk/3rd-party/freertos-V5/timers.c:838-842 | Once a stopped auto-reload timer has no command queued any more, it is on no list if and only if it was on one when the stop was received. |
| `TimerReset.ResetHoldsIff` | eagle_ble_sdk/3rd-party/freertos-V5/timers.c:783-835 | Once the commands queued for a timer that was reset are served, the clock standing still, its place counts from the reset if and only if it was on a list when the reset was received, or the reset has more expiries behind it than the restart, or both come to the same time; restarts due or not. |
| `TimerReset.StartsSettle` | eagle_ble_sdk/3rd-party/freertos-V5/timers.c:802-835 | Of any number of starts queued for a timer the one with the most expiries behind prevails, the last among equals: the timer ends up listed for its next expiry. |
| `TimerReset.ServedExactly` | eagle_ble_sdk/3rd-party/freertos-V5/timers.c:769-862 | One command served, whatever the lists and the clock: the exact place, calls and queued restart it leaves its timer. |
| `TimerUndone.ResetIsLost` | eagle_ble_sdk/3rd-party/freertos-V5/timers.c:893-943 | A run in which every command is served in time and yet a reset does not hold: the list switch has queued the timer's own restart behind it. |
| `TimerUndone.LateCallbackIsIgnored` | eagle_ble_sdk/3rd-party/freertos-V5/timers.c:521-546 | A run without a wrap or a preemption: a timer called late resets or stops itself, or sets its period anew, in its callback; in the end it is set for the expiry of its old course. |
| `TimerCourse.SwitchCalls` | eagle_ble_sdk/3rd-party/freertos-V5/timers.c:893-943 | Each pass of the list switch over the timer is one expiry. |
| `TimerCourse.ExpiryCalls` | eagle_ble_sdk/3rd-party/freertos-V5/timers.c:508-548 | So is each normal expiry. |
| `TimerCourse.ObeyOwn` | eagle_ble_sdk/3rd-party/freertos-V5/timers.c:802-835 | A restart command either sets the exact expiry or is that expiry, with the next one queued. |
| `TimerDrift.StepKeepsSteady` | eagle_ble_sdk/3rd-party/freertos-V5/timers.c:743-890 | Every event keeps the timer on its course: expiries and commands of other timers leave it alone, its own move it on. |
| `TimerDrift.StepKeepsSorted` | eagle_ble_sdk/3rd-party/freertos-V5/timers.c:699-740 | Both timer lists stay sorted. |
| `TimerModel.BlocksTillNextExpiry` | eagle_ble_sdk/3rd-party/freertos-V5/timers.c:607-640 | The daemon never blocks past an expiry: to the first on the current list exactly, else to the wrap at the latest. |
| `TimerModel.BlocksIffNothingDue` | eagle_ble_sdk/3rd-party/freertos-V5/timers.c:599-640 | The daemon blocks if and only if the lists were not switched and no timer of this epoch is due. |
| `Timers.TimerDaemon.InsertTimerInActiveList` | eagle_ble_sdk/3rd-party/freertos-V5/timers.c:699-740 | The code computes that verdict and placement. |
| `Timers.TimerDaemon.ProcessExpiredTimer` | eagle_ble_sdk/3rd-party/freertos-V5/timers.c:508-548 | Remove, reload or restart, call. |
| `Timers.TimerDaemon.SwitchTimerLists` | eagle_ble_sdk/3rd-party/freertos-V5/timers.c:893-950 | The loop empties the current list, then the lists are swapped. |
| `Timers.TimerDaemon.SampleTimeNow` | eagle_ble_sdk/3rd-party/freertos-V5/timers.c:676-697 | The lists are switched when the count has gone backwards. |
| `Timers.TimerDaemon.ProcessTimerOrBlock` | eagle_ble_sdk/3rd-party/freertos-V5/timers.c:587-646 | One expiry if one is due and the lists were not switched; else whether the daemon blocks, for how long, and whether without limit. |
| `Timers.TimerDaemon.ProcessReceivedCommand` | eagle_ble_sdk/3rd-party/freertos-V5/timers.c:769-886 | One command: off its list, clock read, carried out. |
| `Timers.TimerDaemon.ProcessReceivedCommands` | eagle_ble_sdk/3rd-party/freertos-V5/timers.c:743-890 | The receive loop: terminates with the queue empty, commands posted on the way included. |
| `EventGroupModel.NeverStrandsAWaiter` | eagle_ble_sdk/3rd-party/freertos-V5/event_groups.c:531-623 | Over every run no task waits for a condition that the event bits meet. |
| `EventGroupModel.ReturnsWhatWasAsked` | eagle_ble_sdk/3rd-party/freertos-V5/event_groups.c:405-445 | A call that was not timed out returns bits that meet its own condition. |
| `EventGroupModel.SetReleasesExactly` | eagle_ble_sdk/3rd-party/freertos-V5/event_groups.c:553-618 | A set releases exactly the tasks whose condition the new bits meet, all judged by the same bits before any are cleared, and tells each those bits. |
| `EventGroupModel.LastArriverReleasesAll` | eagle_ble_sdk/3rd-party/freertos-V5/event_groups.c:192-235 | The last arriver at a rendezvous releases every completed waiter and leaves the rendezvous bits clear. |
| `EventGroupModel.EncodeMatches` | eagle_ble_sdk/3rd-party/freertos-V5/event_groups.c:565-592 | The test on an item value is the wait condition of the call that stored it. |
| `EventGroupModel.StepKeepsInv` | eagle_ble_sdk/3rd-party/freertos-V5/event_groups.c:315-460 | Each call and timeout keeps the invariant. |
| `EventGroupLaws.SetLeaves` | eagle_ble_sdk/3rd-party/freertos-V5/event_groups.c:565-618 | For every single bit: a set leaves it set if and only if it was there or is set by it and no waiting call that the bits satisfy asked to clear it. |
| `EventGroupLaws.StepLeaves` | eagle_ble_sdk/3rd-party/freertos-V5/event_groups.c:338-450 | Likewise for every operation: the bits there or added, but for those taken by satisfied waiters, by the caller's own clear-on-exit, or on request. |
| `EventGroupLaws.StepAsks` | eagle_ble_sdk/3rd-party/freertos-V5/event_groups.c:358-400 | A call blocks if and only if it may and its condition is not met, with the item value that says what it asked, and stays so until it returns. |
| `EventGroupLaws.NobodyForgotten` | eagle_ble_sdk/3rd-party/freertos-V5/event_groups.c:358-400 | Over every run a call that blocked is on the list, or taken off it and about to return. |
| `EventGroupLaws.TimedOutReturnsPresent` | eagle_ble_sdk/3rd-party/freertos-V5/event_groups.c:405-445 | A call that timed out returns the bits there are when it runs again. |
| `EventGroups.EventGroup.Set` | eagle_ble_sdk/3rd-party/freertos-V5/event_groups.c:531-623 | The walk over the list while it is changed computes the model's set; the bits left are returned. |
| `EventGroups.EventGroup.Clear` | eagle_ble_sdk/3rd-party/freertos-V5/event_groups.c:471-496 | Bits cleared, former bits returned. |
| `EventGroups.EventGroup.Wait` | eagle_ble_sdk/3rd-party/freertos-V5/event_groups.c:338-400 | Returns the bits or blocks. |
| `EventGroups.EventGroup.Rendezvous` | eagle_ble_sdk/3rd-party/freertos-V5/event_groups.c:208-262 | Sets, then returns, clears or blocks. |
| `EventGroups.EventGroup.ReturnFromBlock` | eagle_ble_sdk/3rd-party/freertos-V5/event_groups.c:405-450 | Returns the bits that released it, or, timed out, the present bits, clearing late arrivals. |
| `AdpcmModel.PacketRoundTrip` | eagle_ble_sdk/application/audio/adpcm.c:75-148 | For every starting state and every sequence of samples, a multiple of four long: decoding the packet plays the encoder's predictions and ends in its state, through header, packing and unpacking. |
| `AdpcmModel.LockStep` | eagle_ble_sdk/application/audio/adpcm.c:307-379 | Encoder and decoder stay in the same state after every sample. |
| `AdpcmModel.ErrorBound` | eagle_ble_sdk/application/audio/adpcm.c:96-140 | Within two steps of the prediction, the new prediction is within step/8 + 2 of the sample, clamping included. |
| `AdpcmModel.OverloadIsShort` | eagle_ble_sdk/application/audio/adpcm.c:54-64 | Of any 13 samples in a row one at least is within two steps. |
| `AdpcmModel.NoSecondAtTop` | eagle_ble_sdk/application/audio/adpcm.c:120-140 | At the top step an overload is never followed by another. |
| `AdpcmModel.IndexFollows` | eagle_ble_sdk/application/audio/adpcm.c:96-140 | The step index moves by the error: down by one below a step, up by 2, 4, 6 or 8 the more it exceeds one. |
| `AdpcmModel.PacketLayout` | eagle_ble_sdk/application/audio/adpcm.c:84-121 | Byte by byte: predictor, index, payload length, then two codes to a byte, the earlier in the low nibble. |
| `AdpcmModel.UnpackPack` | eagle_ble_sdk/application/audio/adpcm.c:118-121 | Every code is found where it was packed. |
| `Adpcm.MicEncoder.MicToAdpcmSplit` | eagle_ble_sdk/application/audio/adpcm.c:75-148 | The loops emit header and packed codes, continuing a packet begun before. |
| `Adpcm.MicEncoder.QuantiseSample` | eagle_ble_sdk/application/audio/adpcm.c:107-116 | The inner loop computes code and difference together. |
| `Adpcm.MicEncoder.EncodeSample` | eagle_ble_sdk/application/audio/adpcm.c:96-146 | One sample: code emitted, predictor and index moved and clamped. |
| `Adpcm.SplitPacket` | eagle_ble_sdk/application/audio/adpcm.c:75-94 | A packet filled in two calls is the packet of all the samples. |
| `Adpcm.AdpcmToPcm` | eagle_ble_sdk/application/audio/adpcm.c:307-379 | The loop plays what the packet says, given one readable byte past it. |
| `Adpcm.DecodeEncoded` | eagle_ble_sdk/application/audio/adpcm.c:307-379 | Decoding what the encoder produced, whatever follows it in memory, plays the encoder's predictions. |

## Left out

- The port layer, context save and restore, interrupt masking, stacks, memory allocation, MPU, newlib, tracing: hardware or other files.
- `vTaskStepTick`, `xTaskCatchUpTicks`, run-time statistics, names, thread-local storage, co-routines. Of notifications only what they do to the task lists is modelled, not their values and states, so any blocked or suspended task off every event list may be notified. Of `vTaskPrioritySet` only the move between ready lists is modelled, as the event `PriorityChanged`.
- Scheduler.Kernel.Suspend: does not reset a waiting notification state, which is not modelled, and is not for use before the scheduler runs.
- Task creation, deletion and idle cleanup are modelled on values only (`TaskModel.Create`, `Delete`, `Cleanup`), without a method that carries them out step by step; the choice of the current task before the scheduler starts is not modelled.
- Kernel lists other than in `Lists` are sequences: the heap structure is proved there once, and aliasing between a task's two list items is not modelled elsewhere.
- The overflow count is unbounded; in the code it is 32 bits wide and repeats after 2^64 ticks. Pended ticks, suspension depth and the number of tasks are unbounded too.
- Queue items are copied in one step, and positions count items. Semaphores are queues whose messages carry nothing; recursive mutexes and `xQueueGiveFromISR` are not modelled.
- A reset of a queue in use, and deletion of queues, mutexes, event groups or stream buffers: the code does not promise the wake-up and inheritance invariants there.
- QueueModel.NoLostWakeUp: for a queue outside any set and lock counts that stay below 127; `PostHonouredIffCountFits` and `TakeHonouredIffCountFits` say what happens at 127.
- QueueOrder.WokenGoFirst: the urgency of a task does not change while it waits; the code does not move a waiting task whose priority changes.
- Preemption.RunningIsTop: that the code of creation, deletion and `vTaskPrioritySet` makes the requests `Asks` names for them is not modelled.
- QueueSets is modelled on values only, without the set's own event lists; queue sets are switched off in this SDK's configuration.
- InheritanceModel.HolderCoversWaiters: for tasks that hold at most one mutex and none while waiting, fixed base priorities, and gives that do not slip; `GiveKeepsUnlessItSlips` gives the exact condition. Ready lists appear there as a set of ready tasks; `Inheritance` proves that this is what the ready lists amount to.
- Inheritance.MutexKernel.GiveMutex: with the scheduler running; a mutex given while it is suspended wakes its waiter on resume, which the model does not follow.
- StreamInterleaving.NothingLostOrReordered: stream mode, one writer, one reader, length up to 2^31, no reset.
- StreamBuffers.StreamBuffer.Send: the part after any wait; blocking for space and notifying the reader at the trigger level are not modelled.
- StreamBuffers.StreamBuffer.Receive: likewise without the wait for data and the notification of the writer.
- StreamBuffers.StreamBuffer.constructor: sizes above 2^31 - 1, for which the counts are wrong (`CountsRightIff`), and the allocation of the memory.
- Message buffers are sequential: the receiver moves its tail and puts it back, so a concurrent writer could see a count that is too large.
- TimerDrift.NoDrift: the command queue has room, nobody else sends the timer a command, and its restarts are served within one wrap. A callback is a log entry; the time it takes and the commands it posts are events between the daemon's steps.
- TimerReset.ResetHoldsIff: for resets and restarts less than one wrap old and an auto-reload timer; the clock stands still until the queue is served. With the clock moving, `UnlistedDoesNotHold` says what happens as long as the reset's own expiry lies ahead.
- Timers.TimerDaemon.ProcessReceivedCommand: a deletion appears as a stop, without the freeing of memory; pended function calls are not modelled, nor is the active flag of a timer, which the code does not keep up to date on every path.
- Timers.TimerDaemon.ProcessReceivedCommands: commands that others post while the loop runs appear between its passes in the runs, not in this method.
- Timeouts.Receive: sees the queue through what each turn of the loop observes; taking the item and waking a sender are `Queues.QueueControl.TryReceive`. The clock is the tick count, which lags behind ticks pended while the scheduler is suspended.
- Event groups: the 24-bit form; deletion is not modelled, and calls deferred from interrupts to the timer daemon appear as plain sets and clears.
- Adpcm.AdpcmToPcm: requires an index byte of at most 88 in the header, as the encoder writes it; the code uses it unchecked. The HID and Google packet formats differ in header and nibble order only and are left out.
- USB, HID and audio drivers, cryptography and LC3 are left out: register access, or declarations without bodies.
