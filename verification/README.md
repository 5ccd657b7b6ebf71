# A verified model of a FreeRTOS kernel

This project models the FreeRTOS V10.0.0 kernel in `research/omnubus-reborn/freertos` as state machines and
proves what its queues, timers and scheduler are for. The steps of a machine are the critical sections of the
API calls, the tick interrupt, calls from interrupts and context switches; the theorems are about every
interleaving of them. The configuration is the one of `research/omnubus-reborn/freertos-usr/FreeRTOSConfig.h`:
preemption and time slicing on, mutexes on, static allocation, at most 32 priorities; software timers are
modelled although that file compiles them out. The integer temperature compensation of the BMP280 driver is
the one part that is not kernel code.

`dafny verify dfyconfig.toml` checks all of it.

## How it is laid out

Each subject has a model on values (a datatype for the state, a function for each step), the invariant and the
theorems about runs, and classes whose methods are written the way the C code is, with its fields and loops,
each proved to take the step of the model it stands for. The modules named Effects say once more, in terms of their
own, what each step does to everything it can touch: a task seen as a card, an event group as a set of events, a
message buffer as a sequence of messages, a timer as a due time. The functions of the models are proved to do exactly
that, so an invariant that a step would keep by doing nothing does not stand alone.

| files | subject |
|---|---|
| `Machine`, `ListModel`, `ItemStore` | wrapping ticks; the value of a kernel list; families of lists |
| `KernelList`, `RoundRobin` | the linked list on the heap; turns on a ready list |
| `ReadyBitmap` | the ready-priority bitmap and the clz selection |
| `Scheduler`, `SchedulerLists`, `SchedulerTick`, `SchedulerResume`, `SchedulerSteps`, `SchedulerPriority`, `SchedulerSwitch`, `SchedulerRuns`, `SchedulerStart`, `SchedulerScenes`, `SystemState`, `Kernel` | the scheduler: model, invariant, each operation, runs, the start, exceptions, the task report, imperative form |
| `SchedulerEffects`, `SchedulerTraces`, `SchedulerTurns`, `SchedulerSlices`, `SchedulerOrder` | what each scheduler operation does to every task, against a reference without lists; what follows over runs; turns, time slices and order among equals |
| `TimeTests` | time-outs and periodic delays on wrapped time |
| `QueueStorage`, `QueueLock`, `QueueEffects`, `QueueControl` | the byte ring of a queue; its lock protocol, what each step does, and the imperative form |
| `Mutex`, `MutexKept`, `MutexEffects`, `MutexRuns`, `MutexInversion`, `MutexNested`, `MutexAssertions`, `MutexScheduler`, `MutexBitmap`, `MutexCalls`, `MutexTicks`, `MutexSimulation` | priority inheritance, and its agreement with the scheduler |
| `RecursiveMutex` | recursive mutexes |
| `EventBits`, `EventSets`, `EventGroup`, `EventGroupRuns`, `EventGroupEffects`, `EventGroupWaits`, `EventGroupControl`, `Barrier` | event groups and the rendezvous |
| `Timers`, `TimersKept`, `TimersRuns`, `TimersEffects`, `TimersOnce`, `TimersQueue`, `TimersCommands`, `TimersControl` | the software timer daemon |
| `StreamBuffer`, `StreamBufferRuns`, `StreamBufferEffects`, `StreamBytes`, `StreamBufferControl`, `StreamBufferWaits`, `StreamBufferCalls` | message and stream buffers |
| `Bmp280` | temperature compensation |

Time in the models is unbounded: a tick is `epoch * 2^32 + counter`, and what the code computes on 32-bit
counters is proved to agree with it. Fields marked as not in the source (due times, the number of ticks
delivered, woken tasks that have not run, the stream of all bytes) are bookkeeping of the specification.

## Where the code does less than one would claim

Each of these is stated exactly, with a concrete input or run where it fails.

- Giving a mutex back drops the context switch that disinheriting asked for when some task waits for the mutex
  (`queue.c:811-837`). A higher ready task is then left waiting (`SchedulerScenes.ReadyTaskStranded`), and a task can go on
  to hold a mutex at a lower priority than a task waiting for it (`MutexInversion.HolderBelowWaiter`). Without such a
  give, priority inheritance holds in every run in which no task waits for a mutex while it holds one; with a nested
  wait it need not (`MutexNested.InversionThrough`), since only the holder itself is raised.
- Two assertions about mutexes can fail. A task that has raised a holder and timed out can find the mutex available, go
  round its loop, and find it taken again by somebody else, its block time now 0 (`queue.c:1474`;
  `MutexAssertions.FailsExactly`, `MutexAssertions.FirstRefusal`). With assertions the kernel stops there; in the Release
  configuration, which defines NDEBUG (`.cproject:310`), the call returns without taking the inheritance back; the theorems cover that return.
  And a task that has inherited and takes the same mutex again can come to undo its own inheritance (`tasks.c:4005`;
  `MutexNested.OwnAssertion`).
- A mutex time-out clears the ready bit of the new priority instead of the old one (`tasks.c:4012`, `tasks.c:4035`).
  The bitmap stays right exactly if the holder was not alone in its old ready list. In runs of the mutex protocol
  that is always so (`MutexSimulation.ProtocolOnScheduler`); once the priority of a waiting task is set it need not be
  (`SchedulerScenes.BitLeftSet`).
- The same time-out can raise the holder to a base priority that was set while it ran on an inherited one
  (`tasks.c:1552-1562`), or lower the running task itself, without asking for a switch (`SchedulerScenes.RaisedUnnoticed`).
- The lock counts of a queue are 8-bit: the 128th post, or removal, by interrupts in one lock loses wake-ups (`queue.c:1058`,
  `queue.c:1825`; `QueueLock.LostWakeUp`). `xQueueReset` frees every slot but wakes one sender (`queue.c:270-272`;
  `QueueLock.ResetLosesWakeUp`), and a woken task that is suspended or deleted takes its wake-up with it
  (`QueueLock.StopLosesWakeUp`).
- The timer daemon sends itself a start command for a timer it finds a full period late, or across a wrap
  (`timers.c:484`, `timers.c:878`). A stop or reset sent before that stands in front of it in the queue and is undone
  (`TimersCommands.TakesEffect`, `TimersCommands.StoppedAndRunning`).
- The daemon asserts that there is room in its queue for the starts it sends itself (`timers.c:485`, `timers.c:766`,
  `timers.c:879`). Users can fill the queue; the timer is then lost (`TimersQueue.TimerLost`), exactly if no user command on
  it is under way.
- A timer command handled 2^32 ticks late or later is misjudged unless `Timers.JudgeLate`'s condition holds
  (`Timers.Misjudged`).
- `xTaskCheckForTimeOut` misses a time-out when a second wrap of the tick count goes unchecked, in the case
  `TimeTests.Missed` describes (`TimeTests.TimeOutMissed`).
- On a ready list an item that is not at pxIndex can still be overtaken, when removing the item at pxIndex moves
  pxIndex to it; the exact bound counts those insertions (`RoundRobin.PredecessorOvertaken`).
- `uxTaskGetSystemState` takes a turn on every ready list (`tasks.c:3602-3613`). A task that calls it before each yield
  leaves out every second task of its priority: for good if their number is even (`SystemState.NeverServed`), in turn if
  it is odd.
- A receive with too small a buffer moves the tail of a message buffer and moves it back (`stream_buffer.c:863-877`);
  a writer that used the space in between destroys the buffer's contents (`StreamBufferRuns.TwoMessagesLost`).
- Two tasks can sleep on a stream buffer for ever, the receiver below its trigger level and the sender short of the space
  it needs (`stream_buffer.c:522`, `stream_buffer.c:566`): exactly if that space does not fit beside what can lie below the
  trigger level (`StreamBufferWaits.DeadlockReached`). Lowering the trigger level wakes no receiver
  (`StreamBufferWaits.LeftAsleep`).

## Model

| member | source | states |
|---|---|---|
| KernelList.List.constructor | research/omnubus-reborn/freertos/list.c:38-60 | an initialised list is a valid ring holding only its end marker |
| KernelList.List.Search | research/omnubus-reborn/freertos/list.c:104-150 | from any valid ring, sorted or not, the search ends for every key, portMAX_DELAY included, behind all leading items whose key is not greater and in front of the first greater one |
| KernelList.List.Insert | research/omnubus-reborn/freertos/list.c:104-168 | the item is linked in where the search stopped; all links, owners, the count and pxIndex stay consistent and the other items keep their order |
| KernelList.InsertKeepsSorted | research/omnubus-reborn/freertos/list.c:104-168 | on a sorted list such an insertion keeps it sorted and is stable: behind every item with an equal or lower key, in front of every higher one |
| KernelList.List.InsertEnd | research/omnubus-reborn/freertos/list.c:75-101 | the item becomes the last one that a walk from pxIndex reaches |
| KernelList.InsertEndView | research/omnubus-reborn/freertos/list.c:75-101 | the linked ring refines the sequence with a rotation point, for vListInsertEnd |
| KernelList.InsertView | research/omnubus-reborn/freertos/list.c:104-168 | the same for vListInsert |
| KernelList.RemoveView | research/omnubus-reborn/freertos/list.c:171-197 | the same for uxListRemove |
| KernelList.List.Detach | research/omnubus-reborn/freertos/list.c:171-197 | exactly that item leaves; pxIndex steps back if it pointed at it; back links, owners and the count stay consistent |
| KernelList.Remove | research/omnubus-reborn/freertos/list.c:171-197 | uxListRemove finds the list through the item and returns the number of items left |
| KernelList.List.NextEntry | research/omnubus-reborn/freertos/include/list.h:277-288 | pxIndex moves to the next item, skipping the end marker, and that item is the result |
| RoundRobin.TurnStep | research/omnubus-reborn/freertos/list.c:75-101 | one operation, exactly: only an insertion made while pxIndex points at an item moves that item further from its turn, by one place; a removal never does; a next-entry call brings it one nearer or hands it out |
| RoundRobin.BoundedWaiting | research/omnubus-reborn/freertos/include/list.h:277-288 | in every interleaving of insert-at-end, remove and next-entry, an item is handed out within its distance from pxIndex plus one call for each insertion that overtook it |
| RoundRobin.PredecessorOvertaken | research/omnubus-reborn/freertos/list.c:171-197 | an item that is not at pxIndex can be overtaken: removing the item at pxIndex moves pxIndex to it |
| ItemStore.TakeValid | research/omnubus-reborn/freertos/list.c:171-197 | in a family of lists, removal keeps each item in the one list its container field names |
| ItemStore.PutEndValid | research/omnubus-reborn/freertos/list.c:75-101 | so does insertion at the end of another list |
| ItemStore.PutAtValid | research/omnubus-reborn/freertos/list.c:104-168 | so does ordered insertion |
| ReadyBitmap.BitOps | research/omnubus-reborn/freertos-usr/portmacro.h:145-146 | recording or resetting a priority changes its own bit and no other |
| ReadyBitmap.PriorityOps | research/omnubus-reborn/freertos-usr/portmacro.h:145-146 | on the set of priorities the bitmap stands for, that is adding and removing one element |
| ReadyBitmap.CountLeadingZeros | research/omnubus-reborn/freertos-usr/portmacro.h:150 | the bit below the leading zeros is set and none above it is |
| ReadyBitmap.HighestPriority | research/omnubus-reborn/freertos-usr/portmacro.h:150 | 31 - clz is the greatest priority whose bit is set |
| ReadyBitmap.HighestBySearch | research/omnubus-reborn/freertos/tasks.c:150-165 | the generic downward search, from any upper bound, finds the highest non-empty ready list |
| Kernel.Tasks.HighestReady | research/omnubus-reborn/freertos/tasks.c:138-207 | in every state of the scheduler that satisfies the invariant, and from every upper bound on the priorities in use, the downward search over the ready lists ends at the priority 31 - clz, the highest with a ready task |
| SchedulerTick.EmptyAtSwitch | research/omnubus-reborn/freertos/tasks.c:215-227 | when the tick count wraps, the current delayed list is empty |
| SchedulerTick.ExpiredIffDue | research/omnubus-reborn/freertos/tasks.c:2622-2660 | a task has expired after the tick is counted exactly if its unbounded due time is that tick, wrap or no wrap |
| SchedulerTick.UnblockExact | research/omnubus-reborn/freertos/tasks.c:2622-2698 | the unblocking loop readies exactly the tasks whose time has come, takes them off their event lists, and asks for a switch exactly if one of them may preempt |
| SchedulerTick.TickExact | research/omnubus-reborn/freertos/tasks.c:2589-2742 | one unsuspended tick keeps every list in order, wakes exactly the tasks due at it, and asks for a switch exactly if a yield was pending, a task due at it has at least the priority of the running one, or two different tasks of that priority are ready after it |
| SchedulerResume.NotOverdue | research/omnubus-reborn/freertos/tasks.c:3730-3751 | no delayed task is overdue, since xNextTaskUnblockTime never lies behind the head of the delayed list |
| SchedulerResume.DrainExact | research/omnubus-reborn/freertos/tasks.c:2127-2157 | resuming moves exactly the tasks that interrupts had woken to their ready lists |
| SchedulerResume.ReplayExact | research/omnubus-reborn/freertos/tasks.c:2159-2187 | replaying n pended ticks wakes exactly the tasks due within those n ticks |
| SchedulerSwitch.ResumedExact | research/omnubus-reborn/freertos/tasks.c:2105-2212 | the outermost xTaskResumeAll readies the tasks woken or due during the suspension and no others, and catches up with unbounded time |
| SchedulerSwitch.SwitchPicks | research/omnubus-reborn/freertos/tasks.c:2851-2907 | a context switch picks, through the bitmap, a ready task that no ready task outranks, and advances that ready list |
| SchedulerRuns.StepKept | research/omnubus-reborn/freertos/tasks.c:1027-1088 | every one of 22 operations keeps the whole invariant (each task in exactly one state list, a ready task in the list of its priority, bit p set iff ready list p is not empty, both delayed lists ordered and never late, counters exact, ticks conserved), except exactly the time-out of tasks.c:4035 on a holder alone in its ready list |
| SchedulerEffects.StepExact | research/omnubus-reborn/freertos/tasks.c:1027-4392 | each of the 22 operations does to every task exactly what a reference without lists, bitmap and 32-bit clock says: its priorities, its count of mutexes, the value of its event item, whether it is runnable, asleep until some time, parked or dead, and what it waits for; and a switch is asked for, and a yield noted, exactly when the reference says |
| SchedulerRuns.RunKept | research/omnubus-reborn/freertos/tasks.c:2984-3049 | the invariant after every run; and preemption: the running task is a highest ready one unless a switch is pending or was asked for, in every run without the two stranding steps |
| SchedulerRuns.RunExact | research/omnubus-reborn/freertos/tasks.c:4012-4035 | of all runs, exactly those without such a time-out keep the invariant in every state; and of these, exactly those without the two stranding steps keep preemption in every state |
| SchedulerRuns.RunOnTime | research/omnubus-reborn/freertos/tasks.c:2622-2698 | over any run that does not touch it otherwise, a delayed task stays delayed exactly until its unbounded due time |
| SchedulerRuns.ExactWakeUp | research/omnubus-reborn/freertos/tasks.c:4909-5018 | a task that blocks for n >= 1 ticks, in a delay or in a wait with a time-out, is in a delayed list after any run exactly if fewer than n ticks have passed, however often the counter wrapped |
| SchedulerTraces.ResumeDoes | research/omnubus-reborn/freertos/tasks.c:1777-1823 | vTaskResume makes a task that is in the suspended list and waits for nothing ready at its own priority, moves nobody else, and asks for a switch exactly if the task has at least the running priority; in every other case it changes nothing |
| SchedulerTraces.SuspendedExactly | research/omnubus-reborn/freertos/tasks.c:1630-1896 | over any run a task is in the suspended list, waiting for nothing, exactly from its suspension to the next resume or deletion of it, whatever else happens |
| SchedulerTraces.WantedBitsStay | research/omnubus-reborn/freertos/tasks.c:1566-1580 | the bits a task waits for in an event group stand in its event item, with the mark, as long as it waits, whatever priority changes, inheritances and mutex time-outs fall in between |
| SchedulerTraces.GrantedBitsStay | research/omnubus-reborn/freertos/tasks.c:3052-3083 | and the bits a set hands to it stand there until the item is put to another use |
| SchedulerTraces.ItemsPriced | research/omnubus-reborn/freertos/tasks.c:3812-3829 | over any run an event item that is not lent holds configMAX_PRIORITIES less a priority of its task: the current one, or the base priority set while it ran on an inherited one |
| SchedulerTraces.WaitsForever | research/omnubus-reborn/freertos/tasks.c:4938-4944 | no number of ticks ends a wait without a time limit |
| SchedulerTraces.AllFreed | research/omnubus-reborn/freertos/tasks.c:3468-3494 | the idle task's loop frees every dead task, and no other task notices |
| SchedulerTurns.StepOps | research/omnubus-reborn/freertos/tasks.c:230-240 | every operation acts on a ready list only by insertions at the end, of the tasks it makes ready, by removals, and by one move of pxIndex, exactly if it is a switch that selects from that list |
| SchedulerSlices.TurnComes | research/omnubus-reborn/freertos/tasks.c:2851-2905 | in every run in which a task stays ready, unsurpassed, and is not put into its list anew, a switch picks it within as many switches as its turn is away, and one more for each insertion that finds pxIndex at it |
| SchedulerSlices.WithinOneRound | research/omnubus-reborn/freertos/tasks.c:2851-2905 | and within as many switches as its list is long, if nobody joins that list meanwhile |
| SchedulerSlices.EachRunsOnce | research/omnubus-reborn/freertos/tasks.c:2700-2714 | time slices: of n ready tasks of the top priority each runs after exactly one of the next n ticks, with the switches the ticks ask for, if nobody of that priority or above is due in them |
| SchedulerOrder.SleepsBehind | research/omnubus-reborn/freertos/tasks.c:4947-4973 | a task that blocks takes its place behind all tasks of its delayed list due no later and before all others |
| SchedulerOrder.TickOrder | research/omnubus-reborn/freertos/tasks.c:2622-2698 | a tick inserts the tasks due at it into the ready lists in the order of the delayed list, so of two that are due together the one that went to sleep first |
| SchedulerOrder.WaitsBehind | research/omnubus-reborn/freertos/tasks.c:2910-2924 | a task that waits for a queue takes its place in front of the first task of the waiting list that is lower by its event item, and behind those before it |
| SchedulerOrder.RequeueExact | research/omnubus-reborn/freertos/tasks.c:1583-1608 | waking, resuming, suspending a task, and changing the priority of a ready one, also where it stays the same, put it at the end of the list it then belongs to and change no other list; in every other case these operations change none |
| SchedulerOrder.GiverRequeued | research/omnubus-reborn/freertos/tasks.c:3908-3936 | giving back the last mutex puts a task that has inherited at the end of the ready list of its own priority, and otherwise moves nobody |
| SchedulerStart.StartInv | research/omnubus-reborn/freertos/tasks.c:1027-1107 | whatever tasks are created before the scheduler runs, in any number and order, the idle task last, the state in which the first task starts satisfies the invariant, and that task is a highest ready one |
| SchedulerStart.StartExact | research/omnubus-reborn/freertos/tasks.c:1027-1088 | every task starts at the priority it was created with, each ready list holds its tasks in the order of creation, and the task that starts is the one chosen in the next row |
| SchedulerStart.LastOfHighest | research/omnubus-reborn/freertos/tasks.c:1045-1063 | that is the last created of the highest tasks |
| SchedulerRuns.SuspendedDefers | research/omnubus-reborn/freertos/tasks.c:3006-3016 | while the scheduler is suspended no tick or interrupt changes a state list: ticks are pended one for one, woken tasks wait on the pending list |
| SchedulerRuns.WokenOnce | research/omnubus-reborn/freertos/tasks.c:2127-2187 | a task an interrupt has woken is ready before the first pended tick is replayed, so no replayed tick times it out too; after the resume, time has caught up with the ticks delivered |
| SchedulerRuns.TasksConserved | research/omnubus-reborn/freertos/tasks.c:1112-1181 | after every run the lengths of all state lists add up to uxCurrentNumberOfTasks and the termination list is as long as uxDeletedTasksWaitingCleanUp |
| SchedulerPriority.GivePreempts | research/omnubus-reborn/freertos/queue.c:809-837 | giving a mutex keeps preemption exactly if it does not drop the switch that disinheriting asked for while a higher task is ready |
| SchedulerPriority.StaleBitBreaks | research/omnubus-reborn/freertos/tasks.c:4012-4035 | the time-out clears the bit of the new priority: if the holder was alone in its old list, that list is empty and its bit stays set |
| SchedulerScenes.BitLeftSet | research/omnubus-reborn/freertos/tasks.c:4012-4035 | a run from the start of the scheduler, through creation, inheritance, a wait with a time-out, a vTaskPrioritySet on the waiting task and the tick that readies it, after which the time-out does this, although the running task is a highest ready one |
| SchedulerScenes.RaisedUnnoticed | research/omnubus-reborn/freertos/tasks.c:1552-1562 | a run from the start in which vTaskPrioritySet gives the holder a base priority above its inherited one, so that the time-out raises it above the running task and asks for no switch |
| SchedulerScenes.ReadyTaskStranded | research/omnubus-reborn/freertos/queue.c:811-837 | a run from the start, through inheritance, the creation of a third task and a vTaskPrioritySet on the waiting one, in which a give leaves a ready task outranking the running one with no switch pending |
| SystemState.ReportExact | research/omnubus-reborn/freertos/tasks.c:2409-2476 | the report of uxTaskGetSystemState names every task exactly once, with its priorities and what it is doing, and is as long as uxCurrentNumberOfTasks, so it fits every array that passes the test of its size |
| SystemState.WalkKept | research/omnubus-reborn/freertos/tasks.c:3595-3621 | the walks move no task and keep the whole invariant and preemption |
| SystemState.TurnLost | research/omnubus-reborn/freertos/tasks.c:3600-3613 | but each leaves pxIndex one place further: on a ready list the task whose turn was next becomes the last, the others move up |
| SystemState.Served | research/omnubus-reborn/freertos/tasks.c:3600-3613 | a task of the highest ready list that makes the call before each yield: after k such rounds the task runs that is 2 * k places further round the list, so every second turn is lost |
| SystemState.NeverServed | research/omnubus-reborn/freertos/tasks.c:3600-3613 | with an even number of tasks in that list, those at the other parity never run |
| SystemState.ServedInTime | research/omnubus-reborn/freertos/tasks.c:3600-3613 | with an odd number each runs within as many rounds as there are tasks |
| SystemState.TwoOnTop | research/omnubus-reborn/freertos/tasks.c:2409-2476 | a run from the start to such a state with two tasks |
| Kernel.Tasks.AddTaskToReadyList | research/omnubus-reborn/freertos/tasks.c:235-239 | the imperative prvAddTaskToReadyList takes the state where the scheduler model says; the bitmap is the 32-bit word |
| Kernel.Tasks.ResetNextTaskUnblockTime | research/omnubus-reborn/freertos/tasks.c:3730-3751 | the same for prvResetNextTaskUnblockTime |
| Kernel.Tasks.AddCurrentTaskToDelayedList | research/omnubus-reborn/freertos/tasks.c:4909-5018 | the same for prvAddCurrentTaskToDelayedList |
| Kernel.Tasks.UnblockExpired | research/omnubus-reborn/freertos/tasks.c:2622-2698 | the same for the unblocking loop of the tick, which ends |
| Kernel.Tasks.IncrementTick | research/omnubus-reborn/freertos/tasks.c:2589-2758 | the same for xTaskIncrementTick, with its result, which `SchedulerTick.TickExact` tells |
| Kernel.Tasks.DrainPending | research/omnubus-reborn/freertos/tasks.c:2127-2146 | the same for the loop over the pending ready list |
| Kernel.Tasks.ReplayTicks | research/omnubus-reborn/freertos/tasks.c:2163-2187 | the same for the loop that replays pended ticks |
| Kernel.Tasks.ResumeAll | research/omnubus-reborn/freertos/tasks.c:2105-2212 | the same for xTaskResumeAll |
| Kernel.Tasks.SelectHighestPriorityTask | research/omnubus-reborn/freertos/tasks.c:186-194 | the same for the selection by bitmap |
| Kernel.Tasks.SwitchContext | research/omnubus-reborn/freertos/tasks.c:2851-2907 | the same for vTaskSwitchContext |
| Kernel.Tasks.PlaceOnEventList | research/omnubus-reborn/freertos/tasks.c:2910-2924 | the same for vTaskPlaceOnEventList |
| Kernel.Tasks.PlaceOnUnorderedEventList | research/omnubus-reborn/freertos/tasks.c:2927-2948 | the same for vTaskPlaceOnUnorderedEventList |
| Kernel.Tasks.RemoveFromEventList | research/omnubus-reborn/freertos/tasks.c:2984-3049 | the same for xTaskRemoveFromEventList, with its result |
| Kernel.Tasks.RemoveFromUnorderedEventList | research/omnubus-reborn/freertos/tasks.c:3052-3083 | the same for vTaskRemoveFromUnorderedEventList |
| Kernel.Tasks.SuspendTask | research/omnubus-reborn/freertos/tasks.c:1630-1724 | the same for vTaskSuspend |
| Kernel.Tasks.ResetEventItemValue | research/omnubus-reborn/freertos/tasks.c:4379-4392 | uxTaskResetEventItemValue returns what the event item held and gives it the value of the running task's priority back |
| Kernel.Tasks.Resume | research/omnubus-reborn/freertos/tasks.c:1777-1823 | the same for vTaskResume; `SchedulerTraces.ResumeDoes` says what that is |
| Kernel.Tasks.ResumeFromISR | research/omnubus-reborn/freertos/tasks.c:1831-1896 | the same for xTaskResumeFromISR, whose result is true exactly if the scheduler runs, the task was suspended, and it has at least the priority of the running one |
| Kernel.Tasks.Delete | research/omnubus-reborn/freertos/tasks.c:1112-1197 | the same for vTaskDelete |
| Kernel.Tasks.GetInfo | research/omnubus-reborn/freertos/tasks.c:3506-3564 | vTaskGetInfo reports the task, its two priorities and, told the state that goes with the list holding the task, what the task is really doing: a task in the suspended list may be waiting for an event, and any task may be the running one |
| Kernel.Tasks.ListUpTo | research/omnubus-reborn/freertos/tasks.c:3608-3613 | the do-while loop of prvListTasksWithinSingleList ends, having reported each task of the list once, in the order of the ring |
| Kernel.Tasks.ListTasksWithinSingleList | research/omnubus-reborn/freertos/tasks.c:3595-3621 | and amounts to one step of pxIndex |
| Kernel.Tasks.GetSystemState | research/omnubus-reborn/freertos/tasks.c:2409-2476 | uxTaskGetSystemState fills the array with that report, or leaves it alone if it is too small |
| Kernel.Tasks.AddNewTask | research/omnubus-reborn/freertos/tasks.c:1027-1107 | the same for prvAddNewTaskToReadyList, before and after the scheduler is started |
| Kernel.Tasks.PrioritySet | research/omnubus-reborn/freertos/tasks.c:1466-1623 | the same for vTaskPrioritySet |
| Kernel.Tasks.CheckTasksWaitingTermination | research/omnubus-reborn/freertos/tasks.c:3468-3494 | the idle task's loop ends with every task that deleted itself freed, takes the state where as many rounds of the model do, and keeps the invariant |
| Kernel.Tasks.PriorityInherit | research/omnubus-reborn/freertos/tasks.c:3801-3881 | xTaskPriorityInherit takes the state where the scheduler model says, and its result says whether the holder runs on an inherited priority |
| Kernel.Tasks.PriorityDisinherit | research/omnubus-reborn/freertos/tasks.c:3888-3961 | the same for xTaskPriorityDisinherit, with its result |
| Kernel.Tasks.PriorityDisinheritAfterTimeout | research/omnubus-reborn/freertos/tasks.c:3968-4063 | the same for vTaskPriorityDisinheritAfterTimeout, with the bit it really clears |
| TimeTests.CheckExact | research/omnubus-reborn/freertos/tasks.c:3106-3166 | for a finite block time the test reports expiry exactly when entry + block time has passed, in every case but one, which is stated; and while it has not, entry + remaining ticks stays that time |
| TimeTests.TimeOutMissed | research/omnubus-reborn/freertos/tasks.c:3141-3161 | a wait in that case: over for nearly 2^32 ticks and not reported |
| TimeTests.OneOverflow | research/omnubus-reborn/freertos/tasks.c:3141-3149 | that case needs a second wrap of the tick count since entry |
| TimeTests.ExpiredExact | research/omnubus-reborn/freertos/tasks.c:3141-3161 | what a test that reports expiry leaves to wait: nothing, or, if the tick count has gone once round and more, all of it |
| TimeTests.Forever | research/omnubus-reborn/freertos/tasks.c:3130-3139 | an infinite block time never expires and is never changed |
| TimeTests.DeadlineFixed | research/omnubus-reborn/freertos/tasks.c:3141-3161 | however often a blocking call looks, it gives up at its first look at or after entry + block time |
| TimeTests.DelayUntilExact | research/omnubus-reborn/freertos/tasks.c:1204-1262 | vTaskDelayUntil delays exactly if fewer ticks than the increment show since the previous target, and for the rest of the increment |
| TimeTests.Periodic | research/omnubus-reborn/freertos/tasks.c:1204-1262 | the call after k others aims at start + (k + 1) * increment whatever the times of the calls, and, made less than 2^32 ticks after the previous target, delays exactly if that is still to come and exactly until then |
| TimeTests.TimeOut.Check | research/omnubus-reborn/freertos/tasks.c:3106-3166 | the imperative xTaskCheckForTimeOut computes that function in place |
| QueueStorage.ByteQueue.constructor | research/omnubus-reborn/freertos/queue.c:248-261 | a new queue of any length and positive item size is valid and empty |
| QueueStorage.ByteQueue.SendItem | research/omnubus-reborn/freertos/queue.c:2041-2117 | a send puts the item at the back, at the front, or in place of the only item, or is refused when there is no room: the bytes of the ring are those of a double-ended queue |
| QueueStorage.ByteQueue.ReceiveItem | research/omnubus-reborn/freertos/queue.c:2120-2135 | a receive takes out the bytes of the first item |
| QueueStorage.ByteQueue.PeekItem | research/omnubus-reborn/freertos/queue.c:1635-1646 | a peek delivers them and leaves queue and read pointer as they were |
| QueueStorage.RunScript | research/omnubus-reborn/freertos/queue.c:2041-2135 | over any series of sends, overwrites, receives and peeks, what is delivered and what is left are those of the double-ended queue |
| QueueStorage.FirstInFirstOut | research/omnubus-reborn/freertos/queue.c:2067-2079 | with sends to the back, every accepted item comes out once, in order, or is still there |
| QueueStorage.LastInFirstOut | research/omnubus-reborn/freertos/queue.c:2080-2092 | an item sent to the front is the next to come out, and the rest are untouched |
| QueueLock.StepKept | research/omnubus-reborn/freertos/queue.c:2138-2255 | of all steps of tasks, interrupts and the blocking sequence, exactly those that wrap an 8-bit lock count or lose a wake-up (the suspension or deletion of a woken task, or a reset, with others waiting for what is there) break the invariant behind the next rows |
| QueueEffects.StepExact | research/omnubus-reborn/freertos/queue.c:726-1839 | what every step does to a queue: an item accepted is one more unless it replaces that of a full queue, one taken is one less, and one receiver is woken for each accepted, or seen and left, and one sender for each taken, from the head of the list, at once or, for interrupts while the queue is locked, on unlocking; nobody else is woken or moved |
| QueueLock.RunKept | research/omnubus-reborn/freertos/queue.c:2138-2255 | a run keeps that invariant in every state exactly if no step of it wraps a count or loses a wake-up |
| QueueLock.NoLostWakeUp | research/omnubus-reborn/freertos/queue.c:233-245 | in every run from creation without such a step, harmless resets, suspensions and deletions among its steps, if a receiver waits then the items are no more than the receivers woken and still to run plus the wake-ups the lock owes; the same for senders and free slots; so a queue at rest with a waiting receiver is empty, and one with a waiting sender is full |
| QueueEffects.ItemsConserved | research/omnubus-reborn/freertos/queue.c:2041-2117 | over every run without a reset the items in a queue are those there were and those stored less those fetched, and never more than its length |
| QueueEffects.WakeUpsCaused | research/omnubus-reborn/freertos/queue.c:2138-2255 | over every run no more tasks are woken than items came or were left, or places became free, counting the wake-ups the lock still owes |
| QueueLock.FewInterruptsSuffice | research/omnubus-reborn/freertos/queue.c:1042-1060 | no count wraps, and the same holds, if interrupts post at most 127 times and remove at most 127 times while the queue is locked once, however often they use it unlocked |
| QueueLock.LostWakeUp | research/omnubus-reborn/freertos/queue.c:1058 | with 128 interrupt operations in one lock a queue ends at rest, full, with nobody woken and a receiver still waiting, although no task is stopped and nothing is reset |
| QueueLock.ResetLosesWakeUp | research/omnubus-reborn/freertos/queue.c:270-272 | a run with two waiting senders and a reset, after which the queue is at rest with room, nobody woken, and one sender still waiting |
| QueueLock.StopLosesWakeUp | research/omnubus-reborn/freertos/queue.c:2138-2224 | a run in which the woken receiver is suspended or deleted before it runs: the queue is at rest with an item, nobody woken, and another receiver still waiting |
| QueueControl.QueueBlock.GenericSend | research/omnubus-reborn/freertos/queue.c:745-862 | the imperative critical section of xQueueGenericSend takes the step of the model |
| QueueControl.QueueBlock.GenericSendFromISR | research/omnubus-reborn/freertos/queue.c:955-1069 | the same for xQueueGenericSendFromISR |
| QueueControl.QueueBlock.Receive | research/omnubus-reborn/freertos/queue.c:1265-1330 | the same for xQueueReceive and xQueuePeek |
| QueueControl.QueueBlock.ReceiveFromISR | research/omnubus-reborn/freertos/queue.c:1778-1837 | the same for xQueueReceiveFromISR |
| QueueControl.QueueBlock.LockQueue | research/omnubus-reborn/freertos/queue.c:233-245 | the same for prvLockQueue |
| QueueControl.QueueBlock.UnlockTransmit | research/omnubus-reborn/freertos/queue.c:2138-2224 | the loop of prvUnlockQueue that wakes one receiver for each post counted, and then unlocks |
| QueueControl.QueueBlock.UnlockReceive | research/omnubus-reborn/freertos/queue.c:2226-2254 | the same for senders |
| MutexKept.StepKept | research/omnubus-reborn/freertos/queue.c:1382-1598 | every critical section and every look at the time in taking, waiting for, timing out on and giving a mutex, by any number of tasks under preemption, keeps the protocol invariant, except exactly a give that strands a higher ready task and a wait of a task that holds a mutex |
| MutexEffects.StepExact | research/omnubus-reborn/freertos/queue.c:1382-1598 | what every step does: waiting lends the holder the higher of both priorities; after a time-out a holder of this mutex alone is left the higher of its base and the highest still waiting; giving back the last mutex leaves the base priority; a give wakes a task of the highest priority that waits; each task, owner, list and the request for a switch is exactly as said, and nothing else changes |
| MutexRuns.RunKept | research/omnubus-reborn/freertos/queue.c:1382-1598 | a run keeps that invariant in every state exactly if none of its steps is one of these two |
| MutexRuns.Inheritance | research/omnubus-reborn/freertos/tasks.c:3801-4063 | after every such run: uxMutexesHeld is the number of mutexes held, base <= current priority with equality when none is held, and no holder runs below a task that waits for its mutex, also after time-outs |
| MutexRuns.NoInversion | research/omnubus-reborn/freertos/tasks.c:3801-3881 | while a task waits for a mutex that is free or whose holder is ready, no task of lower priority runs |
| MutexInversion.HolderBelowWaiter | research/omnubus-reborn/freertos/queue.c:811-837 | a run of four tasks and two mutexes, from the start, with no nested wait, in which a give drops a switch and a task then holds a mutex at a lower priority than a task waiting for it |
| MutexNested.InversionThrough | research/omnubus-reborn/freertos/tasks.c:3801-3881 | a run from the start, without any give, in which a task waits for a mutex while it holds another: a higher task waiting for that one raises it but not the ready task it waits for, which a task in between keeps from running |
| MutexAssertions.FailsExactly | research/omnubus-reborn/freertos/queue.c:1466-1480 | after any run from the start, the assertion that a task whose block time is 0 has raised no holder fails exactly if the last thing the running task did was to look after a time-out that set its block time to 0 and to find the mutex, whose holder it had raised, available, and the mutex is taken again |
| MutexAssertions.FirstRefusal | research/omnubus-reborn/freertos/queue.c:1466-1480 | a run from the start, with no stranding and no nested wait, in which it fails: the holder gives the mutex back between the time-out and the look, and a third task takes it before the timed-out one tries |
| MutexAssertions.FailsOnlyNested | research/omnubus-reborn/freertos/tasks.c:3974-4005 | in every run the holder that a timed-out task finds has a mutex counted; and the assertion that it is not the running task itself, about to lower its own priority, fails only if some wait of the run was nested |
| MutexNested.OwnAssertion | research/omnubus-reborn/freertos/tasks.c:4002-4005 | a run from the start in which that assertion fails: a holder that has inherited takes the same mutex again, and the waiting task that raised it times out first |
| MutexScheduler.InheritAgrees | research/omnubus-reborn/freertos/tasks.c:3801-3881 | the protocol's change of priority is that of the scheduler model, for inheriting |
| MutexScheduler.DisinheritAgrees | research/omnubus-reborn/freertos/tasks.c:3888-3961 | for disinheriting, with the result |
| MutexScheduler.TimeoutAgrees | research/omnubus-reborn/freertos/tasks.c:3968-4063 | and for a time-out |
| MutexBitmap.NotAlone | research/omnubus-reborn/freertos/tasks.c:3990-4056 | when a time-out lowers a ready holder, another ready task has the holder's old priority |
| MutexTicks.CallLate | research/omnubus-reborn/freertos/tasks.c:2159-2187 | ticks that fall anywhere in a blocking call, most of them held back and replayed by xTaskResumeAll, leave the state that the same ticks after the call would, but for a yield noted while one is pending anyway |
| MutexTicks.GlanceLate | research/omnubus-reborn/freertos/tasks.c:2159-2187 | the same of a suspension and resumption with nothing done in between, as around a look at the time |
| MutexSimulation.CallKept | research/omnubus-reborn/freertos/queue.c:1382-1598 | each call of the mutex protocol, by any task, with any number of ticks falling inside it, is a legal sequence of scheduler steps (a wait is a suspension of the scheduler, an inheritance, a block, the resumption and a yield, a look at the time a suspension and a resumption), unless it strands a task or nests a wait, each tick one that may wake several tasks; scheduler and protocol agree again afterwards on lists, priorities, counts and the pending switch |
| MutexSimulation.ProtocolOnScheduler | research/omnubus-reborn/freertos/tasks.c:3801-4063 | so from the start of the scheduler, with any tasks and mutexes, every run of such calls, ticks falling between and inside them, that strands no task and nests no wait keeps the invariants of both; in particular the wrong reset of tasks.c:4035 never leaves the ready bitmap wrong |
| RecursiveMutex.StepKept | research/omnubus-reborn/freertos/queue.c:588-656 | any step of any task in a recursive take or give, down to the single loads and stores that no lock guards, keeps the invariant behind the next rows |
| RecursiveMutex.Exclusive | research/omnubus-reborn/freertos/queue.c:582-597 | in every run at most one task has takes outstanding, uxRecursiveCallCount is their number, no loaded count is stale when it is stored, and the count never drops below 0 |
| RecursiveMutex.DepthCounts | research/omnubus-reborn/freertos/queue.c:582-656 | the takes outstanding are the takes less the gives of the run |
| RecursiveMutex.CallsDecide | research/omnubus-reborn/freertos/queue.c:600-650 | a task with takes outstanding takes again at once, only such a task can give, and the last give, no other, returns the mutex |
| RecursiveMutex.FreeAtRest | research/omnubus-reborn/freertos/queue.c:575-665 | with nobody inside a call the mutex is free exactly if no take is outstanding |
| EventGroup.SetWakes | research/omnubus-reborn/freertos/event_groups.c:505-596 | a set wakes exactly the tasks whose any/all condition the new bits meet and gives each of them those bits |
| EventGroup.SetClears | research/omnubus-reborn/freertos/event_groups.c:563-591 | it clears the bits that woken clear-on-exit tasks waited for and no others |
| EventGroupEffects.TestMet | research/omnubus-reborn/freertos/event_groups.c:657-690 | prvTestWaitCondition, of words as sets of events: all of the wanted ones are set, or one is |
| EventGroupEffects.StepExact | research/omnubus-reborn/freertos/event_groups.c:177-596 | what every call does, told as sets: which events it sets and which it, or a task it wakes, takes away; whom it wakes and with which events; what every task is then waiting for; and what the call returns: for all of set, clear, wait, rendezvous, a time-out, the look after it, and the return of a woken task |
| EventGroupWaits.WaitMet | research/omnubus-reborn/freertos/event_groups.c:322-337 | a wait whose condition is met returns the bits it found and touches nobody; with clear-on-exit no wanted bit is left and, per mask, every other bit is as it was; without it no bit changes |
| EventGroupWaits.TakenOnce | research/omnubus-reborn/freertos/event_groups.c:322-396 | from one set of an event to the next at most one clear-on-exit wait for it alone succeeds, blocked or not, and none if the set itself has woken such a waiter; those blocked at the set all succeed with it |
| EventGroupWaits.SharedBySleepers | research/omnubus-reborn/freertos/event_groups.c:525-591 | two tasks blocked for the same bit are both woken by one set of it |
| EventGroup.OrderIrrelevant | research/omnubus-reborn/freertos/event_groups.c:525-591 | its result does not depend on the order of the waiting list |
| EventGroup.ItemValueParts | research/omnubus-reborn/freertos/event_groups.c:345-375 | the event list item carries the bits waited for and both options of a call, for every call |
| EventGroup.MarkedParts | research/omnubus-reborn/freertos/event_groups.c:572-580 | it carries the event bits back, marked as a set and not a time-out |
| EventGroupRuns.StepKept | research/omnubus-reborn/freertos/event_groups.c:177-471 | every set, clear, wait, sync, time-out and return keeps the next row's invariant |
| EventGroupRuns.NeverStranded | research/omnubus-reborn/freertos/event_groups.c:505-596 | after every run no task is left waiting for a condition that holds, and every task a set has woken returns bits that meet its condition |
| EventGroupRuns.DeletedValue | research/omnubus-reborn/freertos/event_groups.c:599-620 | the value handed out by deletion meets nobody's condition |
| EventGroupControl.EventGroupBlock.SetEventBits | research/omnubus-reborn/freertos/event_groups.c:505-591 | the loop over the waiting list, removing items as it goes, computes that set |
| EventGroupControl.EventGroupBlock.ResultOfSet | research/omnubus-reborn/freertos/event_groups.c:593-596 | the result of xEventGroupSetBits is what the bits are when the scheduler runs again: what a call that clears none would return then |
| EventGroupControl.EventGroupBlock.WaitBits | research/omnubus-reborn/freertos/event_groups.c:315-382 | the imperative xEventGroupWaitBits takes the step of the model, with its result |
| EventGroupControl.EventGroupBlock.Synchronise | research/omnubus-reborn/freertos/event_groups.c:192-238 | the same for xEventGroupSync |
| EventGroupControl.EventGroupBlock.ClearBits | research/omnubus-reborn/freertos/event_groups.c:447-471 | the same for xEventGroupClearBits |
| EventGroupControl.EventGroupBlock.DeleteGroup | research/omnubus-reborn/freertos/event_groups.c:599-618 | deletion wakes every waiting task with the value 0 and nobody else |
| Barrier.Complete | research/omnubus-reborn/freertos/event_groups.c:194-208 | the union of the masks present covers the rendezvous bits exactly when every task is present |
| Barrier.StepKept | research/omnubus-reborn/freertos/event_groups.c:177-294 | each call and each return keeps the count of complete rounds |
| Barrier.Rendezvous | research/omnubus-reborn/freertos/event_groups.c:177-294 | with n tasks on distinct bits, in every run: a call of round k has returned only if every task has made its k-th call, each returned call gave the union of all bits, and once all have made it nobody still waits in it |
| Timers.JudgeExact | research/omnubus-reborn/freertos/timers.c:648-686 | if a command is handled less than 2^32 ticks after the time it refers to, the insertion decides as unbounded time does: process now, this epoch's list, or the next one's |
| Timers.JudgeLate | research/omnubus-reborn/freertos/timers.c:655-682 | handled later, it is right exactly when the lateness that still shows is at least the period |
| Timers.Misjudged | research/omnubus-reborn/freertos/timers.c:655-682 | a command handled so late that it is not |
| TimersKept.StepKept | research/omnubus-reborn/freertos/timers.c:463-892 | every step of the daemon, and every tick and user command in between, keeps each running timer in the list of its due time, and each auto-reload timer in its phase from the last command on it that took effect, be it a start, a reset or a change of period |
| TimersRuns.NeverEarly | research/omnubus-reborn/freertos/timers.c:463-500 | at any time the callback of such a timer has run for no boundary that is still to come |
| TimersRuns.OnSchedule | research/omnubus-reborn/freertos/timers.c:503-596 | whenever the daemon has emptied its queue and blocks, every auto-reload timer that runs has had its callback exactly once for each of start + period, start + 2 * period and so on up to now, however late the daemon was, whatever wrapped, and whatever commands were sent before |
| TimersEffects.StepExact | research/omnubus-reborn/freertos/timers.c:463-892 | what every step of the daemon does to every timer, in unbounded time: whose callback runs, for when it is filed next or that it is in no list, one-shot timers included, and which commands the daemon sends itself |
| TimersOnce.CallsCounted | research/omnubus-reborn/freertos/timers.c:463-500 | the callbacks counted in the schedule are the callbacks the run makes |
| TimersOnce.OneShotOnce | research/omnubus-reborn/freertos/timers.c:463-500 | a one-shot timer that runs, and is sent no command, has its callback at most once, never early, and is then in no list; whenever the daemon rests, it has had it exactly if it was due by then |
| TimersQueue.BoundedKept | research/omnubus-reborn/freertos/timers.c:479-486 | with a command queue of any length, every step keeps the invariant behind these rows, except exactly one in which the daemon finds no room for a start it sends itself, no user command on that timer being under way |
| TimersQueue.BoundedRun | research/omnubus-reborn/freertos/timers.c:479-486 | a run keeps it in every state exactly if it has no such step |
| TimersQueue.BoundedSchedule | research/omnubus-reborn/freertos/timers.c:503-596 | and in every such run the callbacks are on schedule as above |
| TimersQueue.Lost | research/omnubus-reborn/freertos/timers.c:479-486 | after such a step the timer, which was running, is in no list, and its callback never runs again unless a user sends a command on it |
| TimersQueue.TimerLost | research/omnubus-reborn/freertos/timers.c:479-486 | a run from the start, with one place in the queue, that ends in such a step |
| TimersRuns.StartStays | research/omnubus-reborn/freertos/timers.c:463-500 | that start stays the same until a user sends a command on the timer |
| TimersRuns.SleepsToNext | research/omnubus-reborn/freertos/timers.c:560-575 | no timer is overdue then, one-shot timers included; the daemon blocks no longer than to the next due time, and exactly to it for the timer that heads the list |
| TimersRuns.SleepsToWrap | research/omnubus-reborn/freertos/timers.c:552-575 | with nothing in the current list it blocks exactly until the tick count wraps |
| TimersCommands.TakesEffect | research/omnubus-reborn/freertos/timers.c:748-830 | on an auto-reload timer, a start, reset, stop or change of period takes effect exactly if the daemon does not, between its sending and its handling, send itself a start of that timer; otherwise that start is what is handled next, and it refers to a boundary of the old phase |
| TimersCommands.OvertakesWhen | research/omnubus-reborn/freertos/timers.c:473-486 | it does so exactly if it finds the timer at least a full period late, or, while the lists are switched, the next boundary behind the wrap of the tick count |
| TimersCommands.StoppedInVain | research/omnubus-reborn/freertos/timers.c:748-784 | a stop that is overtaken in this way leaves the timer running in its old phase |
| TimersCommands.StoppedAndRunning | research/omnubus-reborn/freertos/timers.c:482-486 | a run from the creation of the timer in which a stop is sent and handled, no other command is sent, and the timer runs on, its callback having run twice since |
| TimersControl.TimerTask.InsertTimerInActiveList | research/omnubus-reborn/freertos/timers.c:648-686 | the imperative prvInsertTimerInActiveList makes that decision |
| TimersControl.TimerTask.ProcessExpiredTimer | research/omnubus-reborn/freertos/timers.c:463-500 | the same for prvProcessExpiredTimer |
| TimersControl.TimerTask.ReloadHead | research/omnubus-reborn/freertos/timers.c:847-882 | the same for one round of the loop of prvSwitchTimerLists |
| TimersControl.TimerTask.SwitchTimerLists | research/omnubus-reborn/freertos/timers.c:836-892 | that loop ends, amounts to some rounds followed by the exchange of the lists, and keeps the timers in phase |
| TimersControl.TimerTask.ProcessCommand | research/omnubus-reborn/freertos/timers.c:748-830 | the switch statement of prvProcessReceivedCommands takes the step of the model |
| StreamBuffer.LengthRoundTrip | research/omnubus-reborn/freertos/stream_buffer.c:659-667 | a 32-bit length read back from the four bytes written is that length |
| StreamBufferRuns.Counts | research/omnubus-reborn/freertos/stream_buffer.c:1118-1135 | bytes in the buffer and spaces available, computed from wrapped indices, are the bytes published and not taken, and the rest but one |
| StreamBufferRuns.StepKept | research/omnubus-reborn/freertos/stream_buffer.c:849-896 | with the writer and the reader copying byte by byte and moving their indices separately, every step keeps the ring consistent, except exactly a roll-back of xTail that takes space the writer counts on |
| StreamBufferRuns.RunKept | research/omnubus-reborn/freertos/stream_buffer.c:863-877 | a run keeps the ring consistent in every state exactly if it has no such roll-back |
| StreamBufferRuns.MessagesIntact | research/omnubus-reborn/freertos/stream_buffer.c:636-685 | in every interleaving without such a roll-back the messages received are a prefix of those sent, each whole and unchanged |
| StreamBufferRuns.NothingStuck | research/omnubus-reborn/freertos/stream_buffer.c:688-789 | and with both sides outside, a receive finds a message exactly when one was sent and not received |
| StreamBufferEffects.StepExact | research/omnubus-reborn/freertos/stream_buffer.c:636-896 | what every step does, told in whole messages: a send is accepted exactly if the unreceived messages with their lengths, and this one with its own, leave one byte of the ring free; a receive starts exactly if a message is unreceived, and gives up exactly one longer than its room; the message received is the next one |
| StreamBufferEffects.AllAccepted | research/omnubus-reborn/freertos/stream_buffer.c:636-685 | over a run the messages sent, and the one being written, are exactly those the sends accepted, in order |
| StreamBufferRuns.RoomSuffices | research/omnubus-reborn/freertos/stream_buffer.c:863-877 | there is no such roll-back if every receive has room for the longest message sent |
| StreamBufferRuns.OverrunLoses | research/omnubus-reborn/freertos/stream_buffer.c:863-877 | a roll-back that overruns the writer hides a whole ring of bytes |
| StreamBufferRuns.TwoMessagesLost | research/omnubus-reborn/freertos/stream_buffer.c:863-877 | a run from creation, byte by byte, that ends in such a roll-back, after which two messages have been sent, none received, and a receive finds nothing |
| StreamBufferWaits.StepKept | research/omnubus-reborn/freertos/stream_buffer.c:510-573 | of all steps of sender and receiver around their waits, and of notifications by others, exactly two break the invariant behind the next rows: a roll-back that overruns the sender, and lowering the trigger level to what the buffer holds under a sleeping receiver |
| StreamBufferWaits.RunKept | research/omnubus-reborn/freertos/stream_buffer.c:510-573 | a run keeps that invariant in every state exactly if it has neither |
| StreamBufferWaits.LeftAsleep | research/omnubus-reborn/freertos/stream_buffer.c:419-444 | a run of the second kind: three bytes there, the trigger level lowered to two, and the receiver asleep |
| StreamBufferWaits.NoLostWakeUp | research/omnubus-reborn/freertos/stream_buffer.c:713-757 | in every other run a receiver sleeps, with no sender at work, only on an empty buffer or below its trigger level, and a sender, with no receiver at work, only for want of space |
| StreamBufferWaits.OneOfEach | research/omnubus-reborn/freertos/stream_buffer.c:527-733 | the assertions that nobody else is waiting never fail |
| StreamBufferWaits.NeverBothAsleep | research/omnubus-reborn/freertos/stream_buffer.c:519-543 | both sides sleep, un-notified, only if what the sender needs does not fit beside the most bytes that can lie below the trigger level, which in a message buffer are none up to a level of five; so only if the two together exceed the length of the buffer |
| StreamBufferWaits.DeadlockReached | research/omnubus-reborn/freertos/stream_buffer.c:519-567 | and whenever it does not fit, in stream and message buffers of any trigger level, a run leads there: the sender waits for all the space it needs while the receiver waits for the trigger level |
| StreamBytes.MoveKept | research/omnubus-reborn/freertos/stream_buffer.c:1017-1115 | in a stream buffer, with both sides copying byte by byte and moving their indices separately, every step keeps the ring consistent |
| StreamBytes.BytesInOrder | research/omnubus-reborn/freertos/stream_buffer.c:636-685 | in every interleaving the bytes received are a prefix of the bytes sent |
| StreamBytes.NextBytes | research/omnubus-reborn/freertos/stream_buffer.c:849-896 | and with both sides outside, a receive sets out for as many of the bytes sent and not received as its room allows, a send for as many as there are places left |
| StreamBytes.AllDone | research/omnubus-reborn/freertos/stream_buffer.c:1017-1115 | over a run the bytes sent and in hand are exactly those the sends took on, as many as the ring had places for, and as many are received, or about to be, as the receives took on |
| StreamBufferCalls.SendOutcome | research/omnubus-reborn/freertos/stream_buffer.c:484-582 | a send with nobody in between: with room for all of it, it writes all; otherwise it leaves its handle and goes to wait if it may, and if not, drops a message whole and writes as much of a stream as there is room for |
| StreamBufferCalls.ReceiveOutcome | research/omnubus-reborn/freertos/stream_buffer.c:688-789 | a receive with nobody in between: it takes the next message, or leaves it if its room is too small, or takes the bytes of a stream up to its room; with nothing there it leaves its handle and goes to wait if it may |
| StreamBufferControl.StreamBufferBlock.BytesAvailable | research/omnubus-reborn/freertos/stream_buffer.c:1118-1135 | prvBytesInBuffer counts the bytes written and not read |
| StreamBufferControl.StreamBufferBlock.Spaces | research/omnubus-reborn/freertos/stream_buffer.c:448-469 | xStreamBufferSpacesAvailable counts the free bytes, one kept empty |
| StreamBufferControl.StreamBufferBlock.WriteBytesToBuffer | research/omnubus-reborn/freertos/stream_buffer.c:1017-1060 | the one or two copies of a write append the data to the stream the ring holds |
| StreamBufferControl.StreamBufferBlock.ReadBytesFromBuffer | research/omnubus-reborn/freertos/stream_buffer.c:1063-1115 | the one or two copies of a read deliver the next bytes of that stream |
| StreamBufferControl.StreamBufferBlock.WriteMessageToBuffer | research/omnubus-reborn/freertos/stream_buffer.c:636-685 | a message buffer takes the framed message whole or not at all; a stream buffer takes what fits |
| StreamBufferControl.StreamBufferBlock.ReadMessageFromBuffer | research/omnubus-reborn/freertos/stream_buffer.c:849-896 | a framed message is delivered whole, or left in place if the room is too small; a stream buffer delivers its next bytes, as far as they are there and there is room |
| Bmp280.Temperature | research/omnubus-reborn/drivers/src/bmp280.c:209-210 | of t_fine, 5 / 256 hundredths a unit, the result is the nearest hundredth |
| Bmp280.FirstTerm | research/omnubus-reborn/drivers/src/bmp280.c:190-195 | the first term of t_fine is the exact one to within what its two shifts can lose, on either side |
| Bmp280.SecondTerm | research/omnubus-reborn/drivers/src/bmp280.c:197-205 | the second term is above the exact one by less than 45 units and below it by less than 46 |
| Bmp280.TemperatureError | research/omnubus-reborn/drivers/src/bmp280.c:183-213 | for every 20-bit reading and calibration whose 32-bit intermediates do not overflow, the integer result differs from 100 times the exact rational value of the double formula (lines 1341-1362) by less than 1.7 |
| Bmp280.Device.CompensateTemperature | research/omnubus-reborn/drivers/src/bmp280.c:183-213 | the driver's sequence of assignments returns the nearest hundredth, meets that bound and leaves t_fine |

## Left out

- Assembly, stack frames, NVIC and SysTick registers, tickless sleep: a critical section is one step, PendSV a flag.
- Task notifications, except as the wake-up of `StreamBufferWaits`; queue sets, co-routines, the queue registry, MPU wrappers, run-time statistics, trace hooks, names and text output, thread-local storage and dynamic allocation; `xTaskAbortDelay` is compiled out.
- The timer task that vTaskStartScheduler also creates; xPortStartScheduler.
- Width of `uxPendedTicks`, `uxSchedulerSuspended`, `uxCurrentNumberOfTasks` and `uxMessagesWaiting`: they are unbounded here. `xNumOfOverflows` is unbounded in the scheduler and 32-bit in `TimeTests`.
- Kernel.Tasks.SuspendTask: its critical sections are one step, and the notification state it clears is not modelled; each critical section of prvUnlockQueue is one step too.
- SchedulerRuns.ExactWakeUp: blocking for 0 ticks is not covered; the source blocks only for at least one.
- SchedulerEffects.StepExact: xNextTaskUnblockTime, the bitmap and the order of the lists are not in its reference; the first is only known never to be later than the earliest wake time, the others are in `SchedulerRuns.StepKept`, `SchedulerTurns` and `SchedulerOrder`.
- SchedulerOrder: the order in which xTaskResumeAll readies pended tasks of one priority is not stated.
- SchedulerSlices.EachRunsOnce: nothing but ticks and the switches they ask for happens meanwhile; `SchedulerSlices.TurnComes` is about any run.
- Kernel.Tasks: its lists are values with pvContainer as a map; the linked form is in `KernelList`, and the two are not composed in one heap.
- Kernel.Tasks.CheckTasksWaitingTermination: it frees control blocks only in the model's sense, without their memory.
- QueueLock: item contents are in `QueueStorage`, and which waiting task is woken first is any order of the list; the time-outs a blocking call measures are in `TimeTests`.
- MutexRuns.Inheritance: no vTaskPrioritySet and no vTaskDelete or vTaskSuspend on the tasks involved; in `RecursiveMutex` a task that waits simply stays in the call.
- MutexSimulation.ProtocolOnScheduler: in its runs a task that blocks for another reason does so in a delay, and no task is created or deleted. The yield that ends a blocking call also stands for the one that xTaskResumeAll makes when a replayed tick asks for it, and no other interrupt than the tick falls inside a call.
- MutexSimulation.CallKept: the same; the critical sections of a blocking call between its suspension and its block are one scheduler step, the inheritance, and looking whether the mutex is available, after a time-out, is none.
- TimersRuns.OnSchedule: the command queue is as long as need be (one of limited length is in `TimersQueue`), the daemon samples the time at least once in 2^32 ticks, and handles each start command less than 2^32 ticks after the time it refers to.
- TimersControl: the outer loops of the daemon, which never end, are sequences of steps; callbacks that send commands are user steps.
- EventGroupRuns.NeverStranded: deletion of a group is not a step of the runs; its effect is `EventGroupControl.EventGroupBlock.DeleteGroup`.
- Barrier.Rendezvous: calls wait without a time-out, and nobody else uses the group.
- StreamBufferRuns.MessagesIntact: only little-endian byte order, and no `size_t` overflow of lengths near 2^32.
- StreamBufferWaits: it counts bytes and leaves their contents to `StreamBufferRuns`; its calls are sequences of steps, not methods; `xStreamBufferReset` is not a step.
- RecursiveMutex: the two calls are sequences of steps, not methods.
- SystemState.ReportExact: all walks are one step, so an interrupt that wakes a task between two of them, and so changes what is reported of it, is not modelled; stack use, names and run time are not in the report.
- Kernel.Tasks.GetSystemState: the same; and vTaskGetInfo is modelled for a task found in a list only.
- Bmp280.TemperatureError: readings and calibrations whose 32-bit intermediates overflow are outside it, since C leaves their result undefined; pressure compensation is not modelled.
- Everything outside the kernel and this one function: drivers, board code, audio, plotting and scripts.
