# The kernel of the clock, verified

The clock firmware runs on a FreeRTOS kernel that it vendors under `freertos/`. This project models
that kernel in Dafny, in the configuration the firmware builds: one core, preemption and time
slicing, selection by a priority bitmap, 32-bit ticks that wrap, mutexes, timers, event groups and
notifications on, queue sets off (`config/FreeRTOSConfig.h`).

Every layer comes in two parts. The code that works in place (linked list nodes, the byte buffer of
a queue, the TCB fields, the tick count and its two delayed lists, the timer daemon's variables, the
bits of an event group) is a class whose methods follow the C functions branch by branch and are
proved to take one abstract value to the next. What the kernel promises is then proved about those
values: for every input, every step and every run, and in terms of what the callers asked for. A critical section, or a stretch with the
scheduler suspended that no interrupt can disturb, is one atomic step; where interrupts can come in
between, as between `prvLockQueue` and `prvUnlockQueue` or while a task marks itself as waiting for
a notification, each piece is a step of its own and all interleavings are covered. Time is an
unbounded clock of which `xTickCount` is the low 32 bits, so wrap-around is part of every statement.

| file | what it models |
|---|---|
| `Sequences.dfy`, `Ticks.dfy` | shared notions: list contents, wrapping ticks |
| `Rings.dfy`, `IntrusiveList.dfy` | `list.c`: the ring with its rotating `pxIndex`, as a value and on the heap |
| `Deadlines.dfy` | `xTaskCheckForTimeOut`, `xTaskDelayUntil` |
| `QueueStorage.dfy`, `QueueCore.dfy`, `QueueProtocol.dfy`, `QueueCalls.dfy` | `queue.c`: bytes, critical sections, the blocking protocol, how calls run and end |
| `Priorities.dfy`, `Mutexes.dfy`, `Inversion.dfy`, `MutexCalls.dfy` | priority inheritance: one TCB, many mutexes, bounded inversion, how calls end and whom they charge |
| `Timers.dfy`, `TimerRuns.dfy`, `TimerCommands.dfy`, `TimerService.dfy` | `timers.c`: due instants, whole runs, what timers are told, the daemon's code |
| `ReadyBitmap.dfy`, `TaskLists.dfy`, `Scheduler.dfy`, `TickCounting.dfy` | the lists of `tasks.c`, blocking, waking, ticks |
| `SchedulerRuns.dfy`, `SchedulerTheorems.dfy`, `SchedulerFates.dfy`, `KernelTasks.dfy` | all operations and their runs, what becomes of each task; the code of the scheduler |
| `Notifications.dfy` | task notifications as counting semaphores |
| `EventGroups.dfy`, `EventGroupCalls.dfy`, `EventGroupLists.dfy`, `Barrier.dfy` | `event_groups.c`: runs, what each call does, the walk over the list, the reusable barrier |

`dafny verify dfyconfig.toml` checks everything.

## Model

| member | source | states |
|---|---|---|
| `IntrusiveList.List.InsertEnd` | freertos/list.c:105-135 | on the linked nodes: the well-formed ring afterwards is the old one with the item spliced in just before pxIndex, for every ring and every position of pxIndex |
| `IntrusiveList.List.Insert` | freertos/list.c:139-213 | on the linked nodes, sorted or not, value portMAX_DELAY included: the search ends, and the item stands behind the run of values not above its own that the search passes, with pxIndex on the same item |
| `IntrusiveList.Remove` | freertos/list.c:217-247 | the item leaves the ring its container names, the others keep their order, pxIndex steps back if it stood on the item, container and count agree |
| `IntrusiveList.List.Next` | freertos/include/list.h:286-297 | returns the item the rotation selects and advances pxIndex past the end marker |
| `IntrusiveList.SpotIsFirstAbove` | freertos/list.c:168-199 | where the search of vListInsert stops is the first position whose value is above the new one |
| `Rings.SortedInsertion` | freertos/list.c:152-199 | in an ascending list the new value lands behind every equal or smaller one and the list stays ascending |
| `Rings.RemoveUndoesInsert` | freertos/list.c:217-247 | removing what was just inserted restores the items and pxIndex |
| `Rings.StepTurn` | freertos/list.c:217-247 | exactly how one selection, removal (also of the pxIndex item) or insertion changes the turn of every other item |
| `Rings.NoOvertaking` | freertos/include/list.h:286-297 | an item whose turn is earlier is selected first, whatever is selected, removed or appended meanwhile |
| `Rings.RoundRobin` | freertos/include/list.h:286-297 | between two selections of an item every other item that stays is selected |
| `Rings.SelectedWithin` | freertos/include/list.h:286-297 | an item that stays is selected within its turn plus one selection for each insertion made meanwhile |
| `Rings.InsertEndIsLastIff` | freertos/list.c:119-124 | the new item is selected after all others exactly when pxIndex is on the end marker |
| `Deadlines.TimeOut.CheckForTimeOut` | freertos/tasks.c:5598-5664 | the method on the two fields of a TimeOut_t does what the specification function says: verdict, remaining time, new entry time, and no change on expiry |
| `Deadlines.NeverEarlyOverLooks` | freertos/tasks.c:5608-5658 | for any start, wait and any non-decreasing looks at the clock, however far apart, the first look that reports expiry is at or after start + wait |
| `Deadlines.ExactUnlessFooled` | freertos/tasks.c:5636-5657 | expired iff now >= start + wait, and otherwise the same deadline is kept, if and only if the overflow test is not fooled: a whole wrap or more since the last look that the two counters do not show |
| `Deadlines.FooledExample` | freertos/tasks.c:5636-5657 | an input at which it is fooled: 20 ticks from 5 before a wrap, looked at 3 after the next wrap, are said to have 12 left |
| `Deadlines.OneWrapIsSafe` | freertos/tasks.c:5636-5657 | looks in the same or in successive epochs never fool it |
| `Deadlines.DeadlineConserved` | freertos/tasks.c:5598-5664 | with such looks a blocked call expires at precisely its first look at or after start + wait, over any number of wake-ups |
| `Deadlines.MaxDelayNeverExpires` | freertos/tasks.c:5625-5632 | a wait of portMAX_DELAY is never reported as expired |
| `Deadlines.TaskDelayUntil` | freertos/tasks.c:2377-2447 | the method agrees with the specification function for every previous wake time, increment and tick count |
| `Deadlines.DelayUntilExact` | freertos/tasks.c:2398-2432 | called within one wrap of the previous wake time it delays iff the next wake time is ahead, until exactly then |
| `Deadlines.NoDrift` | freertos/tasks.c:2377-2447 | over any number of calls the k-th aims at start + k * increment, whatever delays earlier calls met |
| `QueueStorage.Storage.constructor` | freertos/queue.c:303-325 | a new queue is empty and its pointers are in place, for every length >= 1 and every item size |
| `QueueStorage.Storage.CopyToQueue` | freertos/queue.c:2393-2474 | byte level: the queue afterwards is the old one with the item appended, prepended or in place of the only one; it is well formed unless (and only unless) a semaphore is overwritten while its token is there |
| `QueueStorage.Storage.CopyFromQueue` | freertos/queue.c:2476-2494 | copies out the head item and moves the read pointer to its slot, at a whole item inside the storage |
| `QueueStorage.Storage.Receive` | freertos/queue.c:1541-1555 | takes the head: item + rest is what was queued |
| `QueueStorage.Storage.Peek` | freertos/queue.c:1914-1925 | returns the head and puts the read pointer back |
| `QueueStorage.BehindIsModulo` | freertos/queue.c:2393-2494 | the slot behind the queued items, where pcWriteTo stands, is (read slot + 1 + count) mod length |
| `QueueStorage.CutFilled` | freertos/queue.c:2421-2443 | writing one item-sized stretch of the buffer changes that slot and no other |
| `QueueCore.QueueObject.TrySend` | freertos/queue.c:977-1074 | first critical section of a send: what is queued and who is woken |
| `QueueCore.QueueObject.TryReceive` | freertos/queue.c:1541-1572 | first critical section of a receive: the head item and who is woken |
| `QueueCore.QueueObject.TryPeek` | freertos/queue.c:1914-1950 | first critical section of a peek: nothing is removed, and the wake-up is passed on to the next receiver |
| `QueueCore.QueueObject.SendFromISR` | freertos/queue.c:1207-1320 | from an interrupt: the item is queued, and a locked queue counts instead of waking |
| `QueueCore.QueueObject.ReceiveFromISR` | freertos/queue.c:2076-2121 | the mirror image for a receive |
| `QueueCore.QueueObject.LockQueue` | freertos/queue.c:258-270 | prvLockQueue sets both counts to unmodified unless they are set already |
| `QueueCore.QueueObject.UnlockTransmit` | freertos/queue.c:2505-2583 | the loop wakes one receiver for each counted send, or all there are, and unlocks |
| `QueueCore.QueueObject.UnlockReceive` | freertos/queue.c:2586-2613 | the loop wakes one sender for each counted receive, or all there are, and unlocks |
| `QueueProtocol.StepKeepsInv` | freertos/queue.c:1043-1150 | every step of every task and interrupt keeps the invariant that each item and each free slot is promised to a woken task or to a lock count |
| `QueueProtocol.NoLostWakeUp` | freertos/queue.c:1117-1150 | in every interleaving of any number of tasks (at most 127) and interrupts: while a receiver waits, the items are at most the woken receivers that have not retried plus the lock count, unless the count covers all waiters; the mirror for senders; so an unlocked queue with nobody on the way never has both an item and a waiting receiver nor a free slot and a waiting sender |
| `QueueProtocol.LockCountsFit` | freertos/queue.c:273-300 | the lock counts stay within int8_t and only the task that suspended the scheduler holds the lock |
| `QueueProtocol.Conservation` | freertos/queue.c:1043-1056 | over whole runs with sends to the back: what was taken followed by what is queued is what was there followed by what was sent, in order |
| `QueueCalls.CallsAreKept` | freertos/queue.c:1509-1655 | in every run a task is inside the very call it made last, and is past its deadline only after a look at the clock that said so |
| `QueueCalls.ItemsMoveAsAsked` | freertos/queue.c:2393-2494 | every step of every run moves the items its caller asked for: a receive takes the first, a peek none, a send puts its own last, first or alone, and no other step touches them |
| `QueueCalls.AttemptEndsIff` | freertos/queue.c:1541-1585 | an attempt ends the call iff the queue has something for it or it is not to block |
| `QueueCalls.EndsRight` | freertos/queue.c:1535-1655 | in every run a call ends by an attempt the queue has something for; or by one that is not to block, with nothing there; or after a look past its deadline, a reader then with the queue empty |
| `QueueCalls.AfterExpiredLook` | freertos/queue.c:1636-1654 | after a look past the deadline the task releases the lock, resumes the scheduler, a reader looks once more, and with the queue still empty its call is over, without another attempt |
| `QueueCalls.AfterLuckyLastLook` | freertos/queue.c:1650-1654 | if that last look finds an item, another attempt comes before the call can end |
| `QueueCalls.AfterLookInTime` | freertos/queue.c:1605-1635 | after a look in time the task joins the event list before releasing the lock iff the queue has nothing for it, and goes on to another attempt |
| `QueueCalls.CanGoOn` | freertos/queue.c:1535-1655 | a task inside a call can take its next step unless it is blocked or another task has the scheduler suspended |
| `QueueCalls.JoinedWaits` | freertos/tasks.c:5307-5334 | a task that has joined an event list waits there until it is woken or its block time is over |
| `QueueCalls.TimedOutLeaves` | freertos/tasks.c:4818-4833 | once its block time is over a task is on no event list until it joins one again |
| `QueueCalls.WokenInOrder` | freertos/tasks.c:5405-5456 | of two waiting tasks that neither time out nor are back, the one woken first is the one that was ahead on the list |
| `QueueCalls.WakeUpsAreEarned` | freertos/queue.c:2497-2614 | in every run no more readers are woken than items have been sent or peeked at, and no more senders than items taken, each counted once, at once or through the lock count |
| `Priorities.TaskControlBlock.PriorityInherit` | freertos/tasks.c:6650-6746 | the method agrees with the specification of what becomes of the holder and what is returned |
| `Priorities.TaskControlBlock.PriorityDisinherit` | freertos/tasks.c:6753-6840 | likewise for giving a mutex back |
| `Priorities.TaskControlBlock.PriorityDisinheritAfterTimeout` | freertos/tasks.c:6847-6960 | likewise for a timed-out waiter |
| `Priorities.TaskControlBlock.PrioritySet` | freertos/tasks.c:2807-2942 | likewise for the priorities and the event item value in vTaskPrioritySet |
| `Priorities.PrioritiesStaySound` | freertos/tasks.c:6650-6960 | each of them keeps priority >= base and priority == base without mutexes, and disinheriting asks for a yield iff it lowers the priority |
| `Priorities.TimeoutLeavesExactly` | freertos/tasks.c:6866-6943 | with one mutex held a timeout leaves exactly max(base, highest waiter) |
| `Mutexes.MutexAccounting` | freertos/queue.c:1696-1717 | in every run, any number of mutexes, tasks and priority changes: a mutex is free iff its holder is NULL iff its count is 1, uxMutexesHeld is the number of mutexes naming the task, priority >= base, equality without mutexes; so the uxMutexesHeld assertions hold when only holders give |
| `Inversion.StepKeeps` | freertos/queue.c:1785-1868 | every step of any number of tasks on one mutex keeps the inversion invariant |
| `Inversion.BoundedInversion` | freertos/queue.c:1785-1868 | in every reachable state the holder runs at least at the priority of every waiter, above its base only as far as a caller still in its call made it, and at exactly max(base, highest waiter) once all those callers wait |
| `Inversion.TimeoutExact` | freertos/queue.c:1836-1868 | after a timed-out caller has taken its priority back the holder has exactly max(base, highest remaining waiter) |
| `Inversion.GiveRunsHighestIff` | freertos/queue.c:1042-1068 | a give leaves the most urgent ready task running, or a yield on its way, if and only if the yield asked for by disinheriting is not dropped in favour of the test on the woken waiter |
| `Inversion.YieldDroppedExample` | freertos/queue.c:1042-1068 | a run from the initial state to a give after which a ready task outranks the running one and no yield is on its way |
| `MutexCalls.CallsEndRight` | freertos/queue.c:1692-1880 | in every run, any number of mutexes: a call ends with the mutex if that is free, without it only after its deadline, and after taking back what it lent when it blocked; a first attempt gets a free mutex and otherwise goes on or fails as asked; a give frees its mutex; no other holder changes |
| `MutexCalls.LooksBlockIff` | freertos/queue.c:1775-1827 | a look at the clock in time blocks the task, off the ready list and on that of the mutex, iff the mutex is held; a look past the deadline never does |
| `MutexCalls.ExpiredEnds` | freertos/queue.c:1826-1880 | after a look past the deadline, while the mutex stays held, one last look and giving back what was inherited end the call, without another attempt |
| `MutexCalls.PrioritiesExact` | freertos/tasks.c:6650-6960 | in every run without vTaskPrioritySet the new priority of every task after every step, from who holds how many mutexes: blocking raises the holder to the priority of the caller, giving the last mutex back returns to base, giving up leaves a holder of just that mutex at max(base, next in line), nothing else changes any |
| `MutexCalls.GiveUpSpares` | freertos/tasks.c:6876-6950 | a caller that gives up leaves the whole TCB of every task alone that does not hold exactly one mutex, counted from the holders, or does not hold the one given up on; in every run, priorities set at any time |
| `MutexCalls.SetPriorityExact` | freertos/tasks.c:2851-2942 | vTaskPrioritySet in every run: the base is the one set, the priority in use follows unless more is inherited, and nobody else changes |
| `MutexCalls.LendsWhileWaiting` | freertos/queue.c:1785-1868 | from the moment a task that holds nothing blocks, the holder runs at least at its priority, whatever other mutexes are taken, given and given up on, until the mutex is given, the wait times out or another waiter for it gives up |
| `MutexCalls.GiveUpLendsIff` | freertos/queue.c:2368-2388 | when another waiter gives up that goes on iff the holder holds another mutex too, or its base priority or that of the next in line is high enough |
| `MutexCalls.StaleHeadExample` | freertos/queue.c:2368-2388 | an input at which it does not: the priority of the next in line has gone back since it joined the list |
| `MutexCalls.JoinsLikeListInsert` | freertos/list.c:139-213 | a waiting task joins the event list where vListInsert puts it: behind all that are at least as urgent |
| `Timers.ClassifyExact` | freertos/timers.c:890-931 | for command time C <= now N < C + 2^32 and any period: processed at once iff C + period <= N, else into the current list iff the expiry is in the epoch of N, else into the overflow list |
| `Timers.ChangePeriodInserts` | freertos/timers.c:1034-1047 | the ignored result of changing a period is always "inserted" |
| `Timers.BacklogIsFloor` | freertos/timers.c:695-711 | the reload makes floor((now - expired) / period) callbacks |
| `Timers.BacklogExact` | freertos/timers.c:695-711 | and it ends with the last due instant up to now, the next one being after now |
| `TimerService.TimerTask.InsertTimerInActiveList` | freertos/timers.c:890-931 | the method on tick counts inserts into the right list or reports that the timer is due, as unbounded time says |
| `TimerService.TimerTask.ReloadTimer` | freertos/timers.c:695-711 | the loop makes the whole backlog of callbacks and re-arms at the first instant after now |
| `TimerService.TimerTask.ProcessExpiredTimer` | freertos/timers.c:714-741 | the head is taken off, called back for every instant due, and reloaded or made inactive |
| `TimerService.TimerTask.SwitchTimerLists` | freertos/timers.c:1089-1111 | the loop ends, empties the current list, serves all its instants, and swaps the lists |
| `TimerService.TimerTask.SampleTimeNow` | freertos/timers.c:867-887 | the lists are switched iff the clock has entered the next epoch |
| `TimerService.TimerTask.ProcessCommand` | freertos/timers.c:934-1086 | one message: off the lists, sample, then the branch of the command, exactly as the model on unbounded time |
| `TimerService.TimerTask.ProcessTimerOrBlock` | freertos/timers.c:778-837 | one pass: switch, process the head, or block, with the wait it blocks for; the invariant is kept |
| `TimerRuns.StepSafe` | freertos/timers.c:714-1111 | every pass, command, creation and change of mode keeps the daemon invariant |
| `TimerRuns.SampleKeeps` | freertos/timers.c:867-887 | over a sample, switched or not, every timer keeps its absolute expiry |
| `TimerRuns.AnyRun` | freertos/timers.c:714-741 | in every run that samples at least once per wrap: the callbacks of the current schedule are for exactly its first instants in order, none early; ACTIVE iff listed, on one list only, the one for the epoch of its next expiry |
| `TimerRuns.BootSafe` | freertos/timers.c:1114-1130 | the freshly initialised daemon satisfies the invariant AnyRun starts from |
| `TimerRuns.BlockedMeansServed` | freertos/timers.c:778-837 | when the daemon blocks every active timer has had one callback for each instant up to now, and is next due later |
| `TimerRuns.BlockedInTime` | freertos/timers.c:802-829 | how long it blocks: for ever iff no timer is active, never past the next due instant, and until the wrap if that is in the next epoch |
| `TimerRuns.InactiveStaysQuiet` | freertos/timers.c:934-1086 | an inactive timer gets no callback and no list until a command for it |
| `TimerCommands.TimersFollow` | freertos/timers.c:934-1086 | in every run every timer follows what it was told: it exists from creation to deletion with its period and mode, is inactive once stopped, counts from the start it was told, and with its mode unchanged since is active all the time if auto-reload, and until its one callback if one-shot |
| `TimerCommands.GetsToBlock` | freertos/timers.c:778-837 | at any clock value, whatever is due, finitely many passes bring the daemon to block |
| `TimerCommands.JoinsLikeListInsert` | freertos/list.c:139-213 | a timer joins a list where vListInsert puts it: behind all that expire no later |
| `ReadyBitmap.HighestIsTop` | freertos/portable/GCC/ARM_CM3/portmacro.h:163-168 | counting leading zeros finds the highest set bit |
| `TaskLists.MovedKeeps` | freertos/tasks.c:231-291 | moving a state list item to any list, for a ready list that of its priority, keeps the partition, the bitmap and the total |
| `TaskLists.SelectsHighest` | freertos/tasks.c:236-244 | the selected list is not empty and no ready task has a higher priority |
| `Scheduler.OverflowExact` | freertos/tasks.c:8634-8659 | the wrapped comparison chooses the overflow list exactly when the wake time is in the next epoch |
| `Scheduler.BlockedKeeps` | freertos/tasks.c:8590-8665 | blocking with a timeout, or for ever, keeps the scheduler invariant |
| `TickCounting.SwapFindsEmpty` | freertos/tasks.c:265-277 | the list-empty assertion at the swap cannot fail |
| `TickCounting.DueReadiedExact` | freertos/tasks.c:4767-4867 | the loop of the tick readies exactly the tasks that are due, each on the ready list of its priority |
| `TickCounting.TickedExact` | freertos/tasks.c:4736-4867 | counting the tick at T + 1 readies exactly the tasks due at T + 1, from whichever list, and moves no other |
| `SchedulerRuns.TickCameKeeps` | freertos/tasks.c:4736-4983 | a tick is counted at once or pended; the invariant is kept and the ticks delivered grow by one |
| `SchedulerRuns.ResumedAllKeeps` | freertos/tasks.c:4022-4168 | the outermost resume readies exactly the tasks held pending and those due by the ticks that came meanwhile, and the clock has caught up |
| `SchedulerRuns.StepKeeps` | freertos/tasks.c:2052-5495 | every create, delay, block, tick, wake, suspend, resume, priority change, delete and clean-up keeps the invariant |
| `SchedulerTheorems.BootHolds` | freertos/tasks.c:2052-2114 | the state with only the idle task satisfies the invariant |
| `SchedulerTheorems.AlwaysPartitioned` | freertos/tasks.c:2052-2114 | in every run each live task is on exactly one list, if ready on that of its priority, the lengths add up to uxCurrentNumberOfTasks, and bit p is set iff ready list p is not empty |
| `SchedulerTheorems.AlwaysOnTime` | freertos/tasks.c:4109-4130 | in every run ticks delivered are ticks counted plus ticks pended, current-list items wake later in this epoch, overflow items in the next, xNextTaskUnblockTime is not above the head |
| `SchedulerTheorems.AlwaysEmptyAtSwap` | freertos/tasks.c:265-277 | in every run the current delayed list is empty when the count wraps |
| `SchedulerTheorems.AlwaysSelectsHighest` | freertos/tasks.c:236-244 | in every run the selection finds a task of the highest ready priority, never an empty list |
| `SchedulerTheorems.WakesExactlyOnTime` | freertos/tasks.c:4736-4867 | in every run a sleeping task that others leave alone is asleep at every clock value before its wake time and ready as soon as the clock reaches it, ticks pended or not |
| `SchedulerTheorems.SwapSafeIff` | freertos/tasks.c:265-277 | a task that blocks in the last tick before the wrap leaves the list empty as the assertion at the swap demands if and only if it waits at least one tick |
| `SchedulerFates.FatesFollow` | freertos/tasks.c:2052-5495 | in every run every task is where the operations have put it: asleep until the clock reaches its time or it is woken, stopped until woken or resumed, held pending exactly while the scheduler is suspended, ended or gone once deleted; and no operation moves anybody else |
| `SchedulerFates.OperationsAccount` | freertos/tasks.c:2052-5495 | in every run each operation changes the nesting depth, the running task and the TCBs only as asked, and a switch runs the task whose turn it is among the ready ones of the highest priority, which then comes last |
| `SchedulerFates.RisesLast` | freertos/tasks.c:280-291 | a task made ready gets its turn after all others of its priority but the one selected most recently |
| `SchedulerFates.NewComesLast` | freertos/tasks.c:2052-2114 | so does a new task |
| `SchedulerFates.ChangedComesLast` | freertos/tasks.c:2945-2975 | and a ready task whose priority, or by vTaskPrioritySet whose base priority, has been changed |
| `SchedulerFates.OtherwiseStays` | freertos/tasks.c:2945-2975 | no other change of a TCB moves its task |
| `KernelTasks.Tasks.IncrementTick` | freertos/tasks.c:4736-4983 | the method on tick counts takes the kernel to the state the model gives for a tick |
| `KernelTasks.Tasks.ResumeAll` | freertos/tasks.c:4022-4168 | the method with its two loops takes the kernel to the state the model gives for a resume |
| `KernelTasks.Tasks.AddCurrentTaskToDelayedList` | freertos/tasks.c:8590-8706 | the method takes the kernel to the state in which the task wakes at clock + wait |
| `KernelTasks.Tasks.SwitchContext` | freertos/tasks.c:5124-5178 | selects by bitmap and rotates that ready list, or nothing while suspended |
| `KernelTasks.Tasks.SelectByScanning` | freertos/tasks.c:193-210 | scanning down, as the generic selection does, finds the same priority as the bitmap |
| `KernelTasks.Tasks.RemoveFromEventList` | freertos/tasks.c:5405-5456 | the waiter is made ready, or held pending while the scheduler is suspended |
| `KernelTasks.Tasks.SuspendTask` | freertos/tasks.c:3160-3196 | the task leaves whatever lists it is on for the suspended list, and the bitmap is right |
| `Notifications.StepKeeps` | freertos/tasks.c:7702-7797 | every step of the taking task, other tasks and interrupts keeps the notification invariant, also between marking and joining the delayed list |
| `Notifications.NoLostNotification` | freertos/tasks.c:7702-7797 | in every interleaving a blocked task not on xPendingReadyList is WAITING with count 0; with the scheduler running nobody is on that list; its event item is linked at most once; gives == taken + count + 2^32 per give at a full count |
| `Notifications.ConservedIff` | freertos/tasks.c:8257-8263 | gives equal takes plus count if and only if no give found the count at its maximum |
| `Notifications.ZeroMeansTimeout` | freertos/tasks.c:7769-7796 | a call that may block returns 0 only after its block time ran out, while the count has not wrapped |
| `Notifications.TakesAsAsked` | freertos/tasks.c:7702-7797 | in every run a take that finds count v leaves 0 if asked to clear the count or v is 0, else v - 1, and has taken the difference; one asked not to wait is never blocked; one that timed out is not blocked any more; one asked to wait that finds 0 has timed out, while the count has not wrapped |
| `Notifications.SentIsRemovedAndLeft` | freertos/tasks.c:8257-8263 | the gives of a run are what its takes remove, what is left, and 2^32 for every give at a full count |
| `Notifications.NotifiedTask.MarkWaiting` | freertos/tasks.c:7719-7741 | the critical section looks again and marks the task as waiting iff the count is still 0 |
| `Notifications.NotifiedTask.FinishTake` | freertos/tasks.c:7769-7792 | the last critical section returns the count and removes one or all of it |
| `Notifications.NotifiedTask.NotifyGive` | freertos/tasks.c:7934-8032 | a give from a task counts and unblocks a waiting task |
| `Notifications.NotifiedTask.NotifyGiveFromISR` | freertos/tasks.c:8256-8300 | a give from an interrupt counts and unblocks, or holds the task pending while the scheduler is suspended |
| `EventGroupLists.EventGroup.SetBits` | freertos/event_groups.c:547-647 | the walk over the linked list, with items unlinked under way, ends and gives exactly the group the specification gives |
| `EventGroupLists.EventGroup.WaitBits` | freertos/event_groups.c:336-404 | up to blocking: bits, list and returned value as specified |
| `EventGroupLists.EventGroup.Sync` | freertos/event_groups.c:205-247 | up to blocking: the set, then return and clear, block, or time out, as specified |
| `EventGroupLists.EventGroup.Finish` | freertos/event_groups.c:406-459 | after unblocking: the told bits, or a last look at the group, and the clear on exit |
| `EventGroupLists.EventGroup.ClearBits` | freertos/event_groups.c:472-500 | the bits are cleared and the value before is returned |
| `EventGroupLists.TestWaitCondition` | freertos/event_groups.c:778-812 | true iff any, or all, of the bits waited for are set |
| `EventGroups.CodedMatches` | freertos/event_groups.c:580-615 | what a waiter puts into its item value with the control bits is read back exactly as its wait condition and clear-on-exit request |
| `EventGroups.SetBitsExact` | freertos/event_groups.c:547-647 | wakes exactly the waiters whose condition the old bits with the new ones meets, in whatever order they wait, tells them all that value, clears exactly the union of the masks of those that clear on exit, and leaves nobody whose condition the remaining bits meet |
| `EventGroups.StepKeeps` | freertos/event_groups.c:205-647 | every wait, sync, set, clear, timeout and return keeps the invariant |
| `EventGroups.NobodyMetWaits` | freertos/event_groups.c:336-404 | in every run no waiting task has its condition met by the bits |
| `EventGroups.OutcomesSound` | freertos/event_groups.c:261-299 | in every run a call that did not time out returns bits that met its condition, and no control bits |
| `EventGroups.WokenReturns` | freertos/event_groups.c:609-627 | a woken task returns exactly the bits that woke it, whatever is set or cleared before it runs |
| `EventGroupCalls.CallsDoAsAsked` | freertos/event_groups.c:336-468 | in every run, from what the caller asked for: a wait that returns, at once or timed out, clears its bits iff it was to and the returned bits meet its condition, a woken one clears none, a clear just its own; a call ends iff its condition is met or it would not wait, timed out iff its time ran out first; one that does not end joins the list |
| `EventGroupCalls.SetsDoAsAsked` | freertos/event_groups.c:547-647 | in every run a set, also in a rendezvous, wakes exactly the tasks whose own calls asked for what the old and new bits meet, and clears exactly what those of them asked to clear, and the rendezvous bits if it completes one |
| `Barrier.BarrierHolds` | freertos/event_groups.c:205-247 | any number of tasks and rounds of xEventGroupSync: no call returns before every task has made its call of that round, a round is over exactly when the last task arrives, and a bit of a task that has not arrived again is set only if another one that shares it has |
| `Barrier.ReturnsWholeMask` | freertos/event_groups.c:261-299 | every call of the barrier returns the whole mask and none times out |
| `Barrier.BarrierIff` | freertos/event_groups.c:205-247 | no call ever returns before every task has made its call, on all runs, if and only if every task sets a bit that no other task sets |
| `Barrier.DisjointSuffices` | freertos/event_groups.c:205-247 | disjoint non-empty own bits within the mask meet that condition |

## Findings

Six promises do not hold as they stand. For each the condition under which it holds is proved, and
that it is exact.

- `list.h` promises that the item `vListInsertEnd` inserts is the last to be returned. It is the last but one
  whenever `pxIndex` stands on an item (`Rings.InsertEndIsLastIff`).
- `prvCopyDataToQueue` overwriting a full queue whose items have size 0 counts one item too many
  (`freertos/queue.c:2404-2420` does not look at the position). The storage stays well formed if and
  only if that is not the case (`QueueStorage.Storage.CopyToQueue`, `Overfills`).
- After `xQueueGenericSend` has given a mutex back the running task need not be the most urgent one: the yield that
  disinheriting asks for is dropped when a waiter is woken too. It is, or a yield is on its way, if
  and only if that does not happen (`Inversion.GiveRunsHighestIff`); `Inversion.YieldDroppedExample` gives a run.
- `xTaskCheckForTimeOut` can take an overdue deadline for a fresh one when the clock has gone all the
  way round since the last look. It is right if and only if the counters show it
  (`Deadlines.ExactUnlessFooled`, `FooledExample`); it is never early (`Deadlines.NeverEarlyOverLooks`).
- The assertion in `taskSWITCH_DELAYED_LISTS` that the current list is empty fails after a wait of 0
  ticks in the last tick before a wrap. It holds if and only if the wait is at least one tick
  (`SchedulerTheorems.SwapSafeIff`).

- A task that holds a mutex runs at least at the priority of everyone it keeps waiting only until another
  waiter for the same mutex gives up: the holder is then left at the priority of the next in line, which
  need not be the greatest, for a list is not sorted again when the priority of a task on it goes back. It holds
  if and only if the condition of `MutexCalls.GiveUpLendsIff` does; `StaleHeadExample` gives an input.

The barrier is stated more generally than `event_groups.h` describes it: the own bits need not be
disjoint, each task only has to set one that no other task sets, and that is necessary (`Barrier.BarrierIff`).

## Left out

- xYieldPendings and the decision to yield: only the mutex model says when a yield is on its way; the scheduler model lets a switch happen at any time.
- The contents of event lists in the scheduler model: it knows that a task is on the list of some object, not where; the order is in the queue, mutex and event group models.
- Inversion.BoundedInversion: runs without vTaskPrioritySet, suspension and deletion of contenders, and without a holder taking its mutex again; `Mutexes.MutexAccounting` allows priority changes.
- QueueProtocol.NoLostWakeUp: no reset, deletion or task suspension while the queue is in use; xQueueGenericReset of a live queue wakes only one sender.
- QueueCalls.EndsRight: xTaskCheckForTimeOut sets the remaining block time to 0 when it expires, so an attempt after a lucky last look never blocks; here it may, which only allows more runs.
- QueueProtocol.Conservation: sends to the back; sends to the front and overwriting are covered per call by `QueueStorage.Storage.CopyToQueue`.
- Waits of zero ticks by the timer daemon and by tasks that reach prvAddCurrentTaskToDelayedList with 0 ticks, except for `SchedulerTheorems.SwapSafeIff`.
- xPendedTicks wrapping at 2^32 and uxNumberOfItems overflowing: both are unbounded numbers here; the lock counts, tick counts and notification counts are not.
- The loop of prvProcessReceivedCommands around the command queue, and pended function calls: one message at a time is modelled, in any order and number.
- xTaskNotifyWait and notification values used as bits; several notification indices of one task, which do not touch each other.
- vEventGroupDelete, and event group calls from interrupts, which go through the timer daemon.
- Barrier: calls with a time limit; a task that times out leaves its bits set.
- xTaskGenericNotify on a task that is being suspended, vTaskSuspend of a task waiting for a notification.
- SMP, queue sets, co-routines, recursive mutexes, tickless idle, MPU wrappers and xTaskAbortDelay, which the configuration compiles out.
- Heap allocation, stacks, names, statistics, trace macros, interrupt masking and context switch assembly.
- The clock's own code under `src/` and `network/` and the speech bridge in `scripts/`: straight-line I/O that would only add easy members.
