# The scheduler over a shared ring, modelled and proved

The system is a small task scheduler. Tasks live in a bounded ring in POSIX shared memory, guarded by three
semaphores: one counts free slots, one counts filled slots, one is a mutex. A caller adds a task and runs a reorder
pass; a reorder thread runs passes in a loop; a processor thread takes tasks off the ring, executes each for a time
quantum, and puts unfinished ones back. Every trip of a task through the ring converts it to a fixed-size record and
back, which recomputes its priority and its remaining time.

## How it is modelled

Two views of the same code are connected to each other.

* **Every interleaving.** `RingProtocol` gives the ring as a step system with any number of threads. Each semaphore
  operation and each load or store of a shared field is one step, each `sem_wait` may fail, and the code's clean-up
  paths are steps too. `RingSafety` holds the inductive invariant; `RingTheorems` what follows from it for reachable
  states and whole runs, above all that the ring refines an atomic bounded queue at its two count updates, and
  `RingLinearizability` shows that each call takes effect there exactly once, between its start and its end.
  `RingStalls` says how many of several consumers are left waiting, `RingLayout` which capacities the declared
  layout can hold, and `RingFailures` what a call whose wait fails tells its caller. `Threads` puts the callers, the
  reorder thread and the processor on top as programs whose ring calls interleave step by step. `ThreadSafety` proves
  what all their runs keep, `ThreadStalls` what they hold when they are stuck, and `PriorityHistories` that a task's
  stored priority only falls. `ThreadPrograms` and `ThreadTurns` prove what one pass, one `add_task` and one turn of
  the processor do to the queue, among any other threads and alone, `ThreadRuns` that such passes exist, and
  `ThreadProgress` that nothing but a ring call holds a thread up.
* **The code's own objects.** `SharedMemory.SharedRing`, `Tasks.Task`, `QueueManager.TaskQueueManager`,
  `Processor.TaskProcessor`, `Schedulers.Scheduler` and `RoundRobin.RoundRobinScheduling` are classes whose methods
  update fields and run the loops of the source. `RingAlone` ties the sequential ring to the step system: what a method
  of `SharedRing` does is what one thread does when it runs a call of the protocol from start to end.
  `Priority`, `Conversion`, `Execution` and `Transit` give the arithmetic, the conversions and the slices as functions,
  and `Rounding` what the priority arithmetic keeps whatever the rounding; a reorder pass
  (`ReorderTasks`) is proved to be `CarryAll`, the processor's loop to be a `Run` of dispatches, and the order, fairness,
  priority and termination theorems are about those.

Points where the code and its documentation differ, and the model follows the code:

* A reorder pass never sorts: it empties the ring and refills it in the same order, whatever the algorithm
  (`TaskQueueManager/source/TaskQueueManager.cpp:3-15`).
* Round Robin's priority update is documented as a no-op, but each pass rebuilds every task, the rebuilt task has never
  run, and so it looks fully starved. Seven passes bring every unfinished task to -20 (`PassesStarve`). Priority
  Scheduling adjusts once more and thereby undoes most of that (`CarryPriority`, `PassesSettle`).
* The remaining time is cast to a 32-bit `int`. A wait of more than about 25 days can make it grow;
  `RemainingShrinksIff` is the exact condition.
* CPU usage divides nanoseconds by milliseconds, so it is at its cap almost at once (`UsageCappedIff`).
* A quantum below 10 ms gives the CPU loop no iterations, so a slice cannot leave through the timeout
  (`CanTimeOutIff`). If the time that re-queued tasks are away has no positive lower bound either, dispatching is bound
  to end only if every task is already under the quantum (`EndsIff`).
* The constructor accepts capacities up to 10000, the layout declares 100 slots. The ring is proved for every capacity
  that fits in `size_t`, and `LayoutSufficesIff` shows that the declared slots are enough exactly up to 100.

## Model

| member | source | states |
|---|---|---|
| RingSafety.InitInv | PosixSharedMemory/source/PosixSharedMemory.cpp:45-54 | what `create` leaves behind satisfies the ring's invariant, for any number of threads and any bytes in the slots |
| RingSafety.RunInv | PosixSharedMemory/source/PosixSharedMemory.cpp:109-203 | every single step of enqueue, dequeue or print by any thread keeps the invariant, whatever the others are doing |
| RingSafety.ApplyInv | PosixSharedMemory/source/PosixSharedMemory.cpp:111-167 | so do a failing `sem_wait` or an exception inside a print, with their clean-up, and the start of a call |
| RingSafety.TraceInv | PosixSharedMemory/source/PosixSharedMemory.cpp:109-203 | the invariant holds in every state of every run |
| RingTheorems.PermitsConserved | PosixSharedMemory/source/PosixSharedMemory.cpp:109-203 | in every reachable state both semaphores plus the permits threads hold make up the capacity, the mutex plus threads in critical sections make one, and `count_` is the item semaphore plus published producers plus claiming consumers |
| RingTheorems.MutualExclusion | PosixSharedMemory/source/PosixSharedMemory.cpp:113-127 | no two threads are in critical sections together |
| RingTheorems.NoEmptyBranchNoOverwrite | PosixSharedMemory/source/PosixSharedMemory.cpp:119-192 | the "Queue is empty" branch is unreachable, and a producer writes only a slot whose task has been taken out |
| RingTheorems.StepRefines | PosixSharedMemory/source/PosixSharedMemory.cpp:122-194 | each step is a step of an atomic bounded queue: append below capacity, remove the head, or nothing |
| RingTheorems.RunRefinesFifo | PosixSharedMemory/source/PosixSharedMemory.cpp:109-203 | a whole run, failures included, is a run of that queue; the tasks taken are always a prefix of the tasks put, and `count_` is the difference |
| RingTheorems.DeliveredWasTaken | PosixSharedMemory/source/PosixSharedMemory.cpp:192-202 | the task a dequeue returns is the head that this very thread took, and it has been carrying it ever since |
| RingLinearizability.CallTakesEffectOnce | PosixSharedMemory/source/PosixSharedMemory.cpp:109-203 | between its start and its end every returned enqueue put its task exactly once, every returned dequeue took the task it returns exactly once, every print changed nothing and shows the queue of a moment inside the call, and every call that threw did nothing |
| RingLinearizability.CallBegan | PosixSharedMemory/source/PosixSharedMemory.cpp:109-203 | a thread inside an operation entered it by a call and has not left since, so every effect on the queue belongs to one call |
| RingTheorems.FreeSlots | PosixSharedMemory/source/PosixSharedMemory.cpp:111-200 | the free-slot semaphore plus the queue plus the tasks carried by calls is the capacity plus the producers at their first wait |
| RingTheorems.NeverFull | PosixSharedMemory/source/PosixSharedMemory.cpp:111-112 | while no more tasks are queued or carried than there are slots, a producer at its first wait is not held up |
| RingTheorems.PastWaitsGoes | PosixSharedMemory/source/PosixSharedMemory.cpp:119-128 | a thread past its waits can always take its next step |
| RingTheorems.OnlyFirstWaitsBlock | PosixSharedMemory/source/PosixSharedMemory.cpp:109-203 | no thread in a call can step if and only if all are producers before a full ring or all are consumers before an empty one; never a mixture, never stuck on the mutex |
| RingTheorems.ItemReadyIff | PosixSharedMemory/include/PosixSharedMemory/PosixSharedMemory.hpp:129-166 | with any number of consumers, the item semaphore is positive or a producer able to go on has only its posts left, if and only if the count is above the items already claimed |
| RingTheorems.SoleConsumerFindsItem | PosixSharedMemory/include/PosixSharedMemory/PosixSharedMemory.hpp:129-166 | so if one thread takes all the items, then after it has read a positive count its dequeue finds one |
| RingTheorems.CountHoldsUp | TaskQueueManager/source/TaskQueueManager.cpp:7-8 | between that read and the wait the count never falls below what was read |
| RingStalls.LeftWaiting | TaskQueueManager/source/TaskQueueManager.cpp:7-8 | with `n` tasks in a quiet ring and `k` threads about to dequeue, whichever way they run, when none can go on exactly `k - n` are left waiting, so some are if and only if `k` is above `n` |
| RingStalls.DequeuesEnd | PosixSharedMemory/source/PosixSharedMemory.cpp:172-203 | those threads cannot run for ever, whichever goes next |
| RingStalls.DequeuesSettle | PosixSharedMemory/source/PosixSharedMemory.cpp:172-203 | and they can be run to a state in which none can go on |
| RingStalls.TwoConsumersStall | TaskQueueManager/source/TaskQueueManager.cpp:7-8 | the smallest stall: both consumers saw the one task, one gets it, the other waits and nobody in a call can step |
| RingStalls.StallIsReachable | TaskQueueManager/source/TaskQueueManager.cpp:7-8 | that stall can be reached from the created state at every capacity |
| RingStalls.AloneIsAllowed | PosixSharedMemory/source/PosixSharedMemory.cpp:109-203 | in any state, any thread may run its call alone to its end or to a wait; the step system allows those moves |
| RingTheorems.FieldsAgreeOutsideMutex | PosixSharedMemory/source/PosixSharedMemory.cpp:119-195 | whenever the mutex is free, rear is front plus count modulo the capacity and the two totals differ by the count (modulo 2^64) |
| RingTheorems.PrintShowsQueue | PosixSharedMemory/source/PosixSharedMemory.cpp:140-159 | print's wrap-around loop shows the abstract queue whole and in order, as it stands at that moment |
| RingTheorems.PrintWritesNothing | PosixSharedMemory/source/PosixSharedMemory.cpp:131-170 | the steps of a print change nothing but the mutex |
| RingLayout.LayoutSufficesIff | PosixSharedMemory/include/PosixSharedMemory/PosixSharedMemory.hpp:59-69 | every reachable access stays inside the declared slots if and only if the capacity is at most 100 |
| RingLayout.Fill | PosixSharedMemory/source/PosixSharedMemory.cpp:109-129 | from the created state one thread can reach every fill level of the ring |
| RingAlone.EnqueueAlone | PosixSharedMemory/source/PosixSharedMemory.cpp:109-129 | the protocol's enqueue run by one thread waits exactly on a full ring, else appends and leaves every permit back in a semaphore |
| RingAlone.DequeueAlone | PosixSharedMemory/source/PosixSharedMemory.cpp:172-203 | the protocol's dequeue run by one thread waits exactly on an empty ring, else removes and returns the head |
| RingAlone.CallKeepsQuiescence | PosixSharedMemory/source/PosixSharedMemory.cpp:109-203 | any call that runs to its end from a quiet ring leaves a quiet ring |
| RingFailures.EnqueueFails | PosixSharedMemory/source/PosixSharedMemory.cpp:111-117 | a failed first wait ends an enqueue with its own error, a failed wait for the mutex with the other after giving the free slot back; both leave the ring as it was, and such runs exist |
| RingFailures.DequeueFails | PosixSharedMemory/source/PosixSharedMemory.cpp:174-181 | likewise for a dequeue and its item |
| RingFailures.PrintFails | PosixSharedMemory/source/PosixSharedMemory.cpp:133-167 | likewise for a print whose wait fails or that throws under the mutex |
| RingFailures.PrintFaults | PosixSharedMemory/source/PosixSharedMemory.cpp:138-167 | a print may throw at any of its steps under the mutex, and then gives the mutex back |
| SharedMemory.Open | PosixSharedMemory/source/PosixSharedMemory.cpp:9-17 | the constructor rejects exactly capacity 0 and capacities above 10000; otherwise the ring is valid and empty |
| SharedMemory.SharedRing.Create | PosixSharedMemory/source/PosixSharedMemory.cpp:45-54 | the fields and semaphores after `create` represent the empty queue |
| SharedMemory.SharedRing.Enqueue | PosixSharedMemory/source/PosixSharedMemory.cpp:109-129 | for every outcome of the two waits: appends exactly when both succeed and there is room, in the protocol's way; otherwise throws the matching error or waits, with nothing changed |
| SharedMemory.SharedRing.Dequeue | PosixSharedMemory/source/PosixSharedMemory.cpp:172-203 | for every outcome of the two waits: removes and returns the oldest task exactly when both succeed and there is one; otherwise nothing changes |
| SharedMemory.SharedRing.Print | PosixSharedMemory/source/PosixSharedMemory.cpp:131-170 | shows the contents oldest first and leaves the ring as it was, on success, when the wait fails and when the guarded part throws |
| SharedMemory.SharedRing.Visit | PosixSharedMemory/source/PosixSharedMemory.cpp:148-159 | the moving-index loop reads off exactly the abstract queue |
| SharedMemory.SharedRing.Size | PosixSharedMemory/include/PosixSharedMemory/PosixSharedMemory.hpp:129-132 | the count field is the length of the abstract queue |
| SharedMemory.SharedRing.Empty | PosixSharedMemory/include/PosixSharedMemory/PosixSharedMemory.hpp:163-166 | true exactly for the empty queue |
| Priority.Starvation | Task/source/Task.cpp:91-94 | the part of ten seconds that the task has waited: proportional up to ten seconds, 0 if the clock shows none, 1 from then on |
| Priority.DynamicIs | Task/source/Task.cpp:91-104 | the formula in the time waited and the usage: 14 points for full usage, 6 back for ten seconds, in proportion in between, 4 for being I/O-bound, truncated toward zero and clamped |
| Priority.IdleDynamicIs | Task/source/Task.cpp:91-104 | without CPU usage it is one integer division toward zero of nanoseconds by ten seconds |
| Priority.TruncatesTowardZero | Task/source/Task.cpp:102 | the truncation drops the fraction toward zero, on both sides |
| Priority.ClampIs | Task/source/Task.cpp:104 | the clamp leaves [-20, 19] alone and takes everything else to the nearer end |
| Priority.DynamicMonotone | Task/source/Task.cpp:96-104 | more CPU usage never lowers the number, more waiting and being I/O-bound never raise it |
| Priority.FullUsageRises | Task/source/Task.cpp:96-104 | a full slice costs 14 points, up to the clamp |
| Rounding.StarvedFullUsage | Task/source/Task.cpp:93-104 | after the longest wait it costs 8, or 4 if I/O-bound, and any rounding leaves the result there or one point nearer zero |
| Priority.NeverRises | Task/source/Task.cpp:96-104 | with no CPU usage an adjustment never raises a valid priority, truncation toward zero included |
| Priority.StarvedDrop | Task/source/Task.cpp:93-104 | a fully starved adjustment takes exactly 6 points off, 10 if I/O-bound, down to -20 |
| Priority.StarvedFalls | Task/source/Task.cpp:88-107 | `k` of them in a row give max(-20, p - 6k) or max(-20, p - 10k), and -20 from the seventh on |
| Priority.BarelyStarvedDrop | Task/source/Task.cpp:93-104 | an adjustment two microseconds to a second and a half after another one takes one point off a positive priority and, by truncation, none off the others |
| Rounding.ExactIsRounding | Task/source/Task.cpp:93-104 | exact arithmetic is the case of no rounding, so the rounded adjustment generalises the exact one the other rows use |
| Rounding.RoundedNeverRises | Task/source/Task.cpp:93-104 | with every operation rounded in any monotone way that fixes small whole numbers, an adjustment without CPU usage never raises a valid priority |
| Rounding.RoundedMonotone | Task/source/Task.cpp:93-104 | under any such rounding more CPU usage never lowers the number and more waiting never raises it |
| Rounding.RoundedWithinOne | Task/source/Task.cpp:93-104 | rounding within single precision's error moves a stored priority by at most one point from the exact one |
| Rounding.RoundedBarelyStarved | Task/source/Task.cpp:93-104 | however short the gap and whatever the rounding, a plain or CPU task at 0 or below keeps its priority and one above 0 loses at most a point |
| Rounding.RoundedSettles | PriorityScheduling/source/PriorityScheduling.cpp:23-26 | any number of such adjustments takes at most a point each, never below 0 from above, and never moves a priority that is not above 0 |
| Conversion.AdjustIs | Task/source/Task.cpp:88-107 | an adjustment stores that formula for the time since the last one, and starts the waiting and the usage anew; nothing else changes |
| Conversion.IdleAdjustIs | Task/source/Task.cpp:88-107 | for a plain task at 0 that has used no CPU the new priority is minus six points for every ten seconds, exactly; and so from any priority and for both classes |
| Conversion.UsageCountsOnce | Task/source/Task.cpp:102-106 | usage and waiting are charged once: a second adjustment depends only on the time since the first and ends at or below the static priority |
| Conversion.ReadBack | TaskQueueManager/source/TaskQueueManager.cpp:35-36 | what is read from the description array is the description up to its first NUL, at most 255 characters, and storing that again loses nothing more |
| Conversion.ElapsedMs | TaskQueueManager/source/TaskQueueManager.cpp:51-52 | the whole milliseconds between two readings, bounded from both sides in nanoseconds |
| Conversion.RemainingIs | TaskQueueManager/source/TaskQueueManager.cpp:49-53 | the stored time is the total less the elapsed milliseconds, or 0, while that fits in 32 bits; beyond, it repeats with the 32-bit word |
| Conversion.RemainingShrinksIff | TaskQueueManager/source/TaskQueueManager.cpp:49-53 | with the 64-to-32-bit cast, the stored time is no larger than before if and only if the elapsed milliseconds modulo 2^32 are at most the old value plus 2^31; below that bound it is the exact difference, or 0 |
| Conversion.RecordIs | TaskQueueManager/source/TaskQueueManager.cpp:31-54 | the record field by field: an unfinished CPU task is stored with its total work less the whole milliseconds since its arrival, a completed one with 0 |
| Conversion.UnsetIsFree | TaskQueueManager/source/TaskQueueManager.cpp:38-53 | what the code leaves unset is left open: the kind in the record of a completed task and the remaining time of an unfinished one that is not CPU-bound may come out as anything |
| Conversion.RebuiltIs | TaskQueueManager/source/TaskQueueManager.cpp:56-81 | the task rebuilt from a record, field by field: it arrived when it was constructed, its stored priority is its static one, and it is adjusted as if it had waited since the clock's epoch |
| Conversion.RoundTrip | TaskQueueManager/source/TaskQueueManager.cpp:31-81 | for incomplete tasks, to the record and back keeps id, class and completed flag, gives the canonical description, and is idempotent; the dynamic priority comes back as the static one |
| Conversion.StoredPriorityRebuilds | Task/source/Task.cpp:3-9 | whatever is called on a task, failed `set_static_priority` included, the priority it stores is in [-20, 19], so rebuilding it passes validation |
| Transit.CarryKeeps | TaskQueueManager/source/TaskQueueManager.cpp:10-14 | one trip out of the ring, through the update and back keeps id, completed flag, class and shortened description, and takes the whole milliseconds from the rebuild to the writing back off a CPU task |
| Transit.CarryNeverRaises | TaskQueueManager/source/TaskQueueManager.cpp:10-14 | a trip under either algorithm, or the processor's, never raises the stored priority and keeps it valid |
| Transit.CarryStarved | TaskQueueManager/source/TaskQueueManager.cpp:76 | under Round Robin a trip costs the full starvation drop however little the task waited |
| Transit.CarryPriority | PriorityScheduling/source/PriorityScheduling.cpp:23-26 | under Priority Scheduling the second adjustment starts again from the stored priority and sees only the time since the first: the new priority is one integer division of the nanoseconds between the rebuild and the update |
| Transit.CarryRebuilt | TaskQueueManager/source/TaskQueueManager.cpp:73-76 | under Round Robin, and when the processor puts it back, it is that division for the time since the clock's epoch |
| Transit.PassPreserves | TaskQueueManager/source/TaskQueueManager.cpp:3-15 | a pass keeps every task in its place with its id, completed flag and class, raises no priority, and shrinks remaining times except where the cast wraps, exactly |
| Transit.PassesStarve | TaskQueueManager/source/TaskQueueManager.cpp:3-15 | after `k` Round Robin passes each incomplete task has lost `k` full drops, and is at -20 from the seventh pass on |
| Transit.PassesSettle | PriorityScheduling/source/PriorityScheduling.cpp:23-26 | after `k` Priority Scheduling passes with updates two microseconds to a second and a half after the rebuilds, a plain or CPU task has lost one point a pass down to 0 and no more, an I/O-bound one five a pass while above 4 and four afterwards, reaching -20 after at most nine |
| Execution.UsageCappedIff | Tasks/source/Tasks.cpp:24 | the CPU usage is at its cap if and only if the nanoseconds worked reach the cap times the quantum's milliseconds |
| Execution.LoopTurns | Tasks/source/Tasks.cpp:15-17 | the loop limit is 500000 turns for every whole ten milliseconds of the quantum, as an unsigned 64-bit number |
| Execution.UsageIs | Tasks/source/Tasks.cpp:24 | below the cap the usage is the quotient of nanoseconds and milliseconds |
| Execution.SliceTimes | Tasks/source/Tasks.cpp:15-30 | a CPU slice ends at the first clock reading that shows a quantum's worth of nanoseconds since its start, or after the last turn of its loop if none does |
| Execution.CompletesIff | Tasks/source/Tasks.cpp:30-37 | a CPU slice reports completion if and only if it did not leave through the timeout and lasted at least as long as the work that was left; an I/O slice, if and only if its file could not be opened or this was its last operation |
| Execution.CpuSliceDoes | Tasks/source/Tasks.cpp:9-38 | the whole effect of a CPU slice, in nanoseconds: the whole milliseconds it lasted come off the remaining work, and state, completion and usage are set |
| Execution.IoSliceDoes | Tasks/source/Tasks.cpp:47-73 | the whole effect of an I/O slice: one operation less unless the file cannot be opened, and state, completion and usage are set |
| Execution.CompletionTakesTime | Tasks/source/Tasks.cpp:30-37 | a CPU slice that reports completion has lasted at least as long as the work that was left |
| Execution.CanTimeOutIff | Tasks/source/Tasks.cpp:15-27 | some slice can leave through the timeout if and only if the loop limit is positive; it is zero for quanta under 10 ms |
| Execution.StalledSlice | Tasks/source/Tasks.cpp:15-38 | for every quantum from 0 up a slice can run through the loop before the clock moves, and then takes no work off |
| Tasks.Task.AdjustDynamicPriority | Task/source/Task.cpp:88-107 | the whole new state of the task after an adjustment, at some clock reading not before the call, as `AdjustIs` spells out |
| Tasks.Task.SetStaticPriority | Task/source/Task.cpp:45-50 | throws exactly outside [-20, 19], after overwriting the static value but with the dynamic one untouched |
| Tasks.Task.SetRunState | Task/source/Task.cpp:24-35 | sets the state, and the flag that a task once completed stays so; nothing else changes |
| Tasks.NewUnixTask | Task/source/Task.cpp:3-9 | construction fails exactly for priorities outside [-20, 19]; otherwise the whole new task is given: both priorities are the argument, it is ready and has never run |
| Tasks.Task.ExecuteCpu | Tasks/source/Tasks.cpp:9-38 | the slice is given by its clock readings: the loop left at the first reading that used up the quantum, else at its limit; completion is reported exactly in the second case with no work left; the whole new state is what `CpuSliceDoes` says of that slice |
| Tasks.Task.ExecuteIo | Tasks/source/Tasks.cpp:47-73 | one operation per slice, completion exactly when the file cannot be opened or none remain, the whole new state as `IoSliceDoes` says, and at least half the quantum spent |
| Tasks.Task.Execute | Task/source/Task.cpp:66-69 | a plain task throws and changes nothing; the others run a slice of their class, whose readings lie within the call, and report completion and end in the state that the slice decides |
| QueueManager.TaskQueueManager.TaskCount | TaskQueueManager/include/TaskQueueManager/TaskQueueManager.hpp:57-60 | the number of tasks in the ring |
| QueueManager.TaskQueueManager.ConvertToShared | TaskQueueManager/source/TaskQueueManager.cpp:31-54 | the record written is that of `RecordIs` at some clock reading within the call, with the fields the code leaves unset arbitrary |
| QueueManager.TaskQueueManager.ConvertFromShared | TaskQueueManager/source/TaskQueueManager.cpp:56-81 | fails exactly for an invalid priority; otherwise a fresh task that the record determines but for two clock readings |
| QueueManager.TaskQueueManager.AddTask | TaskQueueManager/source/TaskQueueManager.cpp:17-23 | for every outcome of the three waits: the task's record is appended exactly when both of the enqueue's succeed and there is room, also when the print then throws; otherwise nothing changes; the task is left alone |
| QueueManager.TaskQueueManager.GetNextTask | TaskQueueManager/source/TaskQueueManager.cpp:25-29 | for every outcome of the two waits: takes the head off and rebuilds it exactly when both succeed and there is one, otherwise nothing changes; the priority validation never fails |
| QueueManager.TaskQueueManager.Drain | TaskQueueManager/source/TaskQueueManager.cpp:7-8 | the first loop ends with the ring empty and one fresh object per task, in order, or with an exception after some of them |
| QueueManager.TaskQueueManager.Reprioritise | TaskQueueManager/source/TaskQueueManager.cpp:10-11 | the second loop updates each object once, by the algorithm, and no other |
| QueueManager.TaskQueueManager.Refill | TaskQueueManager/source/TaskQueueManager.cpp:13-14 | the third loop never waits when there is room for all, and appends the records in order, all of them or those before an exception |
| QueueManager.TaskQueueManager.ReorderTasks | TaskQueueManager/source/TaskQueueManager.cpp:3-15 | a pass ends at every fill level and never waits; without failing waits each task makes one trip in place and both indices advance by the number of tasks modulo the capacity; if a wait fails, the ring keeps the untouched rest or the carried first part, and exactly the tasks in the local vector are dropped |
| QueueManager.PassCarries | TaskQueueManager/source/TaskQueueManager.cpp:3-15 | rebuilding all, updating all and writing all back is carrying each record on its own, with ordered clock readings |
| QueueManager.PrefixCarries | TaskQueueManager/source/TaskQueueManager.cpp:13-14 | writing back only some is carrying those |
| Processor.ExecutionInvisible | TaskProcessor/source/TaskProcessor.cpp:39-41 | executing a task that stays unfinished does not change the record it is put back as |
| Processor.TaskProcessor.Handle | TaskProcessor/source/TaskProcessor.cpp:31-44 | a plain task throws and is left as it was; every other one is executed between the call's clock readings, a CPU task for its total time exactly when that is under the quantum and else for the quantum, and is left in the state its slice decides; it goes back if and only if it was given a whole quantum, its slice did not report completion and `stop` has not come |
| Processor.TaskProcessor.ProcessOne | TaskProcessor/source/TaskProcessor.cpp:27-51 | one turn, failing waits included, changes nothing on an empty ring (after sleeping 100 ms) or when the dequeue throws, and is otherwise one dispatch of the head with the fate its slice, run within the turn, decides; without failing waits it is idle exactly on an empty ring |
| Processor.TaskProcessor.PutBack | TaskProcessor/source/TaskProcessor.cpp:40-41 | the record put back is one trip of the record taken out; it is stored unless the enqueue throws, also when the print does |
| Processor.TaskProcessor.ProcessTasks | TaskProcessor/source/TaskProcessor.cpp:21-54 | the loop, failing waits included, is a run of dispatches with those fates, of which only the last can be a stop and only a failed put-back drops a task; with every unfinished slice timing out, as many dispatches as a queue of CPU tasks has slices empty the ring, and without failing waits that many turns do |
| Pipeline.PositionCountsDispatches | TaskProcessor/source/TaskProcessor.cpp:29-41 | the task at position `k` is at the head after exactly `k` dispatches, with any adds and reorder passes between them |
| Pipeline.OnceEachPerRound | TaskProcessor/source/TaskProcessor.cpp:29-41 | after a re-queueing dispatch the next dispatches take the tasks queued behind it once each, in order, and then the re-queued task |
| Pipeline.SlicesIsQuotient | TaskProcessor/source/TaskProcessor.cpp:31-41 | the slices a CPU task can use are its remaining time divided by the quantum, plus one |
| Pipeline.BudgetIs | TaskProcessor/source/TaskProcessor.cpp:31-41 | the budget of a queue is the sum of the quotients, each plus one |
| Pipeline.CarryWork | TaskQueueManager/source/TaskQueueManager.cpp:49-63 | a trip under 25 days keeps an unfinished CPU task one and takes the whole milliseconds between the trip's own readings off it, down to 0 |
| Pipeline.StepBudget | TaskProcessor/source/TaskProcessor.cpp:27-44 | at any pace up to the quantum that re-queued tasks keep, each dispatch uses at least one slice of that length of the queue's total, and a reorder pass adds none |
| Pipeline.PacedDispatchingEnds | TaskProcessor/source/TaskProcessor.cpp:27-44 | with no arrivals, if every re-queued task has been away for `d` ms or more, there are at most the sum of (R / d + 1) dispatches, reorder passes included, and then the ring is empty; this covers slices that run through the loop after some time |
| Pipeline.DispatchingEnds | TaskProcessor/source/TaskProcessor.cpp:27-44 | so if every unfinished slice times out there are at most the sum of (R / q + 1) dispatches, and then the ring is empty |
| Pipeline.EndsIff | TaskProcessor/source/TaskProcessor.cpp:31-41 | with no arrivals and re-queued tasks away for `d` ms or more, a queue of CPU tasks has a bound on its dispatches if and only if `d` is positive or every task is under the quantum; in the latter case one dispatch each is the bound |
| Pipeline.NoEndWithoutTimeout | Tasks/source/Tasks.cpp:15-37 | any queue of CPU tasks, one of which has a quantum or more left, can be dispatched any number of times and still have such a task, its slices running through the loop before the clock moves |
| Pipeline.LetGoWhenDone | TaskProcessor/source/TaskProcessor.cpp:31-44 | no CPU task is let go before its time, unless `stop` came or putting it back failed: one with less than a quantum left has been executed for all that time or for every turn of its loop, one with more has been worked on for all it had left |
| Pipeline.CpuFinishedIff | TaskProcessor/source/TaskProcessor.cpp:36-44 | a CPU task with a quantum or more left is let go as finished if and only if its slice did not leave through the timeout and lasted for all it had left |
| Pipeline.IoFinishedIff | TaskProcessor/source/TaskProcessor.cpp:36-44 | an I/O-bound task is let go as finished if and only if this was its last operation or its file could not be opened |
| Pipeline.RunFits | PosixSharedMemory/source/PosixSharedMemory.cpp:111-112 | no run of arrivals, passes and dispatches puts more tasks in the ring than it has slots |
| Schedulers.Scheduler.AddTask | Sheduler/source/Sheduler.cpp:31-35 | adding is an arrival at the back, whatever the priority, followed by one pass; on a full ring it waits with nothing changed; when a wait fails, the ring is as it was, or with the task stored, or as the failed pass leaves it |
| Schedulers.Scheduler.Pass | TaskQueueManager/source/TaskQueueManager.cpp:3-15 | a pass takes the ring to the carried tasks, all of them unless a wait fails, or to the untouched rest |
| Schedulers.Scheduler.Schedule | Sheduler/source/Sheduler.cpp:42-57 | the reorder thread's loop is a sequence of such passes, which makes no id and without failing waits loses none, keeps every task in its place and takes half a second a pass or more; seven Round Robin passes that carry leave every unfinished task still there at -20, however many failed |
| Schedulers.WholeRunIsPasses | Sheduler/source/Sheduler.cpp:42-57 | a loop of whole passes is a sequence that the closed forms of `PassesStarve` and `PassesSettle` describe |
| RoundRobin.RoundRobinScheduling.SelectNextTask | RoundRobinScheduling/source/RoundRobinScheduling.cpp:3-10 | throws exactly on an empty list; otherwise the next index, in range whatever index an earlier list left behind |
| RoundRobin.CycleVisitsAll | RoundRobinScheduling/source/RoundRobinScheduling.cpp:8-9 | from any stored index, `n` selections on `n` tasks return every index exactly once |
| RoundRobin.RoundRobinScheduling.SelectCycle | RoundRobinScheduling/source/RoundRobinScheduling.cpp:8-9 | `n` calls in a row make those selections |
| ThreadSafety.PerformInv | Sheduler/source/Sheduler.cpp:31-57 | every step of any caller, reorder thread or processor, among any number of others, keeps the ring's invariant, the ledger of ids and the validity of priorities |
| ThreadSafety.TasksConserved | TaskProcessor/source/TaskProcessor.cpp:27-51 | at every moment of every run the submitted ids are, with multiplicity, those in the ring, in threads' hands, retired by the processor or lost, each step before having changed them as the next row says; none is lost as long as no ring call failed |
| ThreadSafety.LedgerExplained | TaskProcessor/source/TaskProcessor.cpp:31-51 | in every step an id is submitted by a caller, retired exactly when the processor takes one of its drop branches, and lost exactly when a thread resumes from a failed ring call holding it; such a failure in a caller's thread, and nothing else, ends the process |
| ThreadSafety.NobodyWaitsForRoom | TaskQueueManager/source/TaskQueueManager.cpp:7-14 | while no more tasks are alive than there are slots, no add, refill or re-queue waits on a full ring, whatever the interleaving |
| ThreadSafety.RingPrioritiesValid | TaskQueueManager/source/TaskQueueManager.cpp:34-76 | in every run every task in the ring or just dequeued has a priority in [-20, 19] |
| PriorityHistories.PriorityNeverRises | TaskQueueManager/source/TaskQueueManager.cpp:34-76 | in every run of any threads, whatever the interleaving and the failures, as long as no id is submitted twice, the priority stored for a task never rises from one record in the ring to a later one |
| PriorityHistories.OnlyHolder | TaskQueueManager/source/TaskQueueManager.cpp:17-29 | in such a run the record a ring call carries is the only one of its id in any thread's hands |
| ThreadStalls.StallMeansHeld | TaskQueueManager/source/TaskQueueManager.cpp:7-8 | in every run, with a consumer at its first wait, no ring call can go on if and only if every ring call is at that wait and the ids alive are exactly those in threads' hands; the waiting threads are then reorder passes or processors in their fetch |
| Threads.RingStepBalances | PosixSharedMemory/source/PosixSharedMemory.cpp:122-194 | a ring step moves one id between the caller's hands and the queue, or none |
| ThreadPrograms.PassProgram | TaskQueueManager/source/TaskQueueManager.cpp:3-15 | whatever the other threads do, a pass without failures takes tasks out, has put back exactly those, in order and each carried once, when it is over, and begins to put back only after reading a count of 0 |
| ThreadPrograms.PutsBackAfterEmpty | TaskQueueManager/source/TaskQueueManager.cpp:7-14 | in every run, failures included, a pass goes over to putting back only with the ring empty |
| ThreadPrograms.PassAlone | TaskQueueManager/source/TaskQueueManager.cpp:3-15 | a pass of one thread alone, from its first test to its end, takes every task in the ring on one trip, in place, as `ReorderTasks` says of the class |
| ThreadRuns.PassRuns | TaskQueueManager/source/TaskQueueManager.cpp:3-15 | from a quiet ring at any fill level and for any clock readings in order such a pass exists, and leaves the ring quiet with exactly the carried queue |
| ThreadRuns.QuietBetweenCalls | PosixSharedMemory/source/PosixSharedMemory.cpp:109-203 | while one thread is alone the ring is quiet whenever it is between calls, at the end of its pass, add or turn above all |
| ThreadTurns.AddProgram | Sheduler/source/Sheduler.cpp:31-35 | whatever the other threads do, an `add_task` without failures puts its task in the ring exactly once and then makes one pass |
| ThreadTurns.AddAlone | Sheduler/source/Sheduler.cpp:31-35 | alone it is an arrival at the back followed by a pass, as `Scheduler.AddTask` says of the class |
| ThreadTurns.TurnProgram | TaskProcessor/source/TaskProcessor.cpp:23-47 | whatever the other threads do, a turn of the processor without failures takes at most one task, and has let it go or put it back, carried once, as a fate of its slice allows |
| ThreadTurns.TurnAlone | TaskProcessor/source/TaskProcessor.cpp:23-47 | alone it is idle exactly on an empty ring and otherwise one dispatch of the head, as `ProcessOne` says of the class |
| ThreadPrograms.LoopsObey | Sheduler/source/Sheduler.cpp:42-57 | the reorder thread and the processor begin another round exactly while they are told to run |
| ThreadPrograms.StopsObeyed | TaskProcessor/source/TaskProcessor.cpp:39-44 | the processor puts a task back only while it is told to run, and lets one go for `stop` only when it is not |
| ThreadPrograms.PrintsAfterAdding | TaskQueueManager/source/TaskQueueManager.cpp:17-23 | in every run a thread prints the queue right after each task it has added, and at no other time |
| ThreadPrograms.FailuresCaught | TaskProcessor/source/TaskProcessor.cpp:48-51 | in every run a thread whose ring call failed goes back to the top of its loop, and the process ends exactly if it was a caller |
| ThreadProgress.ProgramsGo | TaskProcessor/source/TaskProcessor.cpp:21-54 | in every run of a live process a thread that is between ring calls and has not ended can take its next step, whatever the algorithm, the quantum and the next submission |
| ThreadProgress.RingCallsGo | PosixSharedMemory/source/PosixSharedMemory.cpp:109-203 | a ring call of a thread goes on, or fails, exactly as the ring's own step system says |

## Left out

- Opening, attaching, detaching and destroying shared memory and semaphores: operating-system resources; the model starts in the state `create` leaves behind.
- Memory layout above 100 slots: `RingLayout.LayoutSufficesIff` says when accesses leave the declared slots, not what overlapping the two counters then does; the model's array has as many slots as the capacity.
- Relaxed memory order: steps are sequentially consistent; critical sections are ordered by the mutex, and only `size` and `empty` read outside it.
- Copying a task into or out of a slot is one step, although the record is many bytes; it happens inside the mutex.
- Overflow of a semaphore's value in `sem_post`, and failures of `sem_post`, are not modelled.
- Sockets, command parsing, the client and server dialogues, loggers, console output, the contents written by I/O-bound tasks, `fork`, `exec`, `waitpid` and attributes held in `std::any`: foreign calls without a property of their own.
- Float rounding: the conversions and passes use exact reals, truncated toward zero where the code casts. `Rounding` proves what holds of the priority arithmetic under any rounding with the stated properties; that single precision has them is not proved, and neither are exact results for gaps under two microseconds, where it can round the starvation away.
- The clock: an input of non-decreasing nanosecond readings since its epoch; full starvation of rebuilt tasks is stated for readings of ten seconds or more.
- Total time of plain and I/O-bound tasks: the code returns no value, so it is arbitrary here, and time claims are for CPU tasks only. The record kind of a completed task is arbitrary for the same reason.
- `Scheduler::set_algorithm` and `set_time_quantum` on running threads: the classes fix the algorithm and the quantum; the thread model lets both vary from step to step.
- `PriorityScheduling::select_next_task`: a maximum scan that nothing in the pipeline calls.
- Classes of tasks: `Tasks.Task` is one class with a `kind` field in place of the subclasses.
- DispatchingEnds: like `PacedDispatchingEnds` and `EndsIff`, for trips under 2^31 ms, past which the remaining time can grow (`RemainingShrinksIff`).
- ItemReadyIff: promises a producer able to finish, not that a fair scheduler lets it; no liveness under thread scheduling is claimed.
- PassesSettle: leaves out updates less than two microseconds after the rebuild, as the last task of a drain may see; `RoundedSettles` covers them for plain and CPU tasks, with a bound in place of the exact priority.
- ReorderTasks: one pass with nobody else in the ring; `ThreadPrograms.PassAlone` ties the thread programs to it, and interleavings are covered by `PassProgram` and `ThreadSafety`, where the three loops run step by step.
- PassAlone: for a pass without failures; when ring calls fail, `PutsBackAfterEmpty`, `FailuresCaught` and `LedgerExplained` say what a thread program then does.
- AddAlone: likewise for an `add_task` without failures.
- TurnAlone: likewise for a turn of the processor without failures.
- ProcessTasks: bounded by a number of turns, as the loop itself ends only when `stop` is called.
- Schedule: bounded by a number of turns for the same reason.
- PriorityNeverRises: for ids submitted once. The ring tells tasks apart by id only, so it says nothing of ids that callers reuse.
- Exceptions other than a print's: only failing waits and a print that throws are modelled; a logger or an allocation that throws between a wait and its post is not.
- Deaths of the process: when an exception leaves a caller's thread the run simply ends; what a later process finds in the shared memory is not modelled.
