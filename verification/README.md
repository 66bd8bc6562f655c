# Lion runtime: timer wheel, reactor timers, executor

Lion is a single-threaded async runtime written in Verus. This project models its executable code in
Dafny and proves what it is for, over single calls and over whole runs:

- the **timer wheel**: four rings of 256 slots, swap-remove with back-pointers, per-level counters, a
  cached minimum, cascading when the clock advances, and a minimum scan in ring order;
- the **reactor's timer side**: the resource slab, ids, the cancellation that is kept back for reuse,
  and the park that reads the clock once and fires what is due;
- the **executor**: one tick drains deferred tasks, pops the injection channel, polls with a budget
  shared by two poll loops, and parks in between; wakes travel through ready queues, a queue for other
  threads, and notified bits;
- the **containers** below: `VecMap`, `Slab` (offset windows) and `TidLedger` (a bit-packed set).

## How it is built

What the source updates in place is a class (`TimerWheel`, `Reactor`, `Tls`, `Executor`, `Slab`, `VecMap`,
`TidLedger`, `InnerHandle`). Their methods tie `State()` or `View()` after the call to a
function of the state before it, or state outright what the source promises of it; the laws are proved about
those functions, over all inputs and all runs.

| file | part |
|---|---|
| `Ring.dfy` | arithmetic of levels, slots and ring distance |
| `WheelModel.dfy`, `WheelSlots.dfy`, `WheelSteps.dfy`, `WheelAdvance.dfy`, `WheelScan.dfy`, `WheelLaws.dfy` | well-formedness of the wheel and why each operation keeps it |
| `TimerWheel.dfy` | the wheel itself |
| `TimerRuns.dfy`, `WheelRuns.dfy` | runs of insert, remove and drain: on the map the wheel stands for, and played on the wheel itself |
| `ReactorModel.dfy`, `Reactor.dfy`, `LazyCancel.dfy` | reactor timers; lazy against eager cancellation |
| `WakeModel.dfy`, `Tls.dfy`, `Suppression.dfy` | wake routing, and how often a wake queues its task |
| `ExecLog.dfy`, `ExecModel.dfy`, `Executor.dfy` | the event log, one tick as a function, the executor |
| `ExecInvariant.dfy`, `TickGrammar.dfy`, `Injection.dfy`, `Sends.dfy` | what every run keeps, its log's grammar, and delivery from the environment's sends through the channel |
| `Outcomes.dfy`, `Budget.dfy`, `Causes.dfy` | what a ready future ends, how often a tick polls, and why |
| `QueueOrder.dfy`, `WakeOrder.dfy`, `DrainOrder.dfy` | drains keep order, and tasks are polled in the order of their wakes |
| `Waiting.dfy`, `WakeDelivery.dfy`, `WakeServed.dfy`, `SpawnToPoll.dfy` | bounded waiting, and the way of every wake and spawn to a poll |
| `TimerLiveness.dfy`, `TimerRegistration.dfy`, `Cancelled.dfy` | from a timer's registration to the poll of its task, and after its cancellation |
| `ParkSleep.dfy`, `Oversleep.dfy`, `Yields.dfy` | when a park sleeps, and exactly when it sleeps on a spawned task |
| `Options.dfy`, `Seqs.dfy` | shared definitions |
| `Window.dfy`, `VecMap.dfy`, `Slab.dfy`, `TidLedger.dfy`, `Spawn.dfy` | containers and task ids |

The environment is a total function from log positions to what happens there: which wakes, spawns,
deferrals and timer calls a poll makes and whether it is Ready; which foreign wakes and spawns arrive before
each drain of reactor wakes, before and after a park resets the interrupt, and before and after its timers
fire; and what clock the park reads. Theorems hold for every such function, so for every schedule. An arrival at
any other moment has the effect of one at the nearest of these: only receives look at the channel, and only
drains at the foreign queue. The order in which a park fires its timers is the wheel's business; the
tick functions take it as a parameter, and `Executor.Tick` proves that it enumerates exactly what is due.

Shifts and masks are division and remainder on naturals. No deadline arithmetic of the wheel can overflow
64 bits: `(e >> shift) + o` is compared with a bound on levels 1 and 2 only. Where the width matters it is written
out: the id counter stops at 2^64 - 1 and the spawn counter wraps.

## What was found

- **A stale second cancellation hits the new owner.** The kept-back cancellation hands its id to the next
  registration with the same deadline, so a handle cancelled twice can cancel somebody else's timer
  (`LazyCancel.StaleCancelHitsNewOwner`). Lazy and eager cancellation agree on a run if and only if no call
  cancels a dead handle whose id is live again (`LazyCancel.LazyRefinesEager`); cancelling each handle at most
  once is enough (`LazyCancel.CancelOnceAgrees`).
- **A duplicate id stops `pop_injection` early**, with the channel not empty (`Injection.DuplicateStopsEarly`). The
  call empties the channel if and only if no duplicate stands before its last id (`Injection.PopEmptiesExactly`).
  Ids from `spawn` are distinct until 2^64 spawns (`Spawning.SpawnIdsDistinct`).
- **A park can sleep with a spawned task in the channel**, for at most its 100 ms timeout: `require_timeout` does
  not look at the channel, and a spawn does not signal the OS poll while the interrupt flag is still set from an
  arrival during the OS poll before. When ids are distinct this happens if and only if that flag is stale, nothing
  arrived since the park reset it, every queue is empty, and a task was spawned since the last receive, either by
  a poll that used up the budget or by another thread before the reset (`Oversleep.OversleepsExactly`,
  `Oversleep.OversleepsInRuns`). Both ways are reached from the initial state for every budget
  (`Oversleep.OversleepsOnOwnSpawn`, `Oversleep.OversleepsOnForeignSpawn`).
- **Only a deferral overtakes.** Tasks woken one after the other from one source are polled in that order, over
  whole runs, unless the second one is deferred meanwhile: deferred tasks enter the queue as the next tick begins,
  ahead of the ready queues (`WakeOrder.WokenInOrder`).
- **The cached minimum is never used.** It starts as None and is only lowered when it is Some, so it stays None;
  `Reactors.Reactor.Valid` carries this and every operation keeps it (wheel.rs:329, 421 and 4226 are its only
  assignments). Every `next_deadline` of a non-empty wheel therefore scans.
- `handle.rs:95` calls `Reactor::deregister_timer` for an id that is not in the wheel, which that function's own
  precondition (`reactor/timer.rs:243`) rules out. The model follows the code: nothing live changes.

## Model

| member | source | states |
|---|---|---|
| Ring.PlaceFresh | lion-timer-wheel/src/wheel.rs:1481-1515 | the level and slot computed for any deadline ahead of the clock satisfy the placement rule |
| Ring.RingDistance | lion-timer-wheel/src/wheel.rs:253-262 | below level 3 the ring offset of a slot is the exact shifted distance of its timers; on level 3 a lower bound |
| Ring.CascadeDescends | lion-timer-wheel/src/wheel.rs:1982-2200 | a swept timer that is not due drops strictly lower from levels 1 and 2, lower or to the same slot from level 3, and never comes from level 0 |
| Ring.StaysPlaced | lion-timer-wheel/src/wheel.rs:2704-2761 | a timer outside the swept slots is still placed correctly at the new clock |
| WheelSlots.PushedKeeps | lion-timer-wheel/src/wheel.rs:2985-3013 | appending keeps slots and back-pointers mutually inverse and the counters exact |
| WheelSlots.RemovedKeeps | lion-timer-wheel/src/wheel.rs:3115-3477 | swap-remove does too, although another id changes its index |
| WheelSlots.TakenKeeps | lion-timer-wheel/src/wheel.rs:3088-3113 | draining a slot does too, with exactly the drained ids left unplaced |
| WheelSteps.AfterInsertKeeps | lion-timer-wheel/src/wheel.rs:358-715 | an insertion, fresh or replacing, re-establishes the whole invariant, cached minimum and cascade bound included |
| WheelSteps.AfterRemoveKeeps | lion-timer-wheel/src/wheel.rs:717-842 | so does a removal |
| WheelSteps.AfterFireKeeps | lion-timer-wheel/src/wheel.rs:870-1059 | so does firing the last pending id, which is due and was in no slot |
| WheelAdvance.MidTake | lion-timer-wheel/src/wheel.rs:1627-1702 | draining the next ring slot keeps the sweep invariant: exactly its timers become loose |
| WheelAdvance.MidPlace | lion-timer-wheel/src/wheel.rs:1982-2200 | re-placing a drained timer keeps the sweep invariant, with one more move at most |
| WheelAdvance.MidExpire | lion-timer-wheel/src/wheel.rs:1982-1992 | moving a due drained timer to pending keeps the sweep invariant |
| WheelAdvance.MidNextLevel | lion-timer-wheel/src/wheel.rs:1615-1627 | a level is finished once the slots the clock passed, at most 256, were drained |
| WheelAdvance.ShiftStable | lion-timer-wheel/src/wheel.rs:1554-1601 | if the clock's shifted position did not change on a level, it did not change on any higher one |
| WheelAdvance.MidFinish | lion-timer-wheel/src/wheel.rs:2761-2981 | stopping at the first unchanged level leaves the invariant whole, pending exactly the due timers, each other timer moved at most once; the invariant includes the cascade bound, that a timer inserted on level L at most 2 was re-placed at most L minus its present level times |
| WheelScan.FirstSlotMin | lion-timer-wheel/src/wheel.rs:3640-3930 | the first occupied slot after the cursor holds the minimum of a level below 3 |
| WheelScan.GapBeyond | lion-timer-wheel/src/wheel.rs:3640-3930 | when the prefilter gives up, every timer of the level exceeds the bound |
| WheelScan.LevelZeroSlot | lion-timer-wheel/src/wheel.rs:3640-3930 | on level 0 any member of a slot is its minimum |
| WheelScan.PendingFirst | lion-timer-wheel/src/wheel.rs:3951-4012 | the least live pending deadline is the least of all |
| WheelScan.CandidatesMerge | lion-timer-wheel/src/wheel.rs:4016-4106 | the least of the four level candidates is the global minimum, although levels 1 and 2 were scanned with level 0's bound |
| WheelLaws.Conservation | lion-timer-wheel/src/wheel.rs:160-215 | live timers are positions plus pending ids, each counter is its level's occupancy, and the counters sum to the positions |
| WheelLaws.NoDuplicates | lion-timer-wheel/src/wheel.rs:167-215 | an id stands at most once in all slots |
| TimerWheels.TimerWheel.constructor | lion-timer-wheel/src/wheel.rs:284-356 | a new wheel is well formed and empty |
| TimerWheels.TimerWheel.WheelRemoveInner | lion-timer-wheel/src/wheel.rs:3115-3477 | takes exactly the id out of its slot, with every guard the code has |
| TimerWheels.TimerWheel.WheelInsertInner | lion-timer-wheel/src/wheel.rs:3479-3638 | appends the id to the slot its deadline belongs to at the given clock |
| TimerWheels.TimerWheel.Insert | lion-timer-wheel/src/wheel.rs:358-715 | map insertion, keeping the invariant, clock and empty pending |
| TimerWheels.TimerWheel.Remove | lion-timer-wheel/src/wheel.rs:717-842 | map removal, keeping the same |
| TimerWheels.TimerWheel.AdvanceTo | lion-timer-wheel/src/wheel.rs:1517-2981 | for a jump of any size: pending becomes exactly the timers due, the map is unchanged, the invariant holds at the new clock, and each timer moved at most once |
| TimerWheels.TimerWheel.TryPopExpired | lion-timer-wheel/src/wheel.rs:844-1410 | Some fires one due timer and nothing else changes; None means nothing is due, nothing is pending and the clock reached now |
| TimerWheels.TimerWheel.ScanLevelMin | lion-timer-wheel/src/wheel.rs:3640-3930 | the level's minimum, or None when the level is empty or wholly beyond the bound |
| TimerWheels.TimerWheel.ScanLevel3Min | lion-timer-wheel/src/wheel.rs:4108-4209 | the minimum of level 3 by exhaustive scan |
| TimerWheels.TimerWheel.ScanWheelMin | lion-timer-wheel/src/wheel.rs:3951-4106 | the minimum of all live deadlines, or None exactly when there are none |
| TimerWheels.TimerWheel.NextDeadline | lion-timer-wheel/src/wheel.rs:1416-1443 | the same through every path |
| WheelRuns.DrainAt | lion-timer-wheel/src/wheel.rs:844-1410 | try_pop_expired until None terminates, having listed exactly the due ids, each once, and left the others |
| WheelRuns.Play | lion-timer-wheel/src/wheel.rs:844-1410 | any run of insert, remove and drain on a new wheel: its map is the run's map, and an id fires in a drain if and only if that drain is the first to reach the deadline of its latest, not cancelled insertion |
| WheelRuns.PlayedOncePerInsertion | lion-timer-wheel/src/wheel.rs:844-1410 | in such a run, between two firings of an id lies an insertion of it |
| WheelRuns.PlayedUnlessCancelled | lion-timer-wheel/src/wheel.rs:844-1410 | in such a run, an inserted id that nobody cancels fires by the time a drain reaches its deadline |
| VecMaps.VecMap.GrowFront | lion-timer-wheel/src/vec_map.rs:167-187 | rebuilding with empty slots in front changes neither map nor count |
| VecMaps.VecMap.TakeAt | lion-timer-wheel/src/vec_map.rs:232-251 | takes one key out, count following |
| VecMaps.VecMap.Insert | lion-timer-wheel/src/vec_map.rs:253-346 | map insertion for every key order |
| VecMaps.VecMap.Remove | lion-timer-wheel/src/vec_map.rs:366-410 | map removal, with the old value if there was one |
| VecMaps.VecMap.Get | lion-timer-wheel/src/vec_map.rs:348-364 | map lookup |
| VecMaps.VecMap.ContainsKey | lion-timer-wheel/src/vec_map.rs:412-428 | whether the map has the key |
| VecMaps.VecMap.IsEmpty | lion-timer-wheel/src/vec_map.rs:430-456 | true exactly for the empty map |
| Window.OccupancyIsCardinality | lion-timer-wheel/src/vec_map.rs:12-114 | the number of occupied slots is the number of keys |
| Window.RotateGrows | lion-slab/src/slab.rs:57-71 | growing at the back and rotating right is growing at the front |
| Slabs.Slab.GrowFront | lion-slab/src/slab.rs:57-71 | resize and rotate changes the offset and not the map |
| Slabs.Slab.Insert | lion-slab/src/slab.rs:107-190 | map insertion for every key order |
| Slabs.Slab.Remove | lion-slab/src/slab.rs:244-282 | map removal, with the old value if there was one |
| Slabs.Slab.Get | lion-slab/src/slab.rs:193-205 | map lookup |
| TidLedgers.TidLedger.Contains | lion-executor/src/collections/tid_ledger.rs:51-66 | membership in the set of marked ids |
| TidLedgers.TidLedger.Mark | lion-executor/src/collections/tid_ledger.rs:68-137 | adds exactly one id, through word growth and shared words |
| TidLedgers.MarkOne | lion-executor/src/collections/tid_ledger.rs:68-137 | one bit set after growth by zero words changes the answer for exactly one id |
| ReactorModel.RegisterIsInsert | lion-reactor/src/handle.rs:65-82 | registering is map insertion under an id nobody else has, fresh or taken over; it fails only when ids ran out |
| ReactorModel.DeregisterIsRemove | lion-reactor/src/handle.rs:84-99 | deregistering is map removal, also for unknown, fired and already cancelled ids |
| ReactorModel.FlushedKeeps | lion-reactor/src/reactor/timer.rs:426-435 | flushing leaves the live timers unchanged and makes the wheel equal to them |
| ReactorModel.ParkFiresLiveDue | lion-reactor/src/proof/liveness_preservation.rs:91-130 | after a park no live timer is due, and only due live timers left |
| LazyCancel.LazyRefinesEager | lion-reactor/src/handle.rs:65-99 | on every run lazy and eager cancellation agree after each call if and only if no call cancels a dead handle whose id is live again |
| LazyCancel.CancelOnceAgrees | lion-reactor/src/handle.rs:65-99 | callers that cancel each handle at most once never see the difference |
| LazyCancel.StaleCancelHitsNewOwner | lion-reactor/src/handle.rs:84-99 | four calls after which the reactor has no timer and the eager machine has one |
| Reactors.Reactor.AllocResourceId | lion-reactor/src/alloc_verified.rs:19-97 | a new id each time, none once the counter is at 2^64 - 1 |
| Reactors.Reactor.RegisterTimer | lion-reactor/src/handle.rs:65-82 | carries out the registration in wheel and slab, taking the held id over when the deadline is the same |
| Reactors.Reactor.DeregisterTimer | lion-reactor/src/handle.rs:84-99 | flushes the held cancellation and holds the new one back if its timer is live |
| Reactors.Reactor.FlushPendingDeregister | lion-reactor/src/reactor/timer.rs:426-435 | removes the held timer from wheel and slab |
| Reactors.Reactor.ReplaceTimerWaker | lion-reactor/src/resource_slab.rs:808-816 | changes the waker of a timer slot and of nothing else, and says whether there was one |
| Reactors.Reactor.RegisterIo | lion-reactor/src/reactor/register.rs:20-205 | takes an id from the same counter and a slot only if the OS accepted the source |
| Reactors.Reactor.DeregisterIo | lion-reactor/src/reactor/register.rs:207-389 | removes exactly that slot and changes no timer |
| Reactors.Reactor.GetCurrentTime | lion-reactor/src/reactor/ext.rs:307-327 | neither before the reading nor before the wheel's clock, and one of the two |
| Reactors.Reactor.EffectiveTimeout | lion-reactor/src/reactor/park.rs:1008-1032 | exactly the least of the given timeout and the timers' distances from the clock; without timers the given timeout, even none |
| Reactors.Reactor.WakeExpiredTimers | lion-reactor/src/reactor/park.rs:117-376 | terminates, having woken exactly the due timers, each once and with its own waker, and removed them from wheel and slab |
| Reactors.Reactor.Park | lion-reactor/src/reactor/park.rs:940-1293 | one clock reading; the OS poll sleeps for exactly the least of the given timeout and the timers' distances from that clock, so for all of the timeout, or without end if there is none, on an empty wheel; every due timer fires |
| WakeModel.WakeReachesItsQueue | lion-executor/src/tls.rs:58-72 | a wake that goes through is appended to the ready queue of its source and to no other, and sets its bit |
| WakeModel.WakeLeavesWaiting | lion-executor/src/types/waker.rs:133-147 | a wake on the executor's thread, suppressed or not, leaves its known task in a ready queue, the local queue, or, if its waker defers, the deferred queue |
| WakeModel.CrossDrainedKeeps | lion-executor/src/tls.rs:191-199 | after the foreign queue is drained every foreign wake of a known task waits in a queue |
| ThreadLocal.Tls.SetNotified | lion-executor/src/tls.rs:30-46 | false exactly when the bit was set already; afterwards the bit is set and no other bit changed; the main future's id has no bit and is never suppressed |
| Suppression.OneNotificationQueuesOnce | lion-executor/src/tls.rs:30-72 | over any wakes, foreign drains and polls of other tasks, the ready queues gain a spawned task once at most, not at all if its bit was set at the start, and exactly once if a wake notified it and it was not |
| Suppression.MainFutureIsNeverSuppressed | lion-executor/src/tls.rs:30-33 | every such wake of the main future is queued, none suppressed or lost |
| Suppression.PollNotifiesExactly | lion-executor/src/executor/poll_task.rs:17-107 | after a poll a task's bit is set exactly if the future woke it or it was set and the task is not the one polled; the ready queues gained it accordingly |
| ThreadLocal.Tls.WakeImpl | lion-executor/src/types/waker.rs:133-147 | routes by thread, defer flag and source, with duplicate suppression |
| ThreadLocal.Tls.DrainCrossThread | lion-executor/src/tls.rs:191-199 | moves all foreign wakes, in order, through the notified bits |
| ExecLog.RecordPoll | lion-executor/src/executor/poll_task.rs:17-107 | polling the replayed head keeps queue, slab and ledger equal to what the log says |
| ExecLog.RecordPop | lion-executor/src/executor/ext.rs:189-243 | so does admitting a task that was not in the ledger |
| ExecLog.PollOkAt | lion-executor-spec/src/fifo_queue.rs:12-58 | every logged poll took the head of the queue replayed to its position, and was Invalid exactly for a completed task |
| ExecInvariant.PolledKeeps | lion-executor/src/executor/poll_task.rs:17-107 | a poll, whatever the future does, keeps the invariant and removes only the head |
| Outcomes.PollKeepsUnfinished | lion-executor/src/executor/poll_task.rs:17-107 | a poll leaves its task in the slab exactly when the future was there and not ready, touches no other task, and logs which case it was |
| Outcomes.OutcomesByFutures | lion-executor/src/executor/poll_task.rs:17-107 | over every run a poll is Invalid if and only if an earlier poll of that task found its future ready; any other poll is Ready if and only if its own future is |
| Outcomes.ReadyEndsItsTask | lion-executor/src/executor/poll_task.rs:17-107 | over every run a ready future's task leaves the slab with that poll and is Invalid ever after; a pending one is in the slab right after the poll |
| Outcomes.SlabByFutures | lion-executor/src/proof/invariants.rs:377-382 | in every reachable state the slab holds exactly the delivered tasks whose future was never found ready |
| ExecInvariant.TickKeeps | lion-executor/src/executor/tick.rs:450-744 | so does a whole tick |
| ExecInvariant.RunKeeps | lion-executor/src/proof/invariants.rs:365-473 | in every reachable state queue, slab and ledger match the log, no wake is lost, and the reactor is consistent |
| Budget.LoopSpends | lion-executor/src/executor/tick.rs:193-448 | a poll loop polls as often as its counter says, and stops with budget left only when every queue is empty and the last receive found no task |
| Budget.TickSpends | lion-executor/src/executor/tick.rs:450-744 | the two loops of a tick poll at most budget times together, and fewer times only if the tick ends idle |
| Causes.PollsHaveCauses | lion-executor/src/executor/tick.rs:450-744 | over every run the polls of a task and its entries left in the queues are at most its injection plus the wakes, deferrals and fired timers naming it |
| BoundedWaiting.TickServes | lion-executor/src/executor/tick.rs:193-448 | a tick polls index p of its queue if p is below the budget, and otherwise moves it forward by exactly the budget |
| BoundedWaiting.PolledWithinBound | lion-executor/src/executor/tick.rs:450-544 | the task at index p is polled within p / budget + 1 ticks, whatever is woken, deferred or spawned |
| WakeDelivery.WokenDuringPoll | lion-executor/src/executor/poll_task.rs:17-107 | a wake raised during a poll, the polled task's own included, leaves its task waiting or deferred after that poll |
| WakeDelivery.TickCalled | lion-executor/src/executor/tick.rs:450-544 | a task waiting when a tick begins is polled in it or still waits at its end |
| WakeDelivery.ServedByPark | lion-executor/src/executor/park.rs:13-93 | a task waiting when a tick begins is polled before the tick's park or stands in the local queue right after it |
| WakeDelivery.LoopRaises | lion-executor/src/executor/tick.rs:193-448 | a wake raised by any event of a poll loop is answered by the loop's end: its task still waits, or was polled after that event |
| WakeDelivery.ParkRaises | lion-executor/src/executor/park.rs:13-93 | whomever a park's timers or arrivals wake stands in the local queue right after it |
| WakeServed.EveryWakeServed | lion-executor/src/tls.rs:30-72 | for every event of every run, by log position, and every task injected before it: if the event wakes the task, by a poll, the main future, another thread, a fired timer or a deferral, suppressed or not, the task is polled after that event, before the next park or within p / budget + 1 ticks of its index p right after it |
| QueueOrder.KeptIsSifted | lion-executor/src/executor/ext.rs:323-365 | a drain keeps each known id as often as it was there, no other id, and their order |
| QueueOrder.AheadIsPolledFirst | lion-executor-spec/src/fifo_queue.rs:12-58 | whoever stands ahead in the queue is polled first, in every log whose polls take the replayed head |
| WakeOrder.WakeGoesBehind | lion-executor/src/tls.rs:58-72 | a wake of a known task that waits nowhere puts it behind the queue and everybody woken from its source |
| WakeOrder.DrainedInOrder | lion-executor/src/executor/park.rs:13-93 | once both ready queues are drained, whoever was ahead in line stands ahead in the local queue |
| WakeOrder.WokenInOrder | lion-executor/src/executor/poll_task.rs:17-107 | two tasks that one poll wakes from one source, neither notified before, are first polled in wake order over the rest of the run, unless something defers the second |
| DrainOrder.ForeignArrivalsInOrder | lion-executor/src/types/waker.rs:133-147 | wakes by other threads stand in the foreign queue in the order of their arrival |
| DrainOrder.ForeignWakesInOrder | lion-executor/src/tls.rs:191-199 | two known tasks among the foreign wakes stand in the local queue after the drains, and are first polled, in that order, whatever follows |
| DrainOrder.FiredTimersInOrder | lion-reactor/src/reactor/park.rs:117-376 | two timers that fire in one park put their tasks in the local queue in that order |
| TimerLiveness.ParkSetOrFires | lion-reactor/src/reactor/park.rs:940-1293 | a park fires a set timer if and only if its clock reached the deadline, and then its task stands in the local queue |
| TimerLiveness.FiresWithin | lion-reactor-spec/src/contracts/bounded_timer_wakeup.rs:166-176 | with ever larger clock readings a timer fires within deadline minus clock ticks |
| TimerRegistration.RegisteredTimerServed | lion-executor/src/executor/park.rs:13-93 | end to end, from the effect of a poll that registers the timer: the first park whose clock reaches the deadline comes within deadline minus clock ticks of that poll's tick, and the task is polled within p / budget + 1 further ticks |
| TimerLiveness.RegisteringSets | lion-reactor/src/handle.rs:65-82 | registering in the executor sets the timer under the returned id |
| CancelledTimers.CancelRemoves | lion-reactor/src/handle.rs:84-99 | cancelling in the executor removes exactly that live timer and touches nothing but the timers |
| CancelledTimers.ParkSkipsDead | lion-reactor/src/reactor/park.rs:117-376 | a park fires no id that was given out and names no live timer |
| CancelledTimers.CancelledNeverFires | lion-reactor/src/handle.rs:84-99 | over every run, if a poll cancels a timer and no later registration is handed its id, no later park fires it, that of the same tick included |
| TickGrammar.TickShape | lion-executor/src/proof/preservation.rs:9-40 | a tick appends begin, deferred drain, pops, polls, one park, reactor and task drains, polls, end, in that order |
| TickGrammar.EveryRunIsGrammatical | lion-executor/src/proof/invariants.rs:46-146 | every run's log has properties E1 to E9 at each tick boundary |
| Injection.AllPoppedExact | lion-executor/src/executor/tick.rs:21-190 | one call admits exactly the fresh ids at the front of the channel, in order |
| Injection.PopEmptiesExactly | lion-executor/src/executor/tick.rs:21-190 | it empties the channel if and only if no duplicate stands before the last id, and delivers all of it if and only if all are new |
| Injection.DuplicateStopsEarly | lion-executor/src/executor/ext.rs:189-243 | an id seen before stops the call where it stands, and leaves the tasks behind it in the channel |
| Sends.RunSends | lion-executor/src/handle.rs:29-36 | over every run what was sent is what the environment spawned at the run's events, in order |
| Sends.SendsAreDelivered | lion-executor-spec/src/injection_schedule.rs:33-58 | delivered ids and channel together are all that was spawned, in order, repetitions apart |
| Injection.DeliveredInSendOrder | lion-executor-spec/src/injection_schedule.rs:33-58 | over any run no id is delivered twice, and with distinct ids what was delivered is a prefix of what was sent |
| SpawnToPoll.SpawnedTaskPolled | lion-executor/src/executor/tick.rs:21-190 | the task at position c of the channel enters the queue in that tick, behind those in line, and is polled within its index / budget + 1 ticks |
| Injection.NeverPolledAfterReady | lion-executor/src/executor/poll_task.rs:17-107 | over any run every poll after Ready is Invalid |
| Injection.SlabIsUnfinished | lion-executor/src/proof/invariants.rs:377-382 | in every reachable state the slab holds exactly the tasks delivered and not completed |
| Spawning.SpawnIdsDistinct | lion-executor/src/handle.rs:29-36 | spawn ids are distinct if and only if there were at most 2^64 |
| Spawning.SpawnIdsAvoidMain | lion-executor/src/handle.rs:29-36 | no task gets the main future's id if and only if there were fewer than 2^64 - 1 spawns |
| Spawning.InnerHandle.Spawn | lion-executor/src/handle.rs:29-36 | sends the counter's value, advances it, wrapping, and interrupts the OS poll |
| ParkSleep.SleepsExactlyWhenIdle | lion-executor/src/executor/park.rs:13-93 | the park asks for a sleeping poll if and only if every queue is empty after the foreign drain and the main future did not yield |
| Yields.YieldKeepsNextParkAwake | lion-executor/src/executor/park.rs:13-93 | over every run a park stays awake for the main future exactly if that yielded since the park before |
| ParkSleep.ForeignArrivalInterrupts | lion-reactor/src/types/interrupt_handle.rs:21-29 | every foreign wake or spawn after the flag's reset signals the OS poll |
| ParkSleep.FlagOutlivesPoll | lion-reactor/src/types/interrupt_handle.rs:21-29 | after the OS poll took the signal the flag is set if and only if something arrived since the reset |
| ParkSleep.SpareBudgetEmptiesChannel | lion-executor/src/executor/tick.rs:193-448 | when a poll loop ends with budget left its last receive found the channel empty, when ids are distinct |
| Oversleep.OversleepsExactly | lion-executor/src/executor/park.rs:13-93 | a park sleeps unsignalled on a task in the channel if and only if the interrupt flag was stale when the tick began, nothing arrived since the reset, every queue is empty, and a task was spawned after the last receive; a spawn by a poll needs the budget used up |
| Oversleep.StaleExactly | lion-reactor/src/types/interrupt_handle.rs:21-29 | a tick leaves the flag stale if and only if something arrived between its park's reset and the end of its OS poll |
| Oversleep.OversleepsInRuns | lion-executor/src/executor/park.rs:13-93 | the same condition, in terms of what the environment did at this park and the one before, for every run |
| Oversleep.OversleepsOnForeignSpawn | lion-executor/src/executor/park.rs:13-93 | for every budget a run from the initial state whose second park sleeps, budget left, on a task another thread spawned before the reset |
| Oversleep.OversleepsOnOwnSpawn | lion-executor/src/executor/park.rs:13-93 | for every budget a run from the initial state whose second park sleeps on a task spawned by the last poll the budget allowed |
| Executors.Executor.FilterAndEnqueue | lion-executor/src/executor/ext.rs:323-365 | appends the ids in the ledger, each as often as it is given, from strictly ascending indices, and no other |
| Executors.Executor.PopInjectionAction | lion-executor/src/executor/ext.rs:189-243 | receives one task, dropping and logging as empty one that was seen before |
| Executors.Executor.PopInjection | lion-executor/src/executor/tick.rs:21-190 | receives until a receive yields nothing, and terminates |
| Executors.Executor.NextTask | lion-executor/src/executor/next_task.rs:13-219 | the head of the queue after the three paths: local, drains, one injection |
| Executors.Executor.PollTask | lion-executor/src/executor/poll_task.rs:17-107 | logs Ready and drops the task if and only if the future is ready, else logs Pending and keeps it; a task not in the slab is logged Invalid; the bit is cleared first |
| Executors.Executor.PollLoop | lion-executor/src/executor/tick.rs:193-448 | polls until the shared budget is used up or nothing is runnable, keeping the invariant |
| Executors.Executor.Park | lion-executor/src/executor/park.rs:13-93 | prepares, parks the reactor, drains both ready queues; the timers fired are exactly those due; it does not sleep if anything was ready, and otherwise sleeps until the earliest flushed deadline, or 100 ms if none is nearer |
| Executors.Executor.Tick | lion-executor/src/executor/tick.rs:450-744 | one tick, keeping the invariant; the timers fired are exactly those due at its park |

## Left out

- VecMap: the wheel keeps its deadlines and positions in map fields; that `VecMap` refines a map is proved on its own class, so aliasing between the two is not modelled.
- Slab: the executor's task slab is its set of keys, since a future is only its id here; the resource slab is a `Slab` object.
- TimerWheels.TimerWheel.AdvanceTo: the source's three nested loops are one method per loop (`DrainLevel`, `DrainSlot`, `HandleDrained`); order and effect of the steps are the same.
- Executors.Executor.PollLoop: the source unrolls the first iteration of the loop; the model does not.
- Executors.Executor.PopInjection: arrivals on the channel come before or after this call and not inside it, which is the source's own finite-arrival condition for its termination.
- Oversleep.OversleepsExactly: for distinct ids, which `spawn` gives for its first 2^64 tasks; a repeated id can leave a task in the channel by stopping the receive early, as `Injection.DuplicateStopsEarly` says.
- Reactors.Reactor.TryRegister: the reactor's `register_timer` demands a deadline ahead of the clock of its callers; a future's registration that does not meet this is modelled as not made.
- LazyCancel.LazyRefinesEager: runs of fewer than 2^64 - 2 calls; beyond that ids can run out and `ReactorModel.RegisterIsInsert` covers the refusal.
- IO readiness, read and write wakers, and tokens: park's IO wakes appear as arbitrary arrivals after the timers fired; IO slots exist only as ids the timers must not collide with.
- OS polling and its errors, mio, sockets, the clock: the clock is an input of each park, and both outcomes of the poll fire the same timers.
- The reactor's ghost log: what its properties say about registrations and firings is stated on the state and the runs.
- Futures, waker vtables, join handles, the blocking pool, `block_on`: a poll is an outcome and a list of effects; the main future's effects are those at the start of a tick.
- The disabled id recycling in alloc_verified.rs: dead code.
