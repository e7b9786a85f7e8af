# cpp-csp in Dafny

cpp-csp is a C++11 library of communicating processes.  Its primitives are monitors: fields
guarded by a mutex, one condition variable, and calls of `wait` without a predicate.  Whether
such a monitor works depends on all the ways its critical sections can interleave, and that is
what is proved here, together with what the process networks built on the primitives promise.

The project has two layers.

* **Monitors.**  Each critical section, from taking the lock to releasing it or to `wait`, is a
  method of a class with the fields of the source object, proved equal to a function from old
  fields to new fields, notification and outcome.  These functions are the atomic steps of a
  system (`Step`) in which any number of processes run, with the wait set, the set of processes
  notified but not yet resumed (`Condvar`), and histories of what was sent and received.
  Statements about every run are statements about every finite sequence of events (`Runs`).
* **Protocols.**  The dining philosophers, the work farm, `pairs` and the merge network are
  systems whose steps are communications on ideal rendezvous channels, which is what the first
  layer proves of the channel.  A merge reads and writes in an order its inputs determine, so it
  is also a function from streams to streams, and its loop a method proved to compute it.

| file | what it models |
|---|---|
| `Runs`, `Condvar`, `Sets`, `Sums` | runs of step systems, the condition variable, counting |
| `BasicChan`, `Rendezvous`, `ChannelSystem`, `ChannelProgress` | the unbuffered channel, what it refines, and that nobody is kept at it |
| `Ends` | what a program sees of poison through the `noexcept` output ends |
| `AltCore`, `Alt`, `AltBarriers`, `AltChan`, `AltSystem`, `AltProgress`, `AltHistory`, `Fairness` | choice: the loops, barriers among the guards, the concurrent protocol over both kinds of channel, that it gets somewhere and what its runs select, fairness |
| `Barrier`, `Par`, `ParTogether` | the barrier, the reused threads of `par`, and that they run in parallel |
| `AltingBarrier`, `AltingBarrierSystem`, `AltingBarrierSteps` | multiway synchronisation, its coordinator, and who can do what |
| `AltingBarrierDoom`, `AltingBarrierPrograms`, `AltingBarrierProgress` | how resigning can block everybody, which programs are safe, and that rounds end otherwise |
| `DataStore`, `BufferedChan`, `BufferedProgress` | the stores and the buffered channel |
| `Philosophers`, `Farm`, `Pairs` | process networks |
| `Merge`, `MergeAsWritten`, `MergeNetwork` | merging streams: as meant, as written, and as processes |

## Where the code does not do what it says

The code is modelled as it stands, but for the alting barriers, which cannot be used as they are
written; where it breaks what the documentation promises, a theorem says exactly when it does,
and the intended version is proved beside it.

* `csp/alt.h:817-842` and `890-915`: the second disable loop is nested in a copy of itself.
  Selection stays sound and nothing stays registered, but the rotation is lost: fair selection is
  fair to guards 0 and 1 only (`Fairness.FairAsWrittenExactlyWhen`).
* `csp/alt.h:972`: with preconditions `_next` is not moved on, and selection is fair to hardly any
  guard (`Fairness.GuardedIsFairExactlyWhen`).
* `csp/chan.h:1143-1149`: `_hold[0]` is taken before the poison check
  (`ChannelSystem.PoisonFaultsExactlyWhen`).
* `csp/chan.h:824`, `831` and `887`: the output ends are `noexcept`, while the monitor's `write` throws
  when poisoned, so a writer that meets poison ends the program instead of catching the exception
  that `csp/poison_exception.h:36-41` promises (`ChannelEnds.PoisonEndsTheProgramExactlyWhen`,
  `BufferedEnds.PoisonEndsTheProgramExactlyWhen`).  The theorems about the monitor say what would
  follow if the ends let the exception through.
* `csp/chan.h:1260-1286` and `1540-1570`: poison of strength 0 wakes everybody without poisoning
  (`ChannelSystem.ZeroPoison`, `BufferedSystem.ZeroPoisonIsSafeExactlyWhen`).
* `csp/chan_data_store.h:587`: `get` returns the front value and removes the back one
  (`DataStore.DeliversInOrderExactlyWhen`).  A plain buffer of size 0 is never full
  (`BufferedSystem.CapacityHoldsExactlyWhen`).
* `csp/plugnplay/merge.h:71`: the second value is refilled from the first input
  (`MergeAsWritten.AsWrittenIsRightExactlyWhen`, `MergeAsWritten.UncorrectedNetworkIsRightExactlyWhen`).
* `csp/plugnplay/delta.h:86-89`: the sequential variant blocks `pairs`
  (`Pairs.NeverSticksExactlyWhen`).
* `csp/barrier.h:119-126`: `reset` ignores who is waiting (`BarrierSystem.ResetIsSafeExactlyWhen`).
* `csp/alting_barrier.h:334` and `672`: inverted conditions
  (`AltingBarrier.EnrolledAreTurnedAway`, `AltingBarrier.LeavingCompletes`); `csp/alt.h:239`, `852`
  and `925`: the trigger flag is never set and `finish_enable` stands for `finish_disable`
  (`AltingBarrier.WrongFinish`).  With all of these corrected multiway agreement holds, but
  `resign` still waits for the coordinator with the barrier's mutex held
  (`AltingBarrierDoom.StepDoomsExactlyWhen`, `AltingBarrierPrograms.NeverDoomedExactlyWhen`).
* Recorded only: the inverted conditions at `csp/alting_barrier.h:543` and `563` and the wrong loop
  counter at `462`, the inverted `_reading` condition at `csp/chan.h:1195` and `1473`, and the guard at
  `csp/skip.h:45` and `55` that is documented as always ready and answers false.

## Assumptions

* No spurious wakeups: the waits have no predicate, and section 30.5.1 of ISO/IEC 14882:2011
  allows them, so without this assumption the guarantees fail.
* An unshared channel end has one user; shared ends serialise theirs with their own mutex.
* A selecting process is the only user of the reading ends it selects over.  A buffer that drops
  values has room for one (`BufferedSystem.FaultsExactlyWhen` says why).
* Poison has positive strength, except in the theorems about strength 0.
* Barrier users are enrolled, and enrol, `sync` or `resign` only when not already waiting; fewer
  than 2^32 are enrolled.  An alt uses only alting barriers it is enrolled in, and enrols or resigns
  between selections.
* The processes run by `par` terminate.

## Model

| member | source | states |
|---|---|---|
| `BasicChan.BasicChannel.EnterWrite` | csp/chan.h:1091-1115 | the critical section of `write` up to `wait`: throws when poisoned, otherwise appends to `_hold` and either marks the channel full and schedules the alt or notifies the waiting reader |
| `BasicChan.BasicChannel.ResumeWrite` | csp/chan.h:1115-1119 | after the wait `write` throws exactly when the channel is poisoned |
| `BasicChan.BasicChannel.EnterRead` | csp/chan.h:1126-1137 | the critical section of `read` up to `wait` |
| `BasicChan.BasicChannel.ResumeRead` | csp/chan.h:1137-1152 | takes the held value and notifies one, in the order of the code (`_hold[0]` before the poison check) or in the order that `write` uses |
| `BasicChan.BasicChannel.Enable` | csp/chan.h:1212-1230 | registers the alt and answers not ready exactly for an empty, unpoisoned channel |
| `BasicChan.BasicChannel.Disable` | csp/chan.h:1236-1243 | deregisters the alt and answers whether there is something to select |
| `BasicChan.BasicChannel.BePoisoned` | csp/chan.h:1260-1286 | sets the strength, notifies everybody, and a poisoning writer schedules a registered alt |
| `ChannelSystem.RunKeepsInv` | csp/chan.h:1091-1152 | in every state any number of writers and readers can reach, the one `_empty` bit and the condition variable are in one of three configurations: nobody blocked, a writer blocked, a reader blocked |
| `ChannelSystem.Delivery` | csp/chan.h:1091-1152 | for every run: what was read is a prefix of what was written with at most one value in flight, `_hold` has at most one element, at most one process is in the wait set, and a writer and a reader inside together are never both asleep |
| `ChannelSystem.WriteReturnsAfterRead` | csp/chan.h:1115-1119 | a `write` that returns normally returns after its own value was read |
| `ChannelSystem.Simulation` | csp/chan.h:1091-1152 | every critical section is a (possibly empty) piece of a rendezvous |
| `ChannelSystem.Refines` | csp/chan.h:1091-1152 | every run of the channel that does not fault is a run of the abstract rendezvous |
| `Rendezvous.ValuesPassOnce` | csp/chan.h:1091-1152 | in every run of the rendezvous each value that passes is received once and in order, and a writer leaves with its value passed |
| `ChannelProgress.EverybodyGoesOn` | csp/chan.h:1091-1152 | whoever has an end of the channel can take its critical section, and whoever is inside goes on if and only if it has been notified |
| `ChannelProgress.FreeEndsCanBeUsed` | csp/chan.h:431-437 | a free end can be taken, enabled, disabled and poisoned |
| `ChannelProgress.EveryMeetingIsHeld` | csp/chan.h:1091-1152 | when a writer with a value and a reader are at an unpoisoned channel, their own steps, four at the most and in any order, bring both out, the reader with the value and the writer acknowledged |
| `ChannelSystem.PoisonIsFinal` | csp/chan.h:1097-1150 | in the monitor, once it is poisoned, nobody is blocked, everybody inside can leave, and no step transfers or acknowledges a value |
| `ChannelSystem.PoisonIsFinalForRuns` | csp/chan.h:1260-1286 | the same over every continuation |
| `ChannelProgress.PoisonReachesEverybody` | csp/chan.h:1097-1150 | after poison, in any continuation, every critical section of `write` and `read` ends with the exception and the strength of the last poison; as written only a reader that finds nothing in the hold after its wait faults before that |
| `ChannelSystem.PoisonFaultsExactlyWhen` | csp/chan.h:1143-1149 | poisoning can lead to `_hold[0]` of an empty vector if and only if the reading order is the one written, the writing end poisons, and a reader is blocked at that moment; poison by a reader never does |
| `ChannelSystem.LiveChannelsDoNotFault` | csp/chan.h:1143-1149 | without poison `_hold[0]` always exists |
| `ChannelSystem.ZeroPoison` | csp/chan.h:1260-1286 | after poison of strength 0 some continuation acknowledges more writes than were read, or faults without poison, if and only if somebody was blocked; a blocked writer returns without its value having been read, a blocked reader faults |
| `ChannelSystem.PoisonedReaderFaults` | csp/chan.h:1143-1149 | a run from the start in which a reader blocked when the writing end poisons faults |
| `ChannelSystem.ZeroPoisonedReaderFaults` | csp/chan.h:1260-1267 | a run from the start in which a reader blocked when the writing end uses strength 0 faults, in either order |
| `ChannelSystem.ZeroPoisonedWriterReturns` | csp/chan.h:1260-1267 | a run from the start in which a writer blocked when the reading end uses strength 0 returns though nobody has read its value |
| `ChannelEnds.EndsExactlyWhenAWriterGoesOn` | csp/chan.h:887-893 | after poison the program ends if and only if a writer inside `write` goes on or another one enters, because the output ends are `noexcept` |
| `ChannelEnds.PoisonEndsTheProgramExactlyWhen` | csp/chan.h:824-831 | poisoning a channel can end the program without another writer coming if and only if the reading end does it while a writer is inside `write` or holds the end to enter it |
| `ChannelEnds.NewcomerEndsTheProgram` | csp/chan.h:1097-1098 | the first writer that comes to a poisoned channel ends the program |
| `AltCore.DisableOrderCovers` | csp/alt.h:783-854 | whatever stopped the enabling, the disable loops as written reach every guard that may be registered |
| `Alt.AltInternal.RegisterTimeout` | csp/alt.h:246-266 | the earlier alarm and its guard are kept |
| `Alt.DueIsTheFirst` | csp/alt.h:246-266 | the deadline is that of the timer asked first among those with the earliest alarm |
| `Alt.AltInternal.EnableUnready` | csp/timer.h:68-74 | enabling a timer that has not expired registers its alarm |
| `Alt.AltInternal.EnableSpan` | csp/alt.h:667-710 | one enable loop finds the first guard of its span that answers ready and registers the timers before it; it records a completed barrier or ends the turn of the coordinator |
| `Alt.AltInternal.EnableGuards` | csp/alt.h:720-781 | both loops together ask in the rotated order from `_next`; the barrier that stopped them is recorded, and the coordinator is asked to start, and to finish unless one was, if there are barriers |
| `Alt.AltInternal.DisableDown` | csp/alt.h:898-911 | one backward loop: the last guard to answer ready overrides the selection, a completed barrier is recorded, and a second one makes it throw |
| `Alt.AltInternal.DisableFirst` | csp/alt.h:862-888 | the first disable loop, and where the second one starts |
| `Alt.AltInternal.NestedDisable` | csp/alt.h:890-915 | the loop nested in a copy of itself asks all guards once per turn of the outer loop |
| `Alt.AltInternal.DisableGuards` | csp/alt.h:856-927 | asks exactly the guards of `DisableOrder`, throws if and only if a second barrier completed, and selects the barrier found or else the last guard that answers ready or the timer it fell back on; a barrier found ends with a call of the coordinator |
| `Alt.AltInternal.DoSelect` | csp/alt.h:609-655 | selects what `Chosen` says: a completed barrier, otherwise the last guard to answer ready or the timer it falls back on; says which calls it makes of the coordinator and leaves the alt inactive without a timeout |
| `Alt.AltInternal.PriSelect` | csp/alt.h:948-955 | selection with `_next` reset to 0 |
| `Alt.AltInternal.FairSelect` | csp/alt.h:957-964 | selection from the old `_next`, and the next one |
| `Alt.AltInternal.FairSelectGuarded` | csp/alt.h:966-974 | the same with preconditions, where `_next` stays at the guard chosen, and would be left at -1 if there were none |
| `Alt.LastYesDecides` | csp/alt.h:817-842 | in any order of asking the selection is the last guard that answered ready |
| `AltBarriers.BarrierComesFirst` | csp/alt.h:848-927 | a selection fails if and only if two completed barriers are found, chooses a single one whatever else is ready, and without any chooses as ever |
| `AltBarriers.EnablingGivesTheTurnBack` | csp/alt.h:657-781 | with the trigger flag repaired an enable sequence passes all checks of the coordinator and frees it, or leaves it to the members of the barrier it completed; as written it passes them after a completion if and only if the barrier has one member |
| `AltBarriers.SelectionPaysOnce` | csp/alt.h:848-853 | a selection that chose a barrier takes one off the count at its end, and one that did not leaves it alone |
| `AltCore.SinglePassGoesBack` | csp/alt.h:817-842 | the disable loops without the nesting ask exactly what enabling asked, backwards |
| `AltCore.BothLeaveNothing` | csp/alt.h:783-854 | the nested loops and a single pass leave the same registrations, none |
| `Alt.PriSelectIsLeast` | csp/alt.h:940-955 | when readiness only grows, priority selection chooses an enabled guard, and every smaller enabled guard had answered not ready when it was last asked |
| `Alt.PrioritySameAsSinglePass` | csp/alt.h:817-842 | from `_next` = 0 the nested loops select what a single backward pass would that hears the last answer of each guard |
| `Alt.SinglePassPicksFirst` | csp/alt.h:817-842 | a single backward pass selects the first ready guard in the rotated order |
| `Alt.SinglePassStopsAt` | csp/alt.h:817-842 | whatever the others answer, a single pass chooses no guard beyond one that stays ready, in the rotated order |
| `Alt.NestedStopsAt` | csp/alt.h:817-842 | whatever the others answer, the loops as written choose `_next` or a guard not above one that stays ready |
| `Alt.SelectionAsWritten` | csp/alt.h:783-846 | with steady readiness the nested loops choose guard `_next` if it is ready and the least ready guard otherwise |
| `Fairness.PickIsSelection` | csp/alt.h:657-854 | when readiness stands still, the nested loops choose `_next` if it is ready and the least ready guard otherwise, and a single backward pass the first ready guard in the rotated order |
| `Fairness.RotationKeptExactlyWhen` | csp/alt.h:817-842 | the nested loop keeps the rotated choice if and only if `_next` is ready, or nothing beyond it is, or nothing before it is |
| `Fairness.IntendedIsFair` | csp/alt.h:957-964 | with a single backward pass a guard that is ready throughout is selected within n + 1 selections from any `_next`, whatever the others answer at any time |
| `Fairness.FairAsWrittenExactlyWhen` | csp/alt.h:817-842 | as written the same holds for guard g if and only if g <= 1; any other guard can starve for ever from the initial state |
| `Fairness.GuardedSelectRepeats` | csp/alt.h:972 | with preconditions the guard `_next` stands at is chosen in every selection as long as it is ready, whatever the others answer |
| `Fairness.GuardedIsFairExactlyWhen` | csp/alt.h:972 | selection with preconditions is fair from `_next` to guard g if and only if `_next` is g, or is past the last guard and g is 0; any other can starve for ever |
| `Fairness.GuardedIsHardlyFair` | csp/alt.h:972 | from the initial `_next` it is fair to guard 0 only, and from every `_next` to no guard at all unless there is only one |
| `AltSystem.RunKeepsInv` | csp/alt.h:562-607 | the invariant of an alt running with concurrent writers and poisoners, over every interleaving of critical sections and unlocked assignments |
| `AltSystem.NoLostWakeup` | csp/alt.h:562-607 | while the alt sleeps unnotified every channel it enabled is registered to it, empty and unpoisoned, or a process is about to call `schedule` |
| `AltProgress.WritersGetIn` | csp/chan.h:1091-1115 | a writer gets in if and only if nobody is at its end; its value is last in the channel, and it waits, is done, or is about to call `schedule` |
| `AltProgress.WriteWakesTheSleeper` | csp/chan.h:1102-1107 | a write to a channel that a sleeping alt has enabled is possible, wakes the alt through `schedule`, and is the value it will find there |
| `AltProgress.PoisonWakesTheSleeper` | csp/chan.h:1260-1286 | and so does poison by a writer |
| `AltProgress.TimeWakesTheSleeper` | csp/alt.h:620-632 | a sleeping alt with an enabled timer can be woken by its time |
| `AltProgress.ScheduleWakes` | csp/alt.h:976-994 | `schedule` wakes a sleeping alt, marks an enabling one ready, and changes nothing else |
| `AltProgress.OthersGoOn` | csp/chan.h:1091-1286 | exactly when those around the alt can take each of their steps |
| `AltProgress.PoisonReleases` | csp/chan.h:1260-1286 | poison releases a waiting writer, keeps the values, and leads to `schedule` if and only if a writer poisons a registered channel |
| `AltSystem.SleeperCanBeWoken` | csp/alt.h:976-994 | a sleeping alt with an enabled ready guard can be woken by one step |
| `AltSystem.SelectingProceeds` | csp/alt.h:562-607 | outside its sleep a selecting alt is never stuck |
| `AltProgress.SelectingWaitsForLittle` | csp/alt.h:562-607 | exactly when the selecting process can take each of its steps: it waits for the lock of the channel it turns to, and asleep to be woken |
| `AltProgress.SelectionTakesFewSteps` | csp/alt.h:562-607 | from any state of a selection the selecting process takes a bounded number of steps, whatever the others do in between |
| `AltProgress.SelectionsBegin` | csp/alt.h:562-565 | a selection with any preconditions can begin when none is under way, and is over after at most n^2 + 2 n + 6 steps of its own |
| `AltSystem.UnlockedResetIsSafe` | csp/alt.h:562-565 | where `_state` is set to ENABLING and to INACTIVE without the lock, no channel has the alt registered and no `schedule` is under way |
| `AltSystem.UnlockedReadyIsHarmless` | csp/alt.h:673 | the third unlocked assignment, of READY with guards registered, commutes with a `schedule` under way |
| `AltSystem.SelectionIsSound` | csp/alt.h:783-846 | the index is in range and enabled, its channel or timer is ready, no registration is left, and the read that follows does not block |
| `AltProgress.TakeTakesTheFront` | csp/chan.h:1126-1152 | the read after a selection takes the front value of the selected channel, notifies its waiting writer, and leaves the others alone |
| `AltSystem.ReadinessGrows` | csp/alt.h:562-607 | during a selection no step of anybody makes a ready guard unready |
| `AltSystem.FallbackIsNeverUsed` | csp/alt.h:844-846 | `_timer_index` is never needed: when disabling is over some guard has answered ready |
| `AltSystem.EarliestAlarm` | csp/alt.h:246-266 | a sleeping alt waits for the earliest alarm of its enabled timers |
| `AltHistory.WatchingIsFree` | csp/alt.h:562-607 | recording the answers given in a run does not change the run |
| `AltHistory.RunsSelect` | csp/alt.h:562-607 | the selection made in a run is the one the loops compute from the answers given, and the answers only ever grew |
| `AltHistory.PriorityInRuns` | csp/alt.h:940-955 | in every run, a selection begun with `_next` = 0 leaves only smaller guards that were not ready when last asked |
| `AltHistory.ReadyGuardsLimitTheChoice` | csp/alt.h:783-846 | in every run, a guard ready when the selection begins answers ready whenever asked, and limits the choice as in `Alt.NestedStopsAt` |
| `Barrier.BarrierInternal.EnterSync` | csp/barrier.h:66-82 | the critical section of `sync`, with unsigned wrap-around |
| `Barrier.BarrierInternal.Enroll` | csp/barrier.h:87-94 | both counters are incremented |
| `Barrier.BarrierInternal.Resign` | csp/barrier.h:99-112 | both counters are decremented and a completed round is announced |
| `Barrier.BarrierInternal.Reset` | csp/barrier.h:119-126 | both counters are overwritten |
| `BarrierSystem.CountersAreExact` | csp/barrier.h:66-112 | in every reachable state `_count_down` is the number of enrolled processes yet to arrive, and neither counter is 0 when it is decremented |
| `BarrierSystem.NobodyLeavesEarly` | csp/barrier.h:66-82 | whoever leaves `sync` arrived in a round that was completed with everybody then enrolled having arrived, however fast others re-enter |
| `BarrierSystem.RoundEndsExactlyWhen` | csp/barrier.h:66-112 | a step ends the round if and only if it leaves every enrolled process arrived, and it releases exactly those who wait |
| `BarrierSystem.NeverAllBlocked` | csp/barrier.h:66-112 | some enrolled process is outside `sync` or about to leave it |
| `BarrierSystem.EverybodyGoesOn` | csp/barrier.h:66-112 | exactly when a process can sync, resign, leave and enrol: it waits for the end of the round only |
| `BarrierSystem.OnlyOwnPlaceChanges` | csp/barrier.h:66-112 | a released process leaves alone, and only the one that enrols or resigns joins or goes |
| `BarrierSystem.RoundsCanEnd` | csp/barrier.h:66-82 | from every reachable state with members some more steps complete a round |
| `BarrierSystem.ResetIsSafeExactlyWhen` | csp/barrier.h:119-126 | after `reset`, to any new members, no round is ever completed again and nobody released, and all the members can come to be blocked, if and only if a new member was blocked in `sync` |
| `BarrierSystem.LeftOutWaitsForTheirRound` | csp/barrier.h:119-126 | a process blocked in `sync` that `reset` leaves out stays blocked until the new members complete a round, and is released by it |
| `BarrierSystem.ResetStrandsBoth` | csp/barrier.h:119-126 | a run of two processes in which that happens |
| `Par.OncePerRun` | csp/par.h:209-280 | over any number of runs: when the k-th `run` has returned each process has completed exactly k times, and during a run at most once more |
| `ParTogether.AllRunAtOnce` | csp/par.h:267-280 | from the beginning of every run some steps lead to a state in which all n processes have started and none has ended |
| `ParTogether.ReleasedBeforeOwnProcess` | csp/par.h:267-276 | the main thread does not run its own process before every worker has been let go |
| `ParTogether.EverybodyGoesOn` | csp/par.h:411-424 | a worker outside the barriers can always go on, and one inside if and only if it has been notified |
| `ParTogether.MainGoesOn` | csp/par.h:209-280 | and so can the main thread |
| `ParTogether.OwnThreadCompletes` | csp/par.h:209-280 | a process is completed by its own thread only, from inside the process |
| `Par.NoEarlyStart` | csp/par.h:411-424 | a worker inside its process belongs to the run that has begun and not returned |
| `Par.ReleaseEndsWorkers` | csp/par.h:190-204 | when the destructor is done every started worker loop has ended |
| `Par.NeverStuck` | csp/par.h:190-280 | neither `run` nor the destructor can get stuck, in any interleaving |
| `Par.InternalStepsDecrease` | csp/par.h:209-280 | every step of a run or of the destructor decreases a measure |
| `Par.RunTerminates` | csp/par.h:209-280 | whatever the scheduler does, the steps of a `run` or of the destructor can be continued until it is over, and are never more than 27 n + 10 |
| `Philosophers.PhilosophersAreSafe` | demos/diningphil.cpp:20-62 | in every reachable state a fork is held by at most one neighbour, neighbours never eat together, and `sitting` counts the seated philosophers and stays within the limit |
| `Philosophers.ChainOfRightForks` | demos/diningphil.cpp:64-71 | if nothing can move then, going round from a thinking philosopher, whoever sits holds its right fork only |
| `Philosophers.SecurityPreventsDeadlock` | demos/diningphil.cpp:51-62 | with a place left empty somebody can always move |
| `Philosophers.DeadlockFreeExactlyWhen` | demos/diningphil.cpp:58 | for every n >= 2 the table is free of deadlock if and only if the limit lets at least 1 and at most n - 1 philosophers sit |
| `Philosophers.SomebodyEats` | demos/diningphil.cpp:35-48 | in any 7 n + 1 consecutive steps somebody starts to eat |
| `Philosophers.EverybodyGoesOn` | demos/diningphil.cpp:20-62 | exactly when each philosopher can take each step: it waits for a seat or for a neighbour that has the fork, and picks up and puts down in either order |
| `Philosophers.OneMovesAtATime` | demos/diningphil.cpp:35-48 | a step moves one philosopher, who picks up or puts down one fork, eats with both and leaves without any |
| `Farm.Producer` | demos/mandelbrot1.cpp:71-77 | writes the lines in order and then one -1 per worker |
| `Farm.Work` | demos/mandelbrot1.cpp:37-69 | reads up to the first -1 and no further, and sends one packet per line |
| `Farm.Consumer` | demos/mandelbrot1.cpp:79-87 | whatever the order of the packets, every row ends in its own place |
| `Farm.CompletesExactlyWhen` | demos/mandelbrot1.cpp:37-88 | under every interleaving the farm ends after exactly 2 lines + workers communications with every row in place, every worker ended by its one sentinel and every line computed once, if and only if there is a worker or nothing to do |
| `Farm.ExactlyOnce` | demos/mandelbrot1.cpp:37-88 | at any moment a line sent is computed once, and either held by one worker or stored correctly |
| `Farm.WorkersNeverWait` | demos/mandelbrot1.cpp:37-69 | under every interleaving a worker that asks can be given the next item at once, and one that holds a line can deliver it |
| `Farm.OneMovesAtATime` | demos/mandelbrot1.cpp:37-77 | a step moves one worker, which is given the next line or the sentinel, or goes back for more |
| `Farm.AllWorkAtOnce` | demos/mandelbrot1.cpp:37-69 | all workers can be at work at once, on different lines |
| `Merge.RunTwoWay` | csp/plugnplay/merge.h:57-83 | the two-input loop, with line 71 as it is or repaired, writes the stream `TwoWay` |
| `Merge.SortedUnionIsUnique` | csp/plugnplay/merge.h:51-109 | there is one ascending stream of exactly the values of given streams |
| `Merge.TwoWayIsSortedUnion` | csp/plugnplay/merge.h:57-83 | the repaired two-input merge of ascending streams writes their sorted union |
| `Merge.NetworkIsSortedUnion` | csp/plugnplay/merge.h:51-109 | for any n >= 2 ascending inputs the recursive network writes their sorted union |
| `Merge.ShapeDoesNotMatter` | csp/plugnplay/merge.h:84-108 | the output is the same for every other arrangement of two-input merges over the same inputs |
| `MergeAsWritten.AsWrittenIsRightExactlyWhen` | csp/plugnplay/merge.h:71 | as written the two-input merge is right if and only if at most one value of the second input is missing from the first |
| `MergeAsWritten.OddsAreLost` | csp/plugnplay/merge.h:71 | a concrete pair of inputs for which it is wrong |
| `MergeAsWritten.TwoWayWrites` | csp/plugnplay/merge.h:57-83 | as written a two-input merge writes exactly the values of its first input and the least value of the second that the first lacks, ascending |
| `MergeAsWritten.UncorrectedNetworkAdds` | csp/plugnplay/merge.h:84-108 | the uncorrected network adds to the values of its first input at most as many as there are merges on the way from it to the output, and exactly as many if the inputs share nothing |
| `MergeAsWritten.NetworkSpineIsLogarithmic` | csp/plugnplay/merge.h:93-106 | which is about the logarithm of the number of inputs |
| `MergeAsWritten.UncorrectedTreeWrites` | csp/plugnplay/merge.h:84-108 | what any arrangement of uncorrected merges writes, from the values of its inputs alone: at each merge the least value of the second side that the first lacks |
| `MergeAsWritten.UncorrectedNetworkWrites` | csp/plugnplay/merge.h:53-106 | the uncorrected network writes, over ranges of its inputs: of two the merge, of three the third merged into the first two, of more the merge of both halves |
| `MergeAsWritten.UncorrectedNetworkIsRightExactlyWhen` | csp/plugnplay/merge.h:84-108 | the uncorrected network is the sorted union if and only if every value of every input is among those |
| `MergeAsWritten.WhatIsMissingIsNotEnough` | csp/plugnplay/merge.h:84-108 | the values missing from the first input do not decide it: two networks with the same ones, one right and one wrong |
| `MergeNetwork.EveryRunWritesTheStream` | csp/plugnplay/merge.h:51-109 | as processes on rendezvous channels the merges write the stream of the network in every interleaving, with line 71 as it is or repaired |
| `MergeNetwork.NeverSticks` | csp/plugnplay/merge.h:61-82 | something can always happen: an output or a communication inside |
| `MergeNetwork.MergesWaitForTheirInputs` | csp/plugnplay/merge.h:61-82 | a merge that has a read to do waits for the process it reads from and for nothing else, wherever it is and whatever the others do |
| `MergeNetwork.OutputsKeepComing` | csp/plugnplay/merge.h:61-82 | in any interleaving at most (n - 1) n communications lie between two outputs of a network of n inputs |
| `BufferedChan.BufferedChannel.EnterWrite` | csp/chan.h:1393-1410 | the critical section of `write` up to `wait` or its end |
| `BufferedChan.BufferedChannel.EnterRead` | csp/chan.h:1420-1430 | the critical section of `read` up to `wait` or its end |
| `BufferedChan.BufferedChannel.Enable` | csp/chan.h:1488-1506 | registers the alt exactly when the buffer is empty and unpoisoned |
| `BufferedChan.BufferedChannel.Disable` | csp/chan.h:1512-1520 | deregisters the alt and answers whether there is something to select |
| `BufferedChan.BufferedChannel.ResumeWrite` | csp/chan.h:1410-1413 | after the wait `write` throws exactly when the channel is poisoned |
| `BufferedChan.BufferedChannel.ResumeRead` | csp/chan.h:1429-1437 | notifies one and takes the front value, unless the channel is poisoned |
| `BufferedChan.BufferedChannel.BePoisoned` | csp/chan.h:1540-1566 | sets the strength, notifies everybody, and a poisoning writer schedules a registered alt |
| `BufferedSystem.QueueOfItsSize` | csp/chan.h:1393-1437 | with a plain or an infinite buffer the values read followed by the buffer are the values written, in every reachable state, and a plain buffer never exceeds its size |
| `BufferedSystem.WaitersHaveCause` | csp/chan.h:1393-1437 | a blocked reader means an empty buffer, a blocked writer a full one, they never wait together, and no waiter outlives its condition |
| `BufferedProgress.EverybodyGoesOn` | csp/chan.h:1393-1437 | whoever has an end can take its critical section, and whoever is inside goes on if and only if it has been notified |
| `BufferedProgress.FreeEndsCanBeUsed` | csp/chan.h:1393-1566 | a free end can be taken, enabled, disabled and poisoned |
| `BufferedProgress.EveryOperationEnds` | csp/chan.h:1393-1437 | the steps of those at an unpoisoned channel are four at the most, in any order; whoever has gone through has put or taken a value, and at the end somebody is left inside only when it is a reader and the buffer is empty, or a writer and it is full |
| `BufferedSystem.CapacityHoldsExactlyWhen` | csp/chan_data_store.h:234-239 | the size bounds the content if and only if it is positive |
| `BufferedSystem.FaultsExactlyWhen` | csp/chan_data_store.h:382-489 | a process can reach into an empty store if and only if the store drops values and has size 0 |
| `BufferedSystem.PoisonIsFinal` | csp/chan.h:1393-1437 | in the monitor, once it is poisoned, everybody can leave and nothing moves |
| `BufferedProgress.PoisonReachesEverybody` | csp/chan.h:1396-1437 | after poison, in any continuation, every critical section of `write` and `read` ends with the exception and the strength of the last poison |
| `BufferedEnds.EndsExactlyWhenAWriterGoesOn` | csp/chan.h:887-893 | the same of the buffered channel: after poison the program ends if and only if a writer goes on or enters |
| `BufferedEnds.PoisonEndsTheProgramExactlyWhen` | csp/chan.h:824-831 | and without another writer coming, if and only if the reading end poisons while one is inside `write` or about to enter |
| `BufferedEnds.NewcomerEndsTheProgram` | csp/chan.h:1398-1399 | the first writer that comes to a poisoned buffered channel ends the program |
| `BufferedSystem.ZeroPoisonIsSafeExactlyWhen` | csp/chan.h:1540-1547 | after poison of strength 0 a reader can take from the empty store, or the buffer exceed its size, if and only if somebody was blocked |
| `DataStore.Store.Add` | csp/chan_data_store.h:475-482 | `put` of each store, and where it is undefined |
| `DataStore.Store.Get` | csp/chan_data_store.h:584-589 | `get` of each store: the front value, and what is left |
| `DataStore.Store.Clear` | csp/chan_data_store.h:498-501 | empties the store |
| `DataStore.Store.GetState` | csp/chan_data_store.h:234-239 | empty, full, or in between |
| `DataStore.StoresLoseOnlyWhatTheyDocument` | csp/chan_data_store.h:382-512 | over every history of puts and gets the values obtained are an in-order subsequence of those put, sizes are kept, lossless stores lose nothing, and the overwrite-oldest store holds the newest values; the overwriting store is repaired or holds one value at most |
| `DataStore.NewestSurvives` | csp/chan_data_store.h:571-582 | a value just put into an overwriting store, as written too, is the newest one in it, and the store holds no more than its size |
| `DataStore.PutsFill` | csp/chan_data_store.h:382-582 | after any history, puts alone leave of the whole sequence the first values in the overflowing store, the last in the overwrite-oldest store, the first size - 1 and the last in the overwriting store, and all in the others |
| `DataStore.GetTakesTheFront` | csp/chan_data_store.h:584-589 | a get is possible if and only if something is there, returns the front value and leaves the others; as written the overwriting store loses the last instead |
| `DataStore.PutsArePossible` | csp/chan_data_store.h:475-482 | a put is possible unless the store has to overwrite and has size 0 |
| `DataStore.OverwritingGetIsRightExactlyWhen` | csp/chan_data_store.h:584-589 | as written one `get` of the overwriting store leaves the right content if and only if all its values are equal |
| `DataStore.DeliversInOrderExactlyWhen` | csp/chan_data_store.h:584-589 | over all histories the values obtained are an in-order subsequence of those put if and only if the store is not the overwriting one as written, or its size is at most 1 |
| `DataStore.OverwritingGetDuplicates` | csp/chan_data_store.h:584-589 | two puts and two gets that deliver the first value twice and lose the second |
| `Pairs.PairsAddsNeighbours` | csp/plugnplay/pairs.h:52-66 | for every input and every interleaving output k is in[k] + in[k+1], and output is at most two inputs behind |
| `Pairs.NeverSticksExactlyWhen` | csp/plugnplay/delta.h:79-93 | the network never sticks if and only if delta is not the sequential variant that serves plus before tail |
| `Pairs.ChannelsWaitForTheirEnds` | csp/plugnplay/pairs.h:52-66 | each channel waits for its two ends and for nothing else, and the parallel copy and the parallel read take theirs in either order |
| `AltingBarrier.AltingBarrierBase.EnableFrontEnd` | csp/alting_barrier.h:322-352 | enables a front end, which belongs to the first thread to do so and turns others away, with the enrolled condition as written or as meant |
| `AltingBarrier.AltingBarrierBase.DisableFrontEnd` | csp/alting_barrier.h:360-379 | disables a front end and answers whether the barrier completed |
| `AltingBarrier.AltingBarrierBase.ResignFrontEnd` | csp/alting_barrier.h:665-685 | resigns, with the zero condition as written or as meant |
| `AltingBarrier.AltingBarrierBase.EnrollFrontEnd` | csp/alting_barrier.h:235-246 | enrols again |
| `AltingBarrier.AltingBarrierBase.MarkFrontEnd` | csp/alting_barrier.h:251-260 | hands an enrolled front end to another thread |
| `AltingBarrier.AltingBarrierBase.ResetFrontEnd` | csp/alting_barrier.h:265-278 | enrols a front end again if needed and takes its owner away |
| `AltingBarrier.OwnThreadIsWelcome` | csp/alting_barrier.h:327-333 | a thread that alone uses a front end is never turned away, over every history |
| `AltingBarrier.OthersAreTurnedAway` | csp/alting_barrier.h:327-333 | after a thread has enabled a front end, exactly the others are turned away until it is marked or reset |
| `AltingBarrier.OwnersChange` | csp/alting_barrier.h:251-278 | marking gives a front end to another thread, and resetting to nobody |
| `AltingBarrier.Coordinator.TryStartEnable` | csp/alt.h:479-494 | one turn of the loop of `start_enable` |
| `AltingBarrier.Coordinator.BeginDisable` | csp/alt.h:520-534 | `start_disable` with its sanity check |
| `AltingBarrier.Coordinator.EndEnable` | csp/alt.h:499-513 | `finish_enable` with its sanity check and its notification |
| `AltingBarrier.Coordinator.EndDisable` | csp/alt.h:539-554 | `finish_disable` with its sanity check, and the notification at zero |
| `AltingBarrier.CompletesWhenLast` | csp/alting_barrier.h:106-126 | an enabling front end completes its barrier if and only if all the others are offering |
| `AltingBarrier.LeavingCompletes` | csp/alting_barrier.h:665-685 | a resignation completes the barrier if and only if somebody stays and all who stay are offering; as written, if and only if somebody who stays is not |
| `AltingBarrier.EnrolledAreTurnedAway` | csp/alting_barrier.h:334-335 | the condition as written turns away exactly the front ends the intended one admits, the enrolled ones |
| `AltingBarrier.FinishesExactlyOnceEach` | csp/alt.h:539-554 | a number of calls of `finish_disable` passes its checks if and only if it does not exceed the count |
| `AltingBarrier.WrongFinish` | csp/alt.h:848-853 | a completion is over after exactly as many `finish_disable` as members; `finish_enable` in its place fails unless there is one member |
| `AltingBarrierSystem.RunKeepsInv` | csp/alting_barrier.h:322-379 | the invariant of any number of processes selecting over any number of barriers, resigning and enrolling |
| `AltingBarrierSystem.NoSanityCheckFails` | csp/alt.h:479-554 | no sanity check of the protocol ever fails, no alt sees two barriers complete, and `_active` is the number of disables outstanding or 1 while guards are enabled |
| `AltingBarrierSystem.CompletionTakesEverybody` | csp/alting_barrier.h:106-126 | an enabling step completes a barrier if and only if it leaves every enrolled front end offering, and then exactly these must find it complete |
| `AltingBarrierSystem.ResignationTakesThoseWhoStay` | csp/alting_barrier.h:665-685 | the same for a resignation, for those who stay |
| `AltingBarrierSystem.WaitingResignationTakesThem` | csp/alting_barrier.h:679-682 | a resignation that had to wait for the coordinator still finds them all offering |
| `AltingBarrierSystem.ExactlyTheOwedFindItComplete` | csp/alting_barrier.h:131-141 | `disable` answers true exactly for the front ends of the completed barrier that have not been disabled since |
| `AltingBarrierSystem.TheOwedWillChooseIt` | csp/alting_barrier.h:311-315 | a process that must find the barrier complete has been scheduled, and has chosen it once it no longer offers it |
| `AltingBarrierSystem.MultiwayAgreement` | csp/alting_barrier.h:322-379 | every completed barrier is chosen by exactly the processes that were enrolled when it completed |
| `AltingBarrierSystem.NothingStartsBeforeAllFinish` | csp/alt.h:479-554 | no enable sequence and no other completion starts before all of them have chosen |
| `AltingBarrierSystem.TurnIsNeverLost` | csp/alt.h:499-554 | `notify_one` never leaves the coordinator free with waiting processes and nobody notified |
| `AltingBarrierSteps.IdleProcessesGoOn` | csp/alting_barrier.h:219-246 | exactly when a process can begin a selection, resign, enrol and take its turn |
| `AltingBarrierSteps.EnablingProcessesGoOn` | csp/alting_barrier.h:322-352 | exactly when it can enable its next guard: it waits for the mutex of the barrier only |
| `AltingBarrierSteps.OfferingProcessesGoOn` | csp/alting_barrier.h:360-379 | exactly when it can wake, withdraw an offer and end the selection |
| `AltingBarrierSteps.StartingTakesTheTurn` | csp/alt.h:479-494 | the coordinator lets in whoever comes when it is free and makes everybody else wait |
| `AltingBarrierSteps.RetryingTakesTheTurn` | csp/alt.h:479-494 | a notified process takes its turn, or waits again when somebody was faster |
| `AltingBarrierSteps.EnablingOffers` | csp/alting_barrier.h:322-352 | enabling concerns one barrier: it is offered, or completed and then every alt that offers it is scheduled |
| `AltingBarrierSteps.EnablingEnds` | csp/alt.h:499-513 | the end of an enable sequence frees the coordinator and notifies one process that waits for it |
| `AltingBarrierSteps.DisablingWithdraws` | csp/alting_barrier.h:360-379 | disabling withdraws the offer and counts up again, and chooses a barrier that has completed |
| `AltingBarrierSteps.SelectionEnds` | csp/alt.h:848-853 | whoever chose a barrier takes itself off the count, and the last one frees the coordinator and notifies |
| `AltingBarrierSteps.ResigningLeaves` | csp/alting_barrier.h:665-685 | resigning concerns one barrier, and those who offer it when that completes it |
| `AltingBarrierSteps.EnrollingJoins` | csp/alting_barrier.h:235-246 | enrolling raises both counters of one barrier |
| `AltingBarrierDoom.DoomedForever` | csp/alting_barrier.h:219-230 | a process resigning waits for the coordinator while it holds the mutex of the barrier; when a process that keeps the coordinator needs this mutex, no barrier ever completes again |
| `AltingBarrierDoom.StepDoomsExactlyWhen` | csp/alting_barrier.h:665-685 | a step of any kind leads there if and only if it takes a mutex that a process keeping the coordinator needs, completes a barrier for somebody who offers another one whose mutex is held, or comes to a guard whose mutex is held |
| `AltingBarrierPrograms.NeverDoomedExactlyWhen` | csp/alting_barrier.h:665-685 | programs of n processes and k barriers whose alts have at most m barriers each never get there, however they select, resign and enrol, if and only if m <= 1 or there is nothing to share |
| `AltingBarrierPrograms.NeverDoomedIfDistinctExactlyWhen` | csp/alting_barrier.h:665-685 | when no alt names a barrier twice, if and only if m <= 1 or n <= 1 or k <= 1 |
| `AltingBarrierDoom.FreeCoordinatorNeedsNoMutex` | csp/alting_barrier.h:676-683 | a resignation keeps no mutex when the coordinator is free |
| `AltingBarrierDoom.ResigningIsSafe` | csp/alting_barrier.h:665-685 | otherwise the mutex it waits with never blocks the others, in any continuation while it waits, if nobody who offers the barrier has another one in its selection |
| `AltingBarrierDoom.OtherwiseTheyMove` | csp/alting_barrier.h:322-379 | in every other reachable state whoever keeps the coordinator can go on |
| `AltingBarrierProgress.RoundsEnd` | csp/alt.h:479-554 | while the coordinator is kept, the processes that keep it can make at most (k + 2) n steps more than the guards left to enable |
| `AltingBarrierDoom.DoomCanHappen` | csp/alting_barrier.h:665-685 | a run of three processes and two barriers that gets there |

## Left out

- Extended reads (`start_read`, `end_read`): the inverted condition makes them unusable as written.
- ChannelSystem.Refines: covers the runs that do not fault; which runs fault is `ChannelSystem.PoisonFaultsExactlyWhen`.
- Fairness.IntendedIsFair: is about the intended single backward pass, not about the loops as written.
- AltingBarrierSystem.MultiwayAgreement: is about the intended conditions; as written every enrolled front end is turned away (`AltingBarrier.EnrolledAreTurnedAway`).
- Alting barriers: creating, expanding, contracting, polling and the static alt of `sync` are object plumbing around the countdown; the order of enabling is any list of guards.
- Data races on fields that are read without their lock are not modelled beyond the unlocked assignments of the alt's state; a monitor's critical section is one step.
- One writer's critical section that calls `schedule` is split at that call; `schedule` itself is one step.
- `par`, the philosophers, the farm's network and `pairs` are step systems on values rather than classes, because what matters in them is the interleaving; `par` is not given other processes between runs.
- Streams are infinite and hold integers; the values of `pairs` are integers without overflow.
- The public constructors of the lossy stores are not part of this model.
- BufferedSystem.RunKeepsInv: a reader is assumed to have disabled the channel before it reads, which `AltSystem.SelectionIsSound` shows of a selecting one.
- Real threads, the list of all threads, handles, copying and ownership: no behaviour beyond the monitors.
- Time: an abstract clock that does not go back; sleeping and regular timers are left out.
- The Mandelbrot arithmetic is an arbitrary function from a line to its row; the reports and delays of the philosophers always complete.
- Poison immunity levels (stored and never consulted), `choice` as syntax, `skip` and `stop`, networking, skeletons, and the other plug-and-play processes: easy or unfinished members.
