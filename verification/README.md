# Verified model of the Pong device services

This project models, and proves properties of, the stateful parts of the device tree's services:

- the **sensors multi-HAL proxy** (`hidl/sensors`): the event pipeline between sub-HALs and the framework queue,
  the shared wakelock, the sensor table with its handle packing, direct-channel ownership, mode changes and
  dynamic sensors, and the one-shot sensors behind it;
- the **fingerprint lockout** (`fingerprint`): failure counter, mode, and the detached timer;
- the **LTPO refresh control** (`aidl/display/ltpo`): step table, boost hold and failing hardware writes.

## How it is organised

Code that updates fields is a class here (`EventQueue`, `SharedWakelock`, `HalProxy`, `SensorProxy`, `OneShot`,
`LockoutTracker`, `LockoutSession`, `LtpoControl`, `HalProxyModes`, `SensorsSubHal`, `DynamicSensorTable`,
`HalProxyCallback`).  Each method is proved equal to a step function on a value; the properties are then lemmas
about sequences of such steps.  For concurrent code a step is one region that holds the mutex, plus one step for
each unlocked effect, and a *run* is any interleaving of steps from the initial state.

| file | content |
|---|---|
| `Handles.dfy` | 32-bit handles and the sub-HAL index in their first byte |
| `SensorTypes.dfy` | sensor descriptions, events, counting wake-up events |
| `SensorList.dfy` | sensor table, direct-channel owner, routing, direct reports |
| `EventPipeline.dfy` | posters and writer thread as steps, with their invariant |
| `EventDelivery.dfy` | order, conservation, single writer, accounting, write-offs over all runs |
| `EventQueue.dfy` | the queue's fields and methods, and draining |
| `Wakelock.dfy` | reference count, OS calls, stale holders, timeout |
| `ProxySystem.dfy`, `WakelockRuns.dfy` | pipeline and wakelock together; runs in which it fails |
| `ProxyCallback.dfy` | what happens to a batch before it is queued |
| `OneShotSensor.dfy`, `OneShotDelivery.dfy` | one-shot sensor threads, alone and behind the proxy |
| `OperationModes.dfy`, `DynamicSensors.dfy` | mode change with rollback; the dynamic-sensor map |
| `Lockout.dfy`, `Ltpo.dfy` | fingerprint lockout; refresh control |

Parameters of the model: the framework queue's capacity (at least 1), the spill limit, the wakelock timeout, the
answers of blocking and hardware writes, of sub-HAL calls and of "has the duration elapsed", and every clock
reading.  The header `HalProxy.h`, the scoped-wakelock class and the message-queue library are not part of this
model; the sub-HAL index mask is the first byte, a scoped wakelock holds one reference with the start time it was
given, and looking up an unknown sensor yields a blank description.

## Results where the code does less than one might expect

- `EventDelivery.WriteOffCanExceedLoss`, `WakelockRuns.FailedSpillReleasesEarly`: a spilled batch records the
  wake-ups of its whole post, so one failed write can release the wakelock under an unacknowledged event;
  `ProxySystem.WriteOffReleasesEarlyIff` says exactly when.  The wakelock count balances exactly up to the first
  harmful action (`ProxySystem.BalancedUntilHarm`): an unlocked post with wake-up events, an acknowledgement of
  more than was delivered, a write-off of too much, or a timeout while something still needs the device awake.
- `WakelockRuns.OverflowKeepsAwake`: references of events dropped for lack of space are never given back, so the
  wakelock can be held for nothing until it times out; `ProxySystem.AwakeOnlyIfNeededIff` says exactly when.
- `WakelockRuns.EmptyPostKeepsAwake`: a locked batch that is filtered to nothing (`ProxyCallback.FilteredToNothingIff`)
  acquires the wakelock without a reference if the count is zero, and no timeout ever releases it;
  `Wakelock.AgreementStep` and `ProxySystem.AgreesUntilEmptyPost` say exactly when.  The callback's assertion against
  locked batches without wake-ups (`hidl/sensors/HalProxyCallback.cpp:51-56`) is not part of this model: it is
  compiled out of release builds.
- `Wakelock.LateAcknowledgementSteals`: acknowledgements carry no start time, so a late one takes the reference of
  a newer holder.  Returning holders cannot, although staleness is a strict comparison
  (`Wakelock.EqualReadingsLetAHolderSteal`, `Wakelock.OldHolderIgnoredIff`): the timeout separates them from the
  reset (`Wakelock.StaleHoldersCannotSteal`).  `Wakelock.ResetEmptiesIffRunning`: resets of stopped threads keep
  the count.
- `OneShotSensor.EventAfterDisarm`: a sensor can post an event after it is disabled, exactly when its thread is past
  its check of the flag (`OneShotSensor.PostsWhileDisabledIff`), and only one.
- `DynamicSensors.OvertakingDisagrees`: callbacks are made after the mutex is released, so concurrent ones can leave
  the framework with another set of sensors; `DynamicSensors.FrameworkAgreesIff` says exactly when.
- `SensorList.DirectReportIgnoresRouting`: a direct report for another sub-HAL's handle reaches the owner too.
- `Lockout.SplitExpiryKeepsInvIff`, `SplitExpiryLiftsPermanent`, `LateFlagWriteLiftsPermanent`: without atomic
  handlers the timer can lift a permanent lockout.  `Lockout.AbortedTimerLeavesTimedLockout`: a timed lockout can
  outlast its timer; `Lockout.ExpiryLiftsIff` says exactly when a timer lifts nothing.
- `Ltpo.ReturnedRateIsPanelRateIff`: the rate returned is the chosen one even if its write fails.

## Model

| member | source | states |
|---|---|---|
| Handles.PackingRoundTrip | hidl/sensors/HalProxy.cpp:57-70 | extracting a packed index gives it back iff it is below 128 (or reads back as the same wrapped size_t); clearing always gives the local handle back |
| Handles.PackingInjective | hidl/sensors/HalProxy.cpp:57-59 | packed handles of different sensors never collide while the index fits in a byte |
| Handles.PackedBits | hidl/sensors/HalProxyCallback.cpp:37-39 | packing any handle, clear or not, keeps its low 24 bits and sets exactly the bits of the index's byte in addition to those of its first byte |
| Handles.ClearIffSmall | hidl/sensors/HalProxy.cpp:765-767 | a handle's first byte is clear iff it is a number from 0 to below 2^24 |
| SensorList.SensorProxy.constructor | hidl/sensors/HalProxy.cpp:90-96 | a new proxy holds exactly the table built from the sub-HALs' lists |
| SensorList.SensorProxy.InitializeSensorList | hidl/sensors/HalProxy.cpp:484-511 | the nested walk over the lists builds the specified table and owner |
| SensorList.SensorProxy.SetDirectChannelFlags | hidl/sensors/HalProxy.cpp:727-740 | the first direct-capable sensor claims ownership; sensors of other sub-HALs lose the direct flags, those of the owner keep them |
| SensorList.OwnerIsFirstDirect | hidl/sensors/HalProxy.cpp:484-511 | the owner is the first sub-HAL in load order with an accepted direct-capable sensor, none iff there is none |
| SensorList.ListedSensor | hidl/sensors/HalProxy.cpp:484-511 | every listed entry comes from the last accepted sensor under its handle, carries that packed handle, keeps all flags but bits 7 to 11, keeps those iff it is the owner's, and keeps its type unless it is a wrist-tilt sensor, which becomes a pick-up gesture |
| SensorList.DirectBitsAre | hidl/sensors/HalProxy.cpp:729-739 | a sensor is direct-capable iff one of flag bits 7 to 11 is set, and stripping removes exactly those |
| SensorList.AcceptedSensorsAreListed | hidl/sensors/HalProxy.cpp:486-504 | no accepted sensor is missing from the table |
| SensorList.RoutingIsTotal | hidl/sensors/HalProxy.cpp:742-748 | any handle gets BAD_VALUE or indexes in range; exactly negative handles and too large first bytes get BAD_VALUE |
| SensorList.ListedSensorRoutesBack | hidl/sensors/HalProxy.cpp:156-162 | a listed sensor reaches the sub-HAL that reported it iff that index is below 128, with its original handle |
| SensorList.DirectReportReachesOwner | hidl/sensors/HalProxy.cpp:332-347 | a sensor listed with direct flags is the owner's, whatever its index, and its direct report reaches the owner with the original handle at any rate iff its packed handle is not -1 |
| SensorList.DirectReportAnswers | hidl/sensors/HalProxy.cpp:332-347 | refusals: no owner, and -1 with another rate than stop; -1 with stop reaches the owner unchanged |
| SensorList.DirectReportIgnoresRouting | hidl/sensors/HalProxy.cpp:332-347 | the request is forwarded whatever sub-HAL the handle names; it is the owner's own handle iff the first byte is the owner's |
| SensorList.SensorProxy.CountNumWakeupEvents | hidl/sensors/HalProxy.cpp:750-759 | counts exactly the wake-up events among the first n; its inserting lookups add blank sensors for unknown handles and change nothing else |
| SensorTypes.WakeupsCounted | hidl/sensors/HalProxy.cpp:750-759 | the count against a table is the number of events whose listed sensor has flag bit 0 |
| ProxyCallback.HalProxyCallback.ProcessEvents | hidl/sensors/HalProxyCallback.cpp:65-84 | returns the packed and filtered batch together with exactly its number of wake-up events |
| ProxyCallback.HalProxyCallback.PostEvents | hidl/sensors/HalProxyCallback.cpp:41-58 | an empty batch or stopped threads post nothing; otherwise the processed batch is posted with its own count and the scoped wakelock it came with, as one action on queue and wakelock |
| ProxyCallback.ProcessedEventByEvent | hidl/sensors/HalProxyCallback.cpp:69-82 | an event whose listed sensor is a pick-up gesture (type 25) and whose value is not 1 vanishes, any other appears once under its packed handle with everything else unchanged; order is kept |
| ProxyCallback.NothingElseIsFiltered | hidl/sensors/HalProxyCallback.cpp:73-76 | a batch without such events passes whole, each event changed in its handle only |
| ProxyCallback.FilteredToNothingIff | hidl/sensors/HalProxyCallback.cpp:73-76 | a batch becomes empty iff all its events are such |
| ProxyCallback.OthersNeverMatch | hidl/sensors/HalProxyCallback.cpp:70 | no batch of other sensors, of this or another sub-HAL, posted with clear handles carries an event under this sensor's handle |
| EventQueue.EventQueue.PostEventsToMessageQueue | hidl/sensors/HalProxy.cpp:664-693 | direct write, spill or drop of the leftover, and all three counters, as specified; keeps the invariant |
| EventQueue.EventQueue.ChooseChunk | hidl/sensors/HalProxy.cpp:583-587 | the writer takes the front batch, its recorded count and the chunk length, and unlocks |
| EventQueue.EventQueue.WriteBlocking | hidl/sensors/HalProxy.cpp:588-603 | the blocking write delivers or loses exactly the chosen chunk; its reference to the front batch is still valid |
| EventQueue.EventQueue.WriteOff | hidl/sensors/HalProxy.cpp:594-601 | the references given back after a failed write, in each branch |
| EventQueue.EventQueue.FinishChunk | hidl/sensors/HalProxy.cpp:603-612 | size drops by the chunk, and the chunk is erased or the batch popped |
| EventQueue.EventQueue.HandlePendingWrites | hidl/sensors/HalProxy.cpp:579-614 | with no new posts the loop empties the queue after exactly the sum of ceil(entry / capacity) writes, and delivers all in order if none fails |
| EventQueue.CeilDivIsCeiling | hidl/sensors/HalProxy.cpp:586 | the chunks of an entry are the ceiling of its length over the capacity |
| EventQueue.DrainIsExact | hidl/sensors/HalProxy.cpp:579-614 | in any stretch of a run without posts each blocking write, successful or not, takes one off the writes left and nothing else does; the queue is empty iff none is left |
| EventPipeline.AlwaysDefined | hidl/sensors/HalProxy.cpp:583-613 | in every reachable state the unlocked writer's reference still denotes a batch holding its chunk |
| EventPipeline.RunInv | hidl/sensors/HalProxy.cpp:575-615 | the pipeline invariant holds in every state of every interleaving |
| EventDelivery.FifoDelivery | hidl/sensors/HalProxy.cpp:664-693 | delivered events followed by undecided ones are the posted events in mutex order with exactly the dropped ones removed, over every interleaving |
| EventDelivery.LosslessDelivery | hidl/sensors/HalProxy.cpp:575-615 | without a dropping step they are the posted events exactly |
| EventDelivery.LossIsExplicit | hidl/sensors/HalProxy.cpp:683-692 | positions are lost by exactly the dropping steps: an oversized leftover or a failed blocking write |
| EventDelivery.PostLoss | hidl/sensors/HalProxy.cpp:683-692 | an oversized leftover loses exactly what was not written directly |
| EventDelivery.FailedWriteLoss | hidl/sensors/HalProxy.cpp:588-602 | a failed write loses exactly its non-empty chunk, the oldest undecided events, and delivers nothing |
| EventDelivery.Conservation | hidl/sensors/HalProxy.cpp:603-612 | posted = delivered + dropped + undecided; the size field is the number of pending events, within its limit; no batch is empty |
| EventDelivery.MostIsRunningMaximum | hidl/sensors/HalProxy.cpp:688-690 | the observed maximum bounds every size so far and was reached |
| EventDelivery.SingleWriter | hidl/sensors/HalProxy.cpp:671-682 | while the writer is busy no poster writes to the framework queue, and the pending batches only gain at the end |
| EventDelivery.ChunkIsStable | hidl/sensors/HalProxy.cpp:583-613 | between choosing and erasing a chunk, the front batch and the chunk length never change |
| EventDelivery.PostOutcome | hidl/sensors/HalProxy.cpp:671-692 | a post is written directly as far as allowed, then its leftover is kept behind everything undecided or dropped whole |
| EventDelivery.WriteOffCoversChunk | hidl/sensors/HalProxy.cpp:593-601 | a write-off gives back at least the chunk's wake-ups, and exactly those iff the batch is longer than the capacity or its recorded count is still exact |
| EventDelivery.BatchesRecordWholePosts | hidl/sensors/HalProxy.cpp:603-612 | in every reachable state each pending batch is the rest of a post and records the wake-ups of the whole post, in the order of the posts, however much of it is written and erased |
| EventDelivery.WriteOffGivesBack | hidl/sensors/HalProxy.cpp:593-601 | over any run a write-off gives back the chunk's wake-ups if the batch exceeds the capacity, otherwise those of the whole post the batch is the rest of |
| EventDelivery.WriterNeverStuck | hidl/sensors/HalProxy.cpp:579-614 | in every reachable state the writer can move iff something is pending |
| EventDelivery.WriteOffsNeverLeak | hidl/sensors/HalProxy.cpp:588-602 | over any run write-offs cover the wake-ups dropped by failed writes, up to the one still due |
| EventDelivery.WriteOffCanExceedLoss | hidl/sensors/HalProxy.cpp:686-687 | for every capacity and every spill limit of at least one, a run in which a write-off gives back more than was lost |
| Wakelock.SharedWakelock.IncrementRefCountAndMaybeAcquireWakelock | hidl/sensors/HalProxy.cpp:695-709 | counts up, restarts the timeout and acquires from zero; refuses when threads are stopped |
| Wakelock.SharedWakelock.DecrementRefCountAndMaybeReleaseWakelock | hidl/sensors/HalProxy.cpp:711-725 | saturating decrement ignored for stale holders and stopped threads, releasing at zero |
| Wakelock.SharedWakelock.ResetSharedWakelock | hidl/sensors/HalProxy.cpp:658-662 | decrement by the whole count, then move the reset time |
| Wakelock.SharedWakelock.SharedWakelockDidTimeout | hidl/sensors/HalProxy.cpp:646-656 | true iff more than the limit has passed; otherwise the time left is the non-negative rest |
| Wakelock.SharedWakelock.CheckTimeout | hidl/sensors/HalProxy.cpp:624-631 | on a timeout the round resets to zero, otherwise it reads for the time left and changes nothing |
| Wakelock.SharedWakelock.FinishRead | hidl/sensors/HalProxy.cpp:635-639 | a successful read gives back what the framework processed |
| Wakelock.AgreementStep | hidl/sensors/HalProxy.cpp:695-725 | an operation keeps "held iff the count is positive, calls alternate" exactly unless it adds zero to a zero count |
| Wakelock.AgreementAlways | hidl/sensors/HalProxy.cpp:695-725 | with increments of at least one, the OS wakelock is held iff the count is positive and calls strictly alternate, over any operations |
| Wakelock.CountIsReflectedWalk | hidl/sensors/HalProxy.cpp:695-725 | while threads run the count is the running sum of requests minus its running minimum, over any increments, decrements and resets |
| Wakelock.ResetEmptiesIffRunning | hidl/sensors/HalProxy.cpp:711-713 | a reset of stopped threads leaves the count |
| Wakelock.StoppedThreadsCountNothing | hidl/sensors/HalProxy.cpp:697-713 | while threads are stopped no reference is taken or given back |
| Wakelock.ExactUnlessStolen | hidl/sensors/HalProxy.cpp:703-721 | an exact count stays exact under every move except exactly two: an acknowledgement or write-off of more than posts have taken since the reset while a current holder is left, and an old holder whose start equals the reset time |
| Wakelock.CountIsReferencesHeld | hidl/sensors/HalProxy.cpp:703-721 | over any run on a clock that never goes back, timeouts included, the count is the references taken since the last reset and not given back exactly as long as no such move occurs; it is never more |
| Wakelock.StaleHoldersCannotSteal | hidl/sensors/HalProxy.cpp:624-628 | with a timeout that is not negative, even on a clock that repeats readings, a holder from before the last reset changes nothing when it returns; a current one takes back one reference |
| Wakelock.NoEarlyTimeout | hidl/sensors/HalProxy.cpp:624-628 | no timeout writes references off before it has elapsed since the latest one was taken |
| Wakelock.EqualReadingsLetAHolderSteal | hidl/sensors/HalProxy.cpp:720 | on the bare operations, a reset reading the same time as a holder's start lets that holder release the lock under a new one |
| Wakelock.OldHolderIgnoredIff | hidl/sensors/HalProxy.cpp:719-721 | in any run, the return of a holder from before the last reset leaves a positive count alone iff its start is not the reset time itself |
| Wakelock.LateAcknowledgementSteals | hidl/sensors/HalProxy.cpp:635-639 | acknowledgements are never stale: one for an event from before a timeout releases the lock under a holder that came after |
| ProxySystem.HalProxy.CreateScopedWakelock | hidl/sensors/HalProxyCallback.cpp:60-63 | a locked scoped wakelock takes one reference and keeps its start time |
| ProxySystem.HalProxy.ReleaseScopedWakelock | hidl/sensors/HalProxy.cpp:711-725 | releasing it gives the reference back with that start time |
| ProxySystem.HalProxy.PostEventsToMessageQueue | hidl/sensors/HalProxy.cpp:664-693 | a locked post takes its references and then posts, as one action on queue and wakelock |
| ProxySystem.HalProxy.WriteOffFailedChunk | hidl/sensors/HalProxy.cpp:593-602 | the write-off after a failed write is one decrement of the wakelock by the specified amount |
| ProxySystem.BalancedIffHarmless | hidl/sensors/HalProxy.cpp:575-725 | from a balanced state an action leads to a balanced one iff it is harmless: a post with wake-ups is locked, no more is acknowledged than was delivered, a failed write finds its recorded wake-ups still in the batch or all references belong to its chunk, a timeout finds nothing needed |
| ProxySystem.BalancedUntilHarm | hidl/sensors/HalProxy.cpp:575-725 | over any run, every state so far is balanced iff every action so far was harmless |
| ProxySystem.WriteOffReleasesEarlyIff | hidl/sensors/HalProxy.cpp:593-602 | a write-off releases the wakelock under something that needs it iff the failed chunk is not all that does and the amount given back is at least all references |
| ProxySystem.HeldIffOutstanding | hidl/sensors/HalProxy.cpp:575-725 | if all actions so far were harmless (see BalancedIffHarmless), the count is exactly holders + delivered unacknowledged + undecided + failing + overflowed wake-ups, and the OS wakelock is held iff that is positive |
| ProxySystem.AwakeForWakeups | hidl/sensors/HalProxy.cpp:575-725 | if all actions so far were harmless, the device stays awake while a wake-up event is queued, or delivered and not acknowledged |
| ProxySystem.AwakeOnlyIfNeededIff | hidl/sensors/HalProxy.cpp:668-692 | if all actions so far were harmless, the wakelock is held just when something needs it iff no wake-up event of a post has overflowed since the last timeout, or something needs it |
| ProxySystem.AgreesUntilEmptyPost | hidl/sensors/HalProxy.cpp:669-671 | over any run, harmful actions included, the wakelock was always held iff the count was positive exactly if no locked post without wake-ups came at a count of zero |
| ProxySystem.OnlyNewReferencesMoveZero | hidl/sensors/HalProxy.cpp:719-721 | at a count of zero nothing but a new reference calls the OS |
| ProxySystem.TimedOutHolderReturnsNothing | hidl/sensors/HalProxy.cpp:719-721 | over any run, a holder from before a timeout gives nothing back when it returns after it |
| WakelockRuns.FailedSpillReleasesEarly | hidl/sensors/HalProxy.cpp:686-687 | for every capacity and every spill limit of at least one, a run that is harmless up to its last action, a write-off, which releases the wakelock under an unacknowledged event |
| WakelockRuns.OverflowKeepsAwake | hidl/sensors/HalProxy.cpp:668-692 | for every capacity and spill limit, a run of harmless actions that ends with no holder and no event left, and the wakelock held |
| WakelockRuns.EmptyPostKeepsAwake | hidl/sensors/HalProxy.cpp:669-671 | a locked post without events after its holder timed out leaves the wakelock held with no reference, and a further timeout does not release it |
| OneShotSensor.OneShot.Activate | hidl/sensors/Sensor.cpp:307-316 | a change flips the flag, writes the gesture node of a tap sensor, writes one byte and notifies; no change does nothing |
| OneShotSensor.OneShot.UpdateMode | hidl/sensors/Sensor.cpp:228-234 | the locked part of a mode change, with the interrupt still due |
| OneShotSensor.OneShot.SetOperationMode | hidl/sensors/Sensor.cpp:318-321 | mode update followed by one byte into the pipe |
| OneShotSensor.OneShot.LoopTop | hidl/sensors/Sensor.cpp:326-333 | waits iff disabled or injecting data, otherwise unlocks and polls |
| OneShotSensor.OneShot.AfterPoll | hidl/sensors/Sensor.cpp:335-350 | stops on error, disables (writing the gesture node of a tap sensor) and posts on a device event, otherwise drains one byte; then decides again |
| OneShotSensor.OneShot.InjectEvent | hidl/sensors/Sensor.cpp:240-253 | posts iff the sensor supports injection and is in that mode; these sensors never post injected events |
| OneShotSensor.OneEventPerArming | hidl/sensors/Sensor.cpp:323-352 | over every interleaving, two events always have an arming between them, and events never outnumber armings |
| OneShotSensor.EnabledTellsHistory | hidl/sensors/Sensor.cpp:307-345 | over any run the sensor is enabled iff some arming came after every disarming and every touch the thread acted on |
| OneShotSensor.MarksAreChanges | hidl/sensors/Sensor.cpp:307-345 | a step posts iff it is such a touch, and otherwise logs exactly the change of the flag |
| OneShotSensor.ModeIsLastSet | hidl/sensors/Sensor.cpp:228-234 | the mode is the one last set |
| OneShotSensor.PollsIffArmed | hidl/sensors/Sensor.cpp:326-333 | after starting, waking up or an error-free poll the thread polls iff the sensor is enabled in normal mode, else waits |
| OneShotSensor.StopsIffPollFailed | hidl/sensors/Sensor.cpp:337-341 | over any run the thread has stopped iff a poll has failed |
| OneShotSensor.PipeConservation | hidl/sensors/Sensor.cpp:307-321 | over any run the pipe holds one byte per change by activate and per finished mode call, less one per read |
| OneShotSensor.ArmedThreadDrains | hidl/sensors/Sensor.cpp:333-349 | left alone, an armed thread blocks in poll after exactly as many returns as the pipe had bytes |
| OneShotSensor.GestureNodeShowsEnabled | hidl/sensors/Sensor.cpp:418-429 | the last value a tap sensor has written to its gesture node is always its enabled flag |
| OneShotSensor.PostsWhileDisabledIff | hidl/sensors/Sensor.cpp:326-345 | a disabled sensor can post an event before its next arming iff its thread is inside poll, or back from it with a device report |
| OneShotSensor.QuietUntilArmed | hidl/sensors/Sensor.cpp:326-345 | a disabled sensor whose thread is elsewhere stays so and posts nothing until the next arming, over every interleaving |
| OneShotSensor.OnePostWhileDisabled | hidl/sensors/Sensor.cpp:326-345 | a disabled sensor posts at most one event before its next arming, and is quiet after it |
| OneShotSensor.EventAfterDisarm | hidl/sensors/Sensor.cpp:334-345 | a concrete run that posts after a disarming |
| OneShotSensor.NoLostDisarm | hidl/sensors/Sensor.cpp:307-321 | a thread polling while disabled or injecting has an unread byte or an interrupt still to come |
| OneShotSensor.DisarmEndsPolling | hidl/sensors/Sensor.cpp:333-349 | that byte returns the thread from poll to the condition variable, and is drained unless the device reported a touch |
| OneShotSensor.ReadNeverBlocks | hidl/sensors/Sensor.cpp:346-349 | the read under the lock always finds a byte |
| OneShotSensor.NoLostArming | hidl/sensors/Sensor.cpp:327-330 | a thread waiting although it may poll has been notified, and then polls |
| OneShotDelivery.DeliveredNeverExceedArmings | hidl/sensors/Sensor.cpp:343-345 | behind the proxy, with other sensors posting and the writer running in any interleaving, a sensor's events in the framework queue or still pending never exceed its armings |
| OperationModes.HalProxyModes.SetOperationMode | hidl/sensors/HalProxy.cpp:133-154 | modes, result and current mode after the forward loop and the rollback loop |
| OperationModes.AllOrNothing | hidl/sensors/HalProxy.cpp:133-154 | agreeing sub-HALs agree again on the new or old mode iff no call fails, or the failing one is left in the old mode and every rollback call leaves its sub-HAL there, whatever it answers |
| OperationModes.AnswersDecide | hidl/sensors/HalProxy.cpp:133-154 | from any modes, each called sub-HAL is left as its last call leaves it, and sub-HALs after a failure are untouched |
| OperationModes.SensorsSubHal.constructor | hidl/sensors/SensorsSubHal.cpp:35-39 | three new one-shot sensors, two of them tap sensors, in normal mode |
| OperationModes.SensorsSubHal.SetOperationMode | hidl/sensors/SensorsSubHal.cpp:50-56 | every sensor's own mode change runs, with its notification and its interrupt, and the call always succeeds |
| DynamicSensors.DynamicSensorTable.OnDynamicSensorsConnected | hidl/sensors/HalProxy.cpp:391-409 | map and callback after a connection, bad handles skipped |
| DynamicSensors.DynamicSensorTable.OnDynamicSensorsDisconnected | hidl/sensors/HalProxy.cpp:411-431 | map and callback after a disconnection, bad and unknown handles skipped |
| DynamicSensors.FrameworkAgrees | hidl/sensors/HalProxy.cpp:391-431 | replaying the callbacks of any serialised calls gives exactly the keys of the map |
| DynamicSensors.FrameworkAgreesIff | hidl/sensors/HalProxy.cpp:391-431 | with concurrent calls, called back in any order, once all callbacks are made the framework agrees with the map iff for each handle the last callback and the last map update naming it are of the same kind |
| DynamicSensors.OvertakingDisagrees | hidl/sensors/HalProxy.cpp:406-407 | a callback that overtakes another leaves the framework with a sensor that is gone |
| DynamicSensors.RemovalsReportedOnce | hidl/sensors/HalProxy.cpp:411-428 | a disconnection reports distinct handles of sensors that were connected |
| DynamicSensors.OnlyOwnSensorsRemoved | hidl/sensors/HalProxy.cpp:420-425 | no disconnection removes or changes another sub-HAL's sensor |
| DynamicSensors.NamedSensorsGo | hidl/sensors/HalProxy.cpp:417-426 | a connected sensor goes iff it is named with a clear handle by its own sub-HAL |
| DynamicSensors.ConnectedSensorsListed | hidl/sensors/HalProxy.cpp:396-405 | every accepted sensor of a connection is in the map as last described |
| DynamicSensors.AddedOneByOne | hidl/sensors/HalProxy.cpp:396-405 | a connection puts exactly the sensors with a clear first byte into the map and into its callback, repacked and otherwise unchanged, one after the other |
| DynamicSensors.RemovedOneByOne | hidl/sensors/HalProxy.cpp:417-426 | a disconnection takes exactly the named sensors with a clear first byte that are still there out of the map and lists them, one after the other |
| Lockout.LockoutTracker.ResetTracker | fingerprint/LockoutTracker.cpp:18-23 | clears mode and start, and the counter only if asked |
| Lockout.LockoutTracker.AddFailedAttempt | fingerprint/LockoutTracker.cpp:25-34 | counts, then permanent from 20, timed from 5 |
| Lockout.LockoutTracker.GetMode | fingerprint/LockoutTracker.cpp:36-45 | an elapsed timed mode is dropped by reading it |
| Lockout.LockoutTracker.GetLockoutTimeLeft | fingerprint/LockoutTracker.cpp:47-57 | the milliseconds that cover the rest of the 30 s, rounded up, positive and at most 30 s while it has not passed; zero without a start |
| Lockout.TimeLeftInRange | fingerprint/LockoutTracker.cpp:47-57 | the time left is the rest of 30 s rounded up to milliseconds, on a monotone clock never above 30000 and positive iff they have not passed; 0 without a start |
| Lockout.LockoutSession.CheckLockout | fingerprint/Session.cpp:342-364 | the brightness command, callback, flag and timer effects of each mode |
| Lockout.LockoutSession.StartLockoutTimer | fingerprint/Session.cpp:371-381 | a started timer is pending and not aborted |
| Lockout.LockoutSession.Clear | fingerprint/Session.cpp:366-369 | resets the tracker and reports the lockout cleared |
| Lockout.LockoutSession.LockoutTimerExpired | fingerprint/Session.cpp:383-389 | an unaborted expiry clears the mode but not the counter; both flags end false |
| Lockout.LockoutSession.ResetSessionLockout | fingerprint/Session.cpp:161-168 | clears everything and aborts the timer |
| Lockout.LockoutSession.NotifyAuthenticated | fingerprint/Session.cpp:426-445 | a match resets the counter and switches high brightness off, a mismatch counts and checks the lockout |
| Lockout.PermanentIsExact | fingerprint/Session.cpp:342-389 | permanent iff at least 20 failures since the last success or reset; timed implies 5 to 19; at most one timer, aborted if permanent |
| Lockout.TimedIsExact | fingerprint/Session.cpp:342-389 | timed lockout is on iff a failure was the fifth to nineteenth since the last clear and since then came no failure, success, reset, unaborted expiry or check that found the duration elapsed |
| Lockout.PermanentIsSticky | fingerprint/Session.cpp:383-389 | only a success or a lockout reset leaves permanent lockout or reports it cleared |
| Lockout.FailureReportsLockout | fingerprint/Session.cpp:438-442 | a failure reports exactly the lockout it causes, with its effect on counter, mode and start, and a timed one has a timer pending, though maybe an aborted one |
| Lockout.ClearingReports | fingerprint/Session.cpp:429-437 | a success or a reset clears counter, mode and start and reports it; a success switches high brightness off and leaves the timer alone, a reset aborts it |
| Lockout.PointerDownReports | fingerprint/Session.cpp:342-364 | a pointer-down reports the lockout in force, drops an elapsed timed one silently, and does nothing without one |
| Lockout.ExpiryLiftsIff | fingerprint/Session.cpp:383-389 | over any run an expiring timer lifts the lockout iff no lockout reset, twentieth failure or pointer-down in permanent lockout has aborted it since it was started |
| Lockout.AbortedTimerLeavesTimedLockout | fingerprint/Session.cpp:355-360 | a timed lockout after a reset with a pending timer is not lifted by any timer |
| Lockout.SplitExpiryKeepsInvIff | fingerprint/Session.cpp:383-389 | if handlers run between the flag read, the clearing and the two flag writes of an expiry: the clearing keeps the invariant iff the flag was seen set or the counter is below 20, the first write always does, the second iff no other timer is pending or the counter is below 20 |
| Lockout.SplitExpiryLiftsPermanent | fingerprint/Session.cpp:383-389 | a concrete interleaving that lifts a permanent lockout between the flag read and the clearing |
| Lockout.LateFlagWriteLiftsPermanent | fingerprint/Session.cpp:387-388 | a concrete interleaving that lifts it between the two flag writes |
| Ltpo.LtpoControl.constructor | aidl/display/ltpo/LtpoControl.cpp:17-25 | enabled iff the sysfs node opened, at 120 Hz with no hold |
| Ltpo.LtpoControl.WriteToPanel | aidl/display/ltpo/LtpoControl.cpp:34-44 | a write succeeds only on an open node |
| Ltpo.LtpoControl.Enable | aidl/display/ltpo/LtpoControl.cpp:50-59 | disabling writes the 120 Hz index and follows it only on success |
| Ltpo.LtpoControl.SetTarget | aidl/display/ltpo/LtpoControl.cpp:76-115 | mode adjustment, hold, table search and conditional write as specified |
| Ltpo.StepForIsBest | aidl/display/ltpo/LtpoControl.cpp:97-106 | the search finds the lowest of 1, 10, 24, 30, 60 and 120 Hz of at least the target, or 120 |
| Ltpo.BoostUntilTellsHold | aidl/display/ltpo/LtpoControl.cpp:88-95 | the stored hold time says exactly whether some boost happened less than 200 ms ago |
| Ltpo.TargetFollowsHistory | aidl/display/ltpo/LtpoControl.cpp:76-115 | every enabled request returns the best rate for 120 or for what is asked for (1 or 120 without variable refresh), as the history of boosts less than 200 ms ago decides |
| Ltpo.OnlyBoostsExtendHold | aidl/display/ltpo/LtpoControl.cpp:91-95 | lower requests and disabled ones never move the hold |
| Ltpo.PanelAgreement | aidl/display/ltpo/LtpoControl.cpp:108-111 | whatever writes fail, the current rate is that of the last successfully written index |
| Ltpo.WritesOnlyChanges | aidl/display/ltpo/LtpoControl.cpp:108-111 | a request writes exactly one index, that of the chosen rate, iff it is enabled, the panel shows another rate and the write goes through |
| Ltpo.SwitchWrites | aidl/display/ltpo/LtpoControl.cpp:50-59 | disabling writes exactly the 120 Hz index if it can, even if the panel shows 120 Hz; enabling writes nothing |
| Ltpo.EnabledIsLastSwitch | aidl/display/ltpo/LtpoControl.cpp:76-81 | the control is enabled as last switched, at first iff the node opened; disabled requests return 120 and change nothing |
| Ltpo.ReturnedRateIsPanelRateIff | aidl/display/ltpo/LtpoControl.cpp:108-114 | the returned rate is the panel's iff it was already shown or the enabled write goes through |

## Left out

- Library loading, configuration files, debug dumps, logging, queue and event-flag construction, service mains: I/O and plumbing.
- Start-up, re-initialisation and teardown: the source replaces the queue and stops threads without the mutexes; runs here lie between initialisations with threads running, except for the wakelock's stop and start operations.
- Blocking times: `readBlocking` and `writeBlocking` either succeed or fail, at any time; condition variables may wake spuriously. What the framework reads from its queue enters as the space available to a post.
- Counters are unbounded; 64-bit overflow of sizes, reference counts and times and 32-bit overflow of the failure counter are not modelled.
- DynamicSensors.FrameworkAgrees: for serialised calls; `DynamicSensors.FrameworkAgreesIff` is for concurrent ones, without the order that calls of one thread have among themselves.
- Lockout.PermanentIsExact: takes each handler and the timer expiry as one atomic step; the split-expiry lemmas say what happens otherwise.
- Lockout across sessions and the initial mode: the session copies the tracker, whose mode and start have no initializer; a session here starts with none.
- Fingerprint device calls, what the high-brightness and gesture nodes do, the UI-ready gate, enrolment and the vendor error tables: calls into unseen code.
- OneShotSensor.OneShot.Activate: does not model a pipe that is full.
- Lockout.LockoutSession.NotifyAuthenticated: does not model the reset of the UI-ready gate, which only delays a device command of the next pointer-down.
- OneShotDelivery.DeliveredNeverExceedArmings: takes the other sensors to post with clear first bytes, which the callback does not check.
- ProxySystem.HeldIffOutstanding: says nothing after a timeout that wrote needed references off; `Wakelock.CountIsReferencesHeld` does, for references by holder and by post rather than by event.
- The generic periodic `Sensor::run`, batching and flush: no sensor of this device uses them.
- Vibrator, charging control, the UDFPS extension and the type conversions: thin wrappers.
