# Gate Link verification

A Dafny model of the two-leaf gate controller: the hardware-independent control
logic of `gate-core` (motors, shared controls, the gate task, debouncer, warning
light) and the firmware glue that has invariants of its own (flash persistence,
state publishing, the outgoing MQTT queue). The theorems are about every run of
the concurrent system - every interleaving of inputs, MQTT commands, clock
ticks, gate segments, flash saves and lamp polls.

`dafny verify dfyconfig.toml` checks the whole project.

## How it is organised

| file | holds |
|---|---|
| `MotorModel`, `ControlsModel`, `GateModel` | one leaf, the shared flags and signals, and one segment of the gate task, as functions on values |
| `MotorClass`, `ControlsClass`, `GateClass`, `TaskClass` | the same as objects updated in place; every method is proved to do exactly what its model function says |
| `SystemModel` | all tasks together as a transition system: actions, runs, booting, reachability |
| `GateInvariant` | what every step keeps about the motors and the movement in flight |
| `Safety`, `WindLock`, `Bypass`, `Publishing`, `Persistence`, `WarningLight`, `ImpulseCycle`, `LeafOrder` | one property of all runs each |
| `Inputs` | the flags against what the inputs of a run last reported |
| `Response` | how many segments a command takes to end a movement |
| `Schedule`, `Lateness` | an undisturbed movement refines a closed-form schedule, exactly or within its polls' lateness and skew |
| `Travel` | what the timing record asks for, and when a planned run completes |
| `Drift`, `GateDrift`, `Calibration` | estimate against leaf: drift, conservation of relay-on time and recalibration, for one leaf and for whole runs of the gate |
| `Scenarios` | concrete runs of the installation in which documented behaviour fails |
| `Debouncing`, `Outgoing`, `Announcing` | the debouncer against a specification over sample histories; the drop-oldest queue; controller and queue together |
| `Theorems` | the combined invariant and the main results for every reachable state |

## Modelling decisions

- Instants and durations are clock ticks at embassy-time's default rate of
  1 MHz, and `as_millis` truncates, as in the source. Integers are unbounded;
  positions, sample counters and settings are bytes.
- A poll of the gate task is one atomic segment between two awaits. It takes
  several clock readings (wake-up, planning, loop, leaf A, leaf B); they are
  ordered and at most `skew` ticks apart, where `skew` is a parameter of the
  configuration. Between segments anything may happen.
- `Signal` holds at most one value, later values overwrite it, and only its
  waiter takes it. `select` and `select4` check their futures in argument order
  and consume only the winner. Each non-async `Controls` method is atomic, since
  all tasks run on one cooperative executor.
- When `Gate::new` runs, only the two light barrier watchers may have touched
  `Controls`. This matters: `WindLock.RestoredLockIsPursuedIff` shows that a
  restored wind lock is pursued, or barrier 1 interrupted, in every run exactly
  when at that moment the command slot holds nothing but an Open, or barrier 1 is
  active, or both leaves are open.
- `notify` is the firmware's `publish_state`: it appends the three state messages
  to the gate's outbox. A failed flash save leaves the record unchanged.
- A relay write carries the clock reading that the motor takes next to it.
- "Physically" a leaf moves 255 units in the duration its timing record gives for
  its direction (`Travel.TravelTime`), cut to whole milliseconds and at least 1 ms.
  One episode
  keeps a true estimate within one unit exactly under the condition of
  `Drift.WithinOneUnitIff`; on-times of whole milliseconds meet it, not all others do
  (`Drift.TickDriftExceedsOneUnit`).
- "Sound" configurations have an end-stop overrun of at least 1 ms plus `skew`.
  `Travel.CompletesIffOverrun` gives the exact condition on the overrun for a
  planned run to reach its end from every position; the installation's 1 s is
  sound for any skew below a second (`LeafOrder.InstalledOrder`).

## Where code and documentation differ

- The feature list promises the press cycle open - stop - close - stop - open.
  (The comment on `impulse` itself, by position and last direction, is what the
  code does.) A press reverses the movement it follows if and only if some leaf
  had been counted off the end it started from; otherwise it repeats it
  (`ImpulseCycle.ImpulseStopsThenReverses`). `Scenarios.ThirdPressRepeats` is a run
  in which leaf A was energized and yet the third press opens again.
- The timing documentation says that the order of the leaves is always
  preserved. A before B holds exactly. B before A fails when a late poll finds both
  due, because each pass serves A first: `Scenarios.LatePollSwapsLeaves` is such a
  run, closing again within the reverse pause and polled 2 s late. In the installation
  the documented order holds in every run whose segments are at most `late` late if
  and only if that is less than 2 s or the clock stands still within a segment
  (`Theorems.DocumentedOrderIff`), and up to the skew always
  (`Theorems.InstalledLeavesKeepOrder`).
- A stop is documented to stop the gate. The deadline timer comes first in the
  movement's select, so a segment that finds a deadline due goes ahead of a stop in
  the slot and may still energize a leaf (`Scenarios.DueLeafStartsDespiteStop`).
  Every command but the movement's own ends it within four segments all the same
  (`Theorems.CommandEndsWithinFourSegments`).
- A wind trigger is documented to be held back by barrier 1 only, and retried once
  barrier 1 clears. The code retries on clearing, not on a bypass: once barrier 1 has
  refused the opening, arming the bypass leaves the gate locked, free to open and with
  nothing queued (`Scenarios.BypassStrandsLock`). A locked gate is open, opening or about
  to open if and only if it is not stranded like that, and a stranded one may open if
  and only if the bypass is armed (`Theorems.WindLockIsPursued`). It stays where it is
  until a new wind trigger, a reset or barrier 1 clearing (`WindLock.StrandedStep`).
- Positions and wind lock are documented to survive a power loss. They are in flash
  only once a step has settled and its save has succeeded. At rest a power loss
  loses nothing if no save has failed or is in progress and no signal is outstanding
  (`Theorems.PowerLossAtRestLosesNothing`; exactly when, in terms of what is stored,
  `Theorems.RebootReproducesState`). During a movement it forgets the movement
  (`Scenarios.PowerLossForgetsMovement`).

## Model

| member | source | states |
|---|---|---|
| `MotorClass.Motor.constructor` | gate-core/src/motor.rs:56-76 | both relays are written low first; the new motor's trace, pins and clock data are consistent |
| `MotorClass.Motor.PlannedRunTime` | gate-core/src/motor.rs:111-121 | the run time to the end stop including overrun, `None` exactly at that end |
| `MotorClass.Motor.EarliestStart` | gate-core/src/motor.rs:101-106 | the reverse pause after the last release |
| `MotorClass.Motor.Settle` | gate-core/src/motor.rs:125-142 | releases both relays in order, records the stop and moves the estimate by the truncated, saturated travel |
| `MotorClass.Motor.Start` | gate-core/src/motor.rs:144-158 | settles, releases the opposite relay, then energizes this one |
| `MotorClass.Motor.Halt` | gate-core/src/motor.rs:160-162 | stopping is settling |
| `MotorModel.SettledOk` | gate-core/src/motor.rs:125-142 | a stop leaves both relays low and keeps interlock and reverse pause in every prefix of the pin-write trace |
| `MotorModel.StartedOk` | gate-core/src/motor.rs:144-158 | starting a rested leaf energizes exactly one relay and keeps interlock and reverse pause in every prefix of the trace |
| `Travel.RunTimeIsPlanned` | gate-core/src/motor.rs:78-121 | the planned run is the remaining fraction of the timing record's duration for its own direction plus the overrun, and none exactly at that end; the initial delay is that direction's |
| `Travel.PlannedRunCovers` | gate-core/src/motor.rs:111-142 | floor of the planned time against floor of the travelled units, for the record's duration in that direction: the planned run, cut short by up to the slack, covers the remaining units |
| `Travel.CompletedRun` | gate-core/src/motor.rs:111-142 | a leaf that ran its planned time ends with its estimate exactly at 255 or 0 |
| `Travel.CompletesIffOverrun` | gate-core/src/motor.rs:111-142 | planned runs always complete if and only if the overrun is at least 1 ms or the duration is a positive multiple of 255 ms |
| `Drift.FloorError` | gate-core/src/motor.rs:137-138 | the true distance of an episode is the units counted plus exactly what the two divisions cut off |
| `Drift.EpisodeDrift` | gate-core/src/motor.rs:125-142 | one start/stop episode adds at most what it cuts off to the distance between estimate and leaf |
| `Drift.DriftBound` | gate-core/src/motor.rs:125-142 | for every sequence of episodes in any directions the estimate stays within the sum of what they cut off of the physical, clamped position |
| `Drift.WithinOneUnitIff` | gate-core/src/motor.rs:125-142 | after one episode a true estimate is within one unit if and only if at most one more unit was left than counted, or no more was cut off than one unit takes |
| `Drift.WholeMillisecondsCutLittle` | gate-core/src/motor.rs:137-138 | an on-time of whole milliseconds never cuts off more than one unit takes |
| `Drift.UnitDriftBound` | gate-core/src/motor.rs:125-142 | n episodes that each cut off no more than one unit takes drift by at most n units |
| `Drift.TickDriftBound` | gate-core/src/motor.rs:125-142 | n episodes of any on-times drift by at most n times one unit plus a millisecond's worth of travel |
| `Drift.TickDriftExceedsOneUnit` | gate-core/src/motor.rs:132-138 | an input on which one episode drifts by more than a unit: 58.999 ms of a 15 s travel count as nothing |
| `Drift.PlannedRunArrives` | gate-core/src/motor.rs:111-142 | for every timing, a leaf truly at its estimate is physically at its end stop after the planned run, and its estimate too |
| `Drift.Recalibrates` | gate-core/src/motor.rs:111-142 | if the overrun outlasts the drift, a completed run brings leaf and estimate to the same end exactly |
| `Drift.InterruptionsThenRecalibration` | gate-core/src/motor.rs:111-142 | any interruptions whose budgets fit the overrun are forgotten by the next completed run |
| `Drift.SixteenInterruptionsAreForgotten` | src/physical/gate_config.rs:19-36 | with the installed timing, up to 16 interruptions leave no drift after a completed run |
| `Drift.LifetimeDriftBound` | gate-core/src/motor.rs:111-142 | for every sequence of episodes only what was cut off since the last completed run that covered the drift counts |
| `Drift.CompletedRunRestartsDrift` | gate-core/src/motor.rs:111-142 | a completed run whose overrun covers the drift so far makes everything before it irrelevant |
| `Drift.InstalledDriftStaysSmall` | src/physical/gate_config.rs:19-36 | over a life of any length with at most 16 episodes at a time between completed runs, the installed drift is at most 1.017 units per episode since the last one |
| `Drift.InterruptionConservesTravelTime` | gate-core/src/motor.rs:111-142 | over any stops and same-direction resumes the total relay-on time is at least the uninterrupted run time and at most one rounded-up unit more per interruption |
| `GateDrift.GateDriftBound` | gate-core/src/gate.rs:403-460 | from any state with no relay on and any drift, in every run each leaf's history is a sequence of episodes, and its estimate is off by at most what they cut off since the last run that wiped the drift out |
| `Calibration.ReleasedLeafRecalibrates` | gate-core/src/gate.rs:411-439 | from any such state, in every run each leaf that an undisturbed segment releases, first or last of the movement, has completed its run; if the overrun outlasts the drift left by then, leaf and estimate are at the same end and no drift is left |
| `Calibration.CompletedMovementRecalibrates` | gate-core/src/gate.rs:382-456 | from any such state, a movement that ends undisturbed has completed the run of each leaf that had to move, in one episode, and recalibrated it if the overrun outlasted the drift left when the movement began |
| `Calibration.InstalledGateStaysCalibrated` | src/physical/gate_config.rs:19-36 | in every run of the installation, however long, from an estimate worth n interruptions: a leaf interrupted at most 16 times between two of its completed runs is off by at most 1.017 units for each interruption since the last |
| `GateDrift.GateConservesTravelTime` | gate-core/src/gate.rs:403-460 | from any state with no relay on, say after a reversal: while a leaf has since moved in one direction only, its relay-on time plus its next planned run is the run time planned then, up to one rounded-up unit per stop |
| `ControlsClass.Controls.constructor` | gate-core/src/gate.rs:102-116 | the initial controls |
| `ControlsClass.Controls.Request` | gate-core/src/gate.rs:126-159 | open, close, stop and impulse overwrite the slot, and are ignored while locked |
| `ControlsClass.Controls.WindTrigger` | gate-core/src/gate.rs:164-167 | latches the lock and queues Open, nothing else |
| `ControlsClass.Controls.ResetWindLock` | gate-core/src/gate.rs:172-175 | clears the lock and raises the reset signal, nothing else |
| `ControlsClass.Controls.SetBarrier1` | gate-core/src/gate.rs:178-185 | sets the flag, wakes a movement, and queues Open again when clearing under the lock |
| `ControlsClass.Controls.SetBarrier2` | gate-core/src/gate.rs:188-191 | sets the flag and wakes a movement |
| `ControlsClass.Controls.SetBarrierBypass` | gate-core/src/gate.rs:197-202 | sets the bypass and wakes movement and warning light |
| `ControlsClass.Controls.Obstruction` | gate-core/src/gate.rs:229-243 | the first obstacle, and none exactly when barriers, bypass and wind lock permit the movement as documented |
| `ControlsClass.Controls.Resolve` | gate-core/src/gate.rs:246-258 | an impulse becomes Open or Close by position and last direction |
| `ControlsClass.Controls.SetDirection` | gate-core/src/gate.rs:260-268 | records current and last direction and wakes the light |
| `ControlsClass.Controls.Apply` | app-core/src/mqtt.rs:94-102 | an MQTT command is its `Controls` method |
| `GateClass.Gate.constructor` | gate-core/src/gate.rs:307-326 | restores the lock, queues Open if locked, settles and announces once |
| `GateClass.Gate.Notify` | app-core/src/mqtt.rs:111-126 | appends the three state messages |
| `GateClass.Gate.Settle` | gate-core/src/gate.rs:366-380 | goes idle, reclassifies the position, announces, and returns the snapshot |
| `GateClass.Gate.PlanLeaf` | gate-core/src/gate.rs:468-477 | a leaf that has to move waits for its delay and its reverse pause |
| `GateClass.Gate.AdvanceLeaf` | gate-core/src/gate.rs:411-435 | a due leaf is started, a finished one stopped |
| `GateClass.Gate.EndDrive` | gate-core/src/gate.rs:458-464 | both motors stop, and a movement uses up the bypass |
| `GateClass.Gate.Round` | gate-core/src/gate.rs:403-439 | one round of the drive loop |
| `GateClass.Gate.Select` | gate-core/src/gate.rs:441-455 | the first ready future wins and only it is consumed |
| `GateClass.Gate.BeginDrive` | gate-core/src/gate.rs:388-403 | a blocked drive does nothing; otherwise it announces, plans both leaves and runs the first round |
| `GateClass.Gate.PollDrive` | gate-core/src/gate.rs:403-464 | one segment of a movement |
| `GateClass.Gate.Poll` | gate-core/src/gate.rs:339-363 | one segment of the gate task from idle wait or movement |
| `TaskClass.GateTask.Poll` | src/physical/gate.rs:124-128 | a settled state that differs from `saved` begins a save |
| `TaskClass.GateTask.SaveFinished` | src/physical/gate.rs:129-132 | only a successful save changes the record and `saved` |
| `TaskClass.GateTask.Execute` | src/physical/gate.rs:31-38 | applies the command and announces a bypass change at once |
| `GateInvariant.PollLeafOk` | gate-core/src/gate.rs:411-429 | motor and phase of a leaf stay matched; a leaf that is done is at its end stop |
| `GateInvariant.PolledOk` | gate-core/src/gate.rs:339-465 | every segment keeps motors, phases, deadline, direction flags and position class consistent |
| `GateInvariant.ReachableOk` | gate-core/src/gate.rs:307-465 | that invariant in every reachable state |
| `Theorems.InvReachable` | gate-core/src/gate.rs:55-465 | the combined invariant of all properties in every reachable state |
| `Theorems.RelaysAlwaysSafe` | gate-core/src/motor.rs:125-162 | in every run and every prefix of the pin writes: never both relays high, the reverse pause kept, a high relay matches the direction, all four low outside a movement and during saves |
| `Safety.BlockedMovementStops` | gate-core/src/gate.rs:403-460 | the segment after a movement becomes blocked ends it with all relays low |
| `Theorems.NoLostSafetyWakeUp` | gate-core/src/gate.rs:164-202 | a blocked movement always has its wake-up pending |
| `Safety.NoStartWhileBlocked` | gate-core/src/gate.rs:403-423 | no action energizes a relay whose direction is blocked |
| `Theorems.NeverStartsForbidden` | gate-core/src/gate.rs:229-243 | stated in barrier, bypass and lock flags: nothing starts that the documentation forbids |
| `Inputs.LastReportIsLast` | gate-core/src/gate.rs:161-202 | the last report of a run is that of the last action that reports, or the initial value if none does |
| `Inputs.InputsRaiseSignals` | gate-core/src/gate.rs:118-202 | every input leaves exactly the command in the slot, and raises exactly the movement, reset and light signals, that it should; motors and movement are left to the gate task |
| `Theorems.FlagsAreAsReported` | gate-core/src/gate.rs:164-191 | in every run from boot the lock is engaged if and only if the last of wind guard and resets was the wind guard, or none came and flash was locked; each light barrier is as last reported |
| `Theorems.NothingStartsAgainstInputs` | gate-core/src/gate.rs:403-423 | in every run no action energizes a relay that the last reported barrier levels and wind guard forbid |
| `Theorems.InputsStopMovement` | gate-core/src/gate.rs:178-191 | in every run a movement that those reports forbid is over with the next segment, all relays low |
| `Theorems.BarriersStopExactlyWhatTheyShould` | gate-core/src/gate.rs:403-456 | between deadlines, with no command or its own again, a movement goes on unchanged if it is permitted and is over if not |
| `Theorems.CommandEndsMovement` | gate-core/src/gate.rs:441-451 | with any command but the movement's own in the slot, a segment before the deadline ends it with all relays low and hands only the opposite direction back; one from the deadline on keeps the command, and the movement is over or has less left to do |
| `Theorems.CommandEndsWithinFourSegments` | gate-core/src/gate.rs:441-464 | in every run, whatever the readings, such a movement is over within four segments with all relays low, its command obeyed or still in the slot, unless its own direction is queued again |
| `Scenarios.DueLeafStartsDespiteStop` | gate-core/src/gate.rs:441-447 | a reachable state in which a stop is in the slot and the next segment still energizes a leaf |
| `Theorems.HandedBackCommandRuns` | gate-core/src/gate.rs:341-355 | a handed-back command runs next, ahead of anything queued since |
| `Theorems.ResetIsAnnouncedAtOnce` | gate-core/src/gate.rs:452-454 | a wind lock reset during a movement is announced by the segment that takes it, in literal topics and payloads, and the movement goes on |
| `Theorems.DeadlineServesLeaves` | gate-core/src/gate.rs:410-429 | a segment woken by the deadline starts each due leaf for exactly its planned time after the loop reading, stops each finished one, and leaves the others alone |
| `Theorems.FirstReadyIsTaken` | gate-core/src/gate.rs:441-455 | a segment that goes on takes the first of deadline, command, barrier change and reset that is there, and leaves every other signal and flag alone |
| `Theorems.MqttCommandMovesGate` | app-core/src/mqtt.rs:94-102 | an MQTT open or close moves an unlocked gate at rest that way in its next segment |
| `Theorems.MqttStopStopsGate` | app-core/src/mqtt.rs:94-102 | an MQTT stop changes nothing under the wind lock; otherwise it ends the movement in the next segment before the deadline, and within four segments in any case |
| `Theorems.BootsAsRecorded` | gate-core/src/gate.rs:307-326 | a gate never saved boots closed, unlocked and idle; any other at the positions and lock in flash, with an Open pending if locked; all relays are driven low first and the state is announced once |
| `Theorems.MovementCompletes` | gate-core/src/gate.rs:424-439 | a movement that ends undisturbed has both leaves at its end |
| `WindLock.WindStep` | gate-core/src/gate.rs:126-185 | every step keeps a locked gate pursuing Open or behind an interrupted barrier 1, with nothing but Open queued |
| `Theorems.WindLockIsPursued` | gate-core/src/gate.rs:161-185 | in every reachable locked state the gate is open, opening or about to open if and only if it is not stranded; a stranded one is behind barrier 1, and may open if and only if the bypass is armed |
| `WindLock.StrandedStep` | gate-core/src/gate.rs:161-202 | a stranded gate stays stranded and unmoved through exactly the actions other than a wind trigger, a lock reset and barrier 1 clearing |
| `WindLock.StrandedUntilReleased` | gate-core/src/gate.rs:161-202 | through every run without such an action no relay of a stranded gate is written and no position changes |
| `Theorems.OnlyBarrier1Strands` | gate-core/src/gate.rs:161-163 | in every run a stranded gate became so in a segment that found the opening blocked by barrier 1, never by an input |
| `Scenarios.BypassStrandsLock` | gate-core/src/gate.rs:161-163 | a reachable state that is locked, not open and permitted to open, with nothing queued |
| `WindLock.RestoredLockIsPursuedIff` | gate-core/src/gate.rs:303-326 | a restored lock is pursued, or barrier 1 active, in all runs if and only if at boot the slot held nothing but Open, or barrier 1 was active, or both leaves were open |
| `Theorems.IgnoredUnderLock` | gate-core/src/gate.rs:126-159 | under the lock an open, close, stop or impulse changes nothing |
| `Theorems.NothingClosesInStorm` | gate-core/src/gate.rs:161-167 | in every run after a wind guard trip without a reset the lock holds, nothing but Open is queued, no relay for closing is energized, and a closing movement is over with its next segment |
| `Theorems.ForcedOpeningIsUndisturbed` | gate-core/src/gate.rs:78-81 | locked and permitted to open, nothing can disturb the opening |
| `Theorems.ForcedOpeningBegins` | gate-core/src/gate.rs:339-363 | a locked gate at rest that may open and is not open begins to with its next segment, or the one after a handed-back close is refused - except a stranded one, which is behind a bypassed barrier 1 and stays |
| `Theorems.ForcedOpeningEndsOpen` | gate-core/src/gate.rs:78-81 | for any skew and lateness, a forced opening that is permitted ends with both leaves at 255 |
| `Theorems.ForcedOpeningArrives` | gate-core/src/gate.rs:161-167 | begun from a queued, handed-back or restored Open, and polled at most `late` late while locked and permitted, the forced opening is over by its schedule plus twice lateness and skew, with both leaves at 255 |
| `Bypass.BypassIsOneShot` | gate-core/src/gate.rs:193-202 | over every run, no more movements energize a motor under an armed bypass than it was armed |
| `Bypass.BypassUsedUp` | gate-core/src/gate.rs:458-464 | in every run, the segment that ends a movement clears the bypass exactly when the pins were seen to be energized by that movement |
| `Bypass.BypassIsAsShown` | gate-core/src/gate.rs:193-202 | in every run the bypass is off at boot, as last armed or disarmed, and off with the end of a movement seen to be energized; nothing else changes it |
| `Theorems.AnnouncementsAreTrue` | app-core/src/mqtt.rs:105-126 | the gate announces whenever a movement begins or ends, a reset is taken, the bypass is set or the broker asks, and whatever it announces ends with movement or position, wind lock and bypass as they then are, in literal topics and payloads |
| `Theorems.LastMessagesWereTrue` | src/physical/gate.rs:68-76 | in every run the last three messages state the gate, wind lock included, as it was at its last announcement |
| `Theorems.PublishedStateIsCurrent` | src/physical/gate.rs:68-76 | at rest with nothing outstanding the last three messages state positions, lock and bypass as they are |
| `Announcing.LinkRunOk` | src/physical/gate.rs:68-76 | in every interleaving of controller, other publishers, sender and reconnects the messages of the last announcement stand in the channel where the count of newer ones says, not lost while few are newer and none was drained |
| `Theorems.CurrentStateIsKept` | src/infra/mqtt_client.rs:106-131 | in every such interleaving from boot, at rest with nothing outstanding the three messages that state the gate as it is are delivered or queued, until a reconnect drains the queue or 14 newer messages are published |
| `Theorems.PublishedMovementIsCurrent` | gate-core/src/gate.rs:394-395 | during a movement the announced direction and bypass are current |
| `Persistence.IterationPersists` | src/physical/gate.rs:121-133 | after a successful iteration flash, `saved` and the settled state agree |
| `Persistence.SignalForcesProgress` | gate-core/src/gate.rs:341-350 | an outstanding command or reset makes the next segment settle or move |
| `Theorems.RebootReproducesState` | src/physical/gate.rs:104-133 | flash always equals `saved`; at rest a reboot restores positions and lock if and only if `saved` is the last settled state with the lock as it is now; a lock change leaves a signal |
| `Theorems.PowerLossAtRestLosesNothing` | src/physical/gate.rs:104-133 | in every run without a failed save, at rest with no save in progress and no command or reset outstanding, a reboot restores positions and lock |
| `Scenarios.PowerLossForgetsMovement` | src/physical/gate.rs:104-133 | a reachable state in which flash says closed while a stop would find leaf A at 85 |
| `ImpulseCycle.IdleImpulseMoves` | gate-core/src/gate.rs:246-258 | at rest an impulse always resolves to a direction some leaf must move in |
| `ImpulseCycle.ImpulseStopsThenReverses` | gate-core/src/gate.rs:246-258 | an impulse ends a movement before its deadline and waits in the slot otherwise; after the movement the next impulse repeats its direction if both leaves were at their start and had run for less than one unit, and else reverses it |
| `Scenarios.ThirdPressRepeats` | README.md:9-10 | a reachable state in which leaf A is energized, a second press stops it and the third opens again |
| `ImpulseCycle.ImpulseAlternates` | gate-core/src/gate.rs:150-159 | in every run an impulse at a partial position goes against the last movement |
| `LeafOrder.OrderStep` | gate-core/src/gate.rs:397-429 | every step keeps a later leaf from being energized before an earlier one: A before B exactly, B before A exactly if the lateness is below the margin of their delays and else up to the skew |
| `LeafOrder.OrderInTime` | gate-core/src/gate.rs:397-429 | for every configuration, that order in every run of bounded lateness |
| `Theorems.InstalledLeavesKeepOrder` | src/physical/gate_config.rs:4-41 | in every reachable state of the installation, however late its polls, leaf A opens first and leaf B closes first up to the skew |
| `Theorems.DocumentedOrderIff` | src/physical/gate_config.rs:4-10 | the documented order holds in every run of the installation that is at most `late` late if and only if that is less than 2 s, or the skew is 0 |
| `Scenarios.LatePollSwapsLeaves` | gate-core/src/gate.rs:411-423 | for every positive skew, a run of the installation, 2 s late once, that energizes A before B while closing |
| `Schedule.MovementFollowsSchedule` | gate-core/src/gate.rs:339-456 | with a clock that stands still within a segment: from the command on, along every prompt undisturbed run pins, traces and estimates are those of the closed form at every moment |
| `Schedule.CompletedTrace` | gate-core/src/gate.rs:411-429 | the closed form goes on once, at the later of delay and reverse pause, and off exactly the run time later |
| `Lateness.LateMovementIsNearSchedule` | gate-core/src/gate.rs:397-456 | for any skew and any lateness of the polls, each leaf of an undisturbed movement goes on once and off once, never before the closed form's instants and within the lateness plus skew, once for on and twice for off, after them |
| `Lateness.LateMovementArrives` | gate-core/src/gate.rs:339-456 | for any skew and lateness, from a queued, handed-back, restored or impulse command at rest to both leaves at the end, no later than scheduled plus twice lateness and skew |
| `Schedule.AtMostFourTimerWakes` | gate-core/src/gate.rs:410-447 | the timer wakes any movement at most four times |
| `WarningLight.LampTask.Pass` | gate-core/src/warning_light.rs:17-28 | one pass of the lamp loop; the pin follows `lit` |
| `Theorems.LampNeverMissesActivity` | gate-core/src/gate.rs:208-216 | a lamp task parked in the dark has its wake-up pending whenever the gate moves or the bypass is armed |
| `WarningLight.LampTakesItsSignal` | gate-core/src/warning_light.rs:17-28 | a lamp pass changes nothing but the lamp, except that a parked one takes its wake-up |
| `WarningLight.DarkWithinHalfPeriod` | gate-core/src/warning_light.rs:17-28 | once the gate has rested with the bypass off for more than a half period the lamp is dark |
| `WarningLight.BlinksSteadily` | gate-core/src/warning_light.rs:8-22 | while the gate moves, initial delays included, or the bypass is armed, the lamp toggles exactly once per half period |
| `Debouncing.Debouncer.Sample` | gate-core/src/debounce.rs:23-37 | one sample; the byte counter cannot overflow |
| `Debouncing.DebouncerRefines` | gate-core/src/debounce.rs:23-37 | after every history the armed flag is the level of the latest full window and the counter is the trailing opposing run |
| `Debouncing.FlipsOnFullWindow` | gate-core/src/debounce.rs:21-37 | the level flips exactly when the last n samples oppose it, and a press is its rising edge |
| `Debouncing.PressesAreApart` | gate-core/src/debounce.rs:1-4 | presses are at least 2n samples apart with a full release window between them |
| `Outgoing.OutgoingQueue.Publish` | src/infra/mqtt_client.rs:113-131 | terminates with the newest message queued, dropping at most the oldest |
| `Outgoing.OutgoingQueue.Drain` | src/infra/mqtt_client.rs:241-244 | empties the queue |
| `Outgoing.QueueIsSuffix` | src/infra/mqtt_client.rs:46-49 | under every interleaving the queue is a suffix of everything published, at most 16 long, and deliveries are in publish order |
| `Outgoing.NewestSixteenSurvive` | src/infra/mqtt_client.rs:106-131 | without a reconnect a message survives until delivered unless 16 newer ones are published |
| `Outgoing.SinceReconnectKept` | src/infra/mqtt_client.rs:106-131 | in every interleaving, of whatever is published since a reconnect the newest 16 messages are delivered or queued, with their payloads |
| `Outgoing.BatchSurvives` | src/infra/mqtt_client.rs:106-131 | every message of a batch of at most 16 survives as many later publishes as there is room for beside it |
| `Outgoing.RepublishSurvives` | src/app/discovery.rs:13-25 | the 8 messages republished after a reconnect survive up to 8 further publishes |

## Left out

- Wi-Fi, DHCP, provisioning, DNS, TCP and the vendored MQTT client: I/O and library code.
- `sequential-storage` internals: the flash is one record that a save replaces or leaves alone.
- `Command::parse`, topics other than the three state topics, discovery payloads and form validation: finite tables that would only add easy members.
- GPIO setup, pin polarity and the BOOT-button reset: inputs are arbitrary actions.
- Logging, wakers and the executor: polls may happen at any time after their readings.
- Overflow of 64-bit millisecond products for astronomically long durations.
- A wind lock tripped during a movement being in flash already: the code persists only after settling.
- MotorClass.Motor.Settle: an `Instant` earlier than the recorded start would panic in the source; the model takes 0 elapsed, and the invariant `ClockSane` shows it never happens in a run.
- GateClass.Gate.AdvanceLeaf: the loop over the two-element leaf array is two calls in order; a leaf started and stopped in one pass shares one clock reading.
- Schedule.MovementFollowsSchedule: exact instants are stated for a clock that stands still within a segment and for polls no later than the deadlines; otherwise `Lateness.LateMovementArrives` gives the bounds.
- Outgoing.NewestSixteenSurvive: delivery means being taken from the queue; a send that fails on the socket loses the message.
