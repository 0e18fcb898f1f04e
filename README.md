# Drone-control client core, modelled in Dafny

This project models the core of a control client for a quadcopter. The client:

- starts several worker channels (command sender, navigation-data retriever, configuration-data retriever, video retriever);
- merges their readiness signals into one five-valued startup state;
- logs in with commands acknowledged through a bit of the telemetry;
- reads and parses the vehicle's textual configuration dump;
- exposes a gated command façade.

Two client-side components of the same repository are modelled as well: the input controller of the gesture client and the hand-detection component of the perceptual pipeline.

The modules follow the source files:

| module | file | models |
|---|---|---|
| `DroneTypes` | drone_types.dfy | the shared values: readiness signals, controller states, nav data, configuration snapshots, commands |
| `JavaStrings` | java_strings.dfy | `String.split` for a literal separator with the default limit 0 |
| `ConfigData` | configuration_data_retriever.dfy | `ConfigurationDataRetriever` |
| `Coordinator` | drone_coordinator.dfy | `DroneCoordinator` |
| `Controller` | drone_controller.dfy | `DroneController` |
| `IntelControl` | drone_input_controller.dfy | `DroneInputController` |
| `Perceptual` | detection_component.dfy | `DetectionComponent` |

How the model is built:

- **Waits.** Threads and busy waits become a sequential schedule. A `while (!condition) sleep(WAIT_PERIOD)` loop checks its condition. While the condition fails, one period of 15 ms passes, counted in the field `waited`, and one *tick* of worker callbacks is applied. A tick is the batch of callbacks delivered during that sleep. The ticks come from a finite list held in the object (`ticks`). A wait that finds the list used up fails, where the original would poll for ever. Each wait is specified by the pure function `Coordinator.Await`, and every coordinator method is proved equal to a pure function of the old fields and the schedule.
- **Sockets.** The configuration socket becomes a finite script of `readLine` outcomes: a line, null, a timeout or an I/O failure. Once the script is used up, `readLine` reports null.
- **Objects.** Each class keeps its mutable fields. The calls it makes on collaborators this model does not see are recorded in logs: commands sent, worker starts and stops, listener registrations, race-timer calls.

## Model

| member | source | states |
|---|---|---|
| JavaStrings.SplitAll | src/main/java/com/tngtech/leapdrone/drone/ConfigurationDataRetriever.java:168 | every field between the leftmost non-overlapping occurrences, empty ones included; at least one field; characterised by `JoinSplitAll` and `SplitAllFieldsLackSeparator` |
| JavaStrings.Split | src/main/java/com/tngtech/leapdrone/drone/ConfigurationDataRetriever.java:168 | `split` with limit 0: the line itself when the separator does not occur, otherwise the fields with the trailing empty ones dropped (see `DropTrailingEmpty`, `SplitWithoutOccurrence`) |
| JavaStrings.IndexFrom | src/main/java/com/tngtech/leapdrone/drone/ConfigurationDataRetriever.java:168 | the result is the first occurrence of the separator at or after `from`; None exactly when there is none |
| JavaStrings.DropTrailingEmpty | src/main/java/com/tngtech/leapdrone/drone/ConfigurationDataRetriever.java:168 | the result is a prefix of the fields, does not end with an empty field, and only empty fields were dropped |
| JavaStrings.JoinSplitAll | src/main/java/com/tngtech/leapdrone/drone/ConfigurationDataRetriever.java:168 | splitting loses nothing: joining the fields with the separator restores the line |
| JavaStrings.SplitAllAtFirst | src/main/java/com/tngtech/leapdrone/drone/ConfigurationDataRetriever.java:168 | the first field is the text before the first occurrence, and the remaining fields are the split of the text after it |
| JavaStrings.JoinTrailingEmpty | src/main/java/com/tngtech/leapdrone/drone/ConfigurationDataRetriever.java:168 | trailing empty fields add only their separators to the joined line, so the fields `split` drops are separators only |
| JavaStrings.SplitAllFieldsLackSeparator | src/main/java/com/tngtech/leapdrone/drone/ConfigurationDataRetriever.java:168 | no field produced by the split contains the separator |
| JavaStrings.SplitWithoutOccurrence | src/main/java/com/tngtech/leapdrone/drone/ConfigurationDataRetriever.java:168 | a string without the separator splits into itself alone |
| ConfigData.ParseLine | src/main/java/com/tngtech/leapdrone/drone/ConfigurationDataRetriever.java:168-174 | a line contributes the pair (field 0, field 1) exactly when `split` gives two fields; characterised by the `ParseLine*` lemmas below |
| ConfigData.TrailingSeparatorsOnly | src/main/java/com/tngtech/leapdrone/drone/ConfigurationDataRetriever.java:168-174 | a kept line is key, separator, value, then nothing but separators |
| ConfigData.ParseLineSound | src/main/java/com/tngtech/leapdrone/drone/ConfigurationDataRetriever.java:166-174 | a kept line is key, separator, value followed only by further separators; the value is non-empty and neither part contains the separator |
| ConfigData.ParseLineRoundTrip | src/main/java/com/tngtech/leapdrone/drone/ConfigurationDataRetriever.java:168-174 | `key = value`, and also `key = value = `, parse back to (key, value) for '='-free key and non-empty value |
| ConfigData.ParseLineWithoutSeparator | src/main/java/com/tngtech/leapdrone/drone/ConfigurationDataRetriever.java:168-172 | a line without the separator contributes nothing |
| ConfigData.ParseLineExampleNoSeparator | src/main/java/com/tngtech/leapdrone/drone/ConfigurationDataRetriever.java:168-172 | `bad-line` is dropped |
| ConfigData.ParseLineExampleThreeFields | src/main/java/com/tngtech/leapdrone/drone/ConfigurationDataRetriever.java:168-172 | `b = 2 = x` gives three fields and is dropped |
| ConfigData.ParseLineExampleEmptyValue | src/main/java/com/tngtech/leapdrone/drone/ConfigurationDataRetriever.java:168-172 | `k = ` loses its empty trailing field and is dropped |
| ConfigData.ParseLineExampleTrailingSeparator | src/main/java/com/tngtech/leapdrone/drone/ConfigurationDataRetriever.java:168-174 | `k = v = ` keeps k to v |
| ConfigData.ParseLineExampleEmptyKey | src/main/java/com/tngtech/leapdrone/drone/ConfigurationDataRetriever.java:168-174 | ` = v` keeps the empty key, because a leading empty field is not dropped |
| ConfigData.Entries | src/main/java/com/tngtech/leapdrone/drone/ConfigurationDataRetriever.java:164-175 | the map filled line by line, a later `put` overwriting an earlier one; characterised by `EntriesLastLineWins` |
| ConfigData.LastDefinition | src/main/java/com/tngtech/leapdrone/drone/ConfigurationDataRetriever.java:166-174 | reference definition: the index of the last line that defines the key, or None when no line does |
| ConfigData.EntriesLastLineWins | src/main/java/com/tngtech/leapdrone/drone/ConfigurationDataRetriever.java:164-177 | a key is in the snapshot iff some line defines it; its value is the one on the last such line |
| ConfigData.GetDroneConfiguration | src/main/java/com/tngtech/leapdrone/drone/ConfigurationDataRetriever.java:162-178 | the loop over the lines builds exactly the later-line-wins snapshot |
| ConfigData.ReadBatch | src/main/java/com/tngtech/leapdrone/drone/ConfigurationDataRetriever.java:115-144 | one `readLines`: the batch (or IllegalState) and the unread rest of the script, which is never longer and is shorter whenever the script was not empty; characterised by `ReadBatchIsLeadingLines` |
| ConfigData.LeadingLines | src/main/java/com/tngtech/leapdrone/drone/ConfigurationDataRetriever.java:133-137 | counts the lines at the head of the script before the first outcome that is not a line |
| ConfigData.ReadBatchIsLeadingLines | src/main/java/com/tngtech/leapdrone/drone/ConfigurationDataRetriever.java:115-144 | a batch is the leading lines in arrival order; null or a timeout ends it normally; a read failure becomes IllegalState; one outcome past the lines is consumed |
| ConfigData.RunBatches | src/main/java/com/tngtech/leapdrone/drone/ConfigurationDataRetriever.java:95-104 | the batches of n successive `readLines` rounds, one per round, and what is left of the script; it never grows |
| ConfigData.RunBatchesFirst | src/main/java/com/tngtech/leapdrone/drone/ConfigurationDataRetriever.java:95-104 | the rounds read the script front to back: the first batch is one `readLines` on the script, the later ones are read from what it left |
| ConfigData.RunBatchesExhausted | src/main/java/com/tngtech/leapdrone/drone/ConfigurationDataRetriever.java:95-104 | once the script is used up every round reads an empty batch |
| ConfigData.ConfigurationDataRetriever.constructor | src/main/java/com/tngtech/leapdrone/drone/ConfigurationDataRetriever.java:40-49 | starts with no listeners and the whole script unread |
| ConfigData.ConfigurationDataRetriever.AddReadyStateChangeListener | src/main/java/com/tngtech/leapdrone/drone/ConfigurationDataRetriever.java:63-66 | hands the listener to the ready-state component |
| ConfigData.ConfigurationDataRetriever.RemoveReadyStateChangeListener | src/main/java/com/tngtech/leapdrone/drone/ConfigurationDataRetriever.java:68-71 | as written, registers the listener again instead of removing it |
| ConfigData.ConfigurationDataRetriever.AddDroneConfigurationListener | src/main/java/com/tngtech/leapdrone/drone/ConfigurationDataRetriever.java:73-79 | the set gains the listener; adding one already registered changes nothing |
| ConfigData.ConfigurationDataRetriever.RemoveDroneConfigurationListener | src/main/java/com/tngtech/leapdrone/drone/ConfigurationDataRetriever.java:81-87 | the set loses only that listener; removing an absent one changes nothing |
| ConfigData.ConfigurationDataRetriever.ReadLine | src/main/java/com/tngtech/leapdrone/drone/ConfigurationDataRetriever.java:132-136 | the next scripted outcome, or null once the script is used up |
| ConfigData.ConfigurationDataRetriever.ReadLines | src/main/java/com/tngtech/leapdrone/drone/ConfigurationDataRetriever.java:115-144 | the read loop returns the batch, and leaves the rest of the script, exactly as `ReadBatch` describes |
| ConfigData.ConfigurationDataRetriever.ProcessData | src/main/java/com/tngtech/leapdrone/drone/ConfigurationDataRetriever.java:146-160 | an empty batch notifies no one; any other batch notifies every listener exactly once with the same snapshot, even an empty one |
| ConfigData.ConfigurationDataRetriever.Run | src/main/java/com/tngtech/leapdrone/drone/ConfigurationDataRetriever.java:89-107 | connect, READY once, then round k processes the k-th batch that `RunBatches` reads from the script, publishing it as `ProcessData` does (a failed read is swallowed and publishes nothing); the script is left as `RunBatches` leaves it; then disconnect |
| Coordinator.NextOnWorkerReady | src/main/java/com/tngtech/leapdrone/drone/DroneCoordinator.java:116-123 | `workerReady`: READY advances STARTED, then one, then two retrievers ready, and anything else to WORKERS_READY; NOT_READY changes nothing; characterised by `ReadinessCountsSignals` |
| Coordinator.NextOnVideoReady | src/main/java/com/tngtech/leapdrone/drone/DroneCoordinator.java:125-131 | `videoRetrieverReady`: READY sets READY; NOT_READY changes nothing; characterised by `VideoReadyEndsStartup` |
| Coordinator.Apply | src/main/java/com/tngtech/leapdrone/drone/DroneCoordinator.java:63-141 | one callback routed as the listeners of `addListeners` route it |
| Coordinator.ReadySenderIrrelevant | src/main/java/com/tngtech/leapdrone/drone/DroneCoordinator.java:63-88 | the three base workers' READY signals have the same effect |
| Coordinator.ReadinessCountsSignals | src/main/java/com/tngtech/leapdrone/drone/DroneCoordinator.java:116-123 | after any callbacks without a video signal, the state is the one reached by counting the base workers' READY signals; NOT_READY, nav data and configurations do not move it; signals alone leave nav data and configuration alone |
| Coordinator.WorkersReadyExactlyAfterThree | src/main/java/com/tngtech/leapdrone/drone/DroneCoordinator.java:120-121 | from STARTED, over any callbacks without a video signal, WORKERS_READY holds iff at least three READY signals arrived |
| Coordinator.VideoReadyEndsStartup | src/main/java/com/tngtech/leapdrone/drone/DroneCoordinator.java:125-131 | a video READY sets READY from any state; a video NOT_READY changes nothing |
| Coordinator.LateWorkerReadyLeavesReady | src/main/java/com/tngtech/leapdrone/drone/DroneCoordinator.java:120-121 | a base worker READY in state READY moves the state back to WORKERS_READY |
| Coordinator.OtherCallbacksKeepConfiguration | src/main/java/com/tngtech/leapdrone/drone/DroneCoordinator.java:133-141 | nav-data and readiness callbacks leave the stored configuration unchanged |
| Coordinator.ConfigurationIsLatestSnapshot | src/main/java/com/tngtech/leapdrone/drone/DroneCoordinator.java:138-141 | after any callbacks, a snapshot, then any callbacks other than snapshots, the stored configuration is that snapshot |
| Coordinator.ConfigurationIsNeverLost | src/main/java/com/tngtech/leapdrone/drone/DroneCoordinator.java:138-141 | once a configuration is stored, no callback clears it |
| Coordinator.AckNeedsNavData | src/main/java/com/tngtech/leapdrone/drone/DroneCoordinator.java:198-204 | with no nav data yet, no acknowledgement wait is satisfied |
| Coordinator.Await | src/main/java/com/tngtech/leapdrone/drone/DroneCoordinator.java:190-212 | a busy wait: done when the condition holds, else one tick passes, failing when the schedule is used up; characterised by `AwaitStopsAtFirstSatisfyingTick` |
| Coordinator.AwaitStopsAtFirstSatisfyingTick | src/main/java/com/tngtech/leapdrone/drone/DroneCoordinator.java:190-212 | a wait returns at the first tick boundary where its condition holds, having used exactly the earlier ticks; it fails only if the condition holds at no boundary |
| Coordinator.AwaitOutcome | src/main/java/com/tngtech/leapdrone/drone/DroneCoordinator.java:190-212 | a wait succeeds exactly when its condition holds in the state it stops in; a failed wait has used up the whole schedule; a wait never adds ticks |
| Coordinator.Handshake | src/main/java/com/tngtech/leapdrone/drone/DroneCoordinator.java:175-183 | `sendConfigCommandToBeAcknowledged` on the schedule: ack true, reset, ack false, send, ack true; characterised by `HandshakeResetsThenSends` |
| Coordinator.HandshakeResetsThenSends | src/main/java/com/tngtech/leapdrone/drone/DroneCoordinator.java:175-188 | it sends reset (with the bit seen true), then the target (with the bit seen false); it completes only with both sent and the bit true again; a failure has sent a prefix |
| Coordinator.RoundsAlternate | src/main/java/com/tngtech/leapdrone/drone/DroneCoordinator.java:161-169 | successive handshakes send reset and target alternately, the targets in order; completion means all of them were sent |
| Coordinator.Login | src/main/java/com/tngtech/leapdrone/drone/DroneCoordinator.java:161-173 | the five handshakes in order, giving up at the first failure, then the configuration wait; characterised by `LoginSendsTenCommands` |
| Coordinator.LoginSendsTenCommands | src/main/java/com/tngtech/leapdrone/drone/DroneCoordinator.java:161-170 | a completed login has sent the ten commands in order (session, profile and application ids, demo flag, control-data request, each after a reset) and holds a configuration |
| Coordinator.StartSequence | src/main/java/com/tngtech/leapdrone/drone/DroneCoordinator.java:143-159 | `start` on the schedule: three worker starts, the WORKERS_READY wait, login, the video start, the READY wait; characterised by `StartOrder` |
| Coordinator.StartOrder | src/main/java/com/tngtech/leapdrone/drone/DroneCoordinator.java:143-159 | base workers start in the order sender, config, nav; video starts only after the ten login commands; success means state READY |
| Coordinator.DroneCoordinator.constructor | src/main/java/com/tngtech/leapdrone/drone/DroneCoordinator.java:48-61 | state STARTED, no nav data, no configuration; the video retriever is chosen by drone version |
| Coordinator.DroneCoordinator.WorkerReady | src/main/java/com/tngtech/leapdrone/drone/DroneCoordinator.java:116-123 | the state after `workerReady` |
| Coordinator.DroneCoordinator.VideoRetrieverReady | src/main/java/com/tngtech/leapdrone/drone/DroneCoordinator.java:125-131 | the state after `videoRetrieverReady` |
| Coordinator.DroneCoordinator.NavDataReceived | src/main/java/com/tngtech/leapdrone/drone/DroneCoordinator.java:133-136 | the latest nav data replaces the previous one |
| Coordinator.DroneCoordinator.DroneConfigurationReceived | src/main/java/com/tngtech/leapdrone/drone/DroneCoordinator.java:138-141 | the latest configuration replaces the previous one |
| Coordinator.DroneCoordinator.OnEvent | src/main/java/com/tngtech/leapdrone/drone/DroneCoordinator.java:63-114 | each callback is routed as the listeners route it |
| Coordinator.DroneCoordinator.Sleep | src/main/java/com/tngtech/leapdrone/drone/DroneCoordinator.java:194 | one WAIT_PERIOD passes: the next tick's callbacks are applied in order and 15 ms are added to the time waited |
| Coordinator.DroneCoordinator.WaitForState | src/main/java/com/tngtech/leapdrone/drone/DroneCoordinator.java:190-196 | the polling loop behaves as `Await` for the state; 15 ms are spent per tick it uses |
| Coordinator.DroneCoordinator.WaitForCommandAcknowledgeFlagToBe | src/main/java/com/tngtech/leapdrone/drone/DroneCoordinator.java:198-204 | the polling loop behaves as `Await` for the ack bit; 15 ms are spent per tick it uses |
| Coordinator.DroneCoordinator.WaitForConfigurationData | src/main/java/com/tngtech/leapdrone/drone/DroneCoordinator.java:206-212 | the polling loop behaves as `Await` for a configuration; 15 ms are spent per tick it uses |
| Coordinator.DroneCoordinator.SendCommand | src/main/java/com/tngtech/leapdrone/drone/DroneCoordinator.java:181 | `commandSender.sendCommand`: the command is appended to what was sent |
| Coordinator.DroneCoordinator.SendResetControlDataAcknowledgementFlagCommand | src/main/java/com/tngtech/leapdrone/drone/DroneCoordinator.java:185-188 | sends the reset-ack control command |
| Coordinator.DroneCoordinator.SendConfigCommandToBeAcknowledged | src/main/java/com/tngtech/leapdrone/drone/DroneCoordinator.java:175-183 | the method's effect is `Handshake` |
| Coordinator.DroneCoordinator.LoginAndDetermineConfiguration | src/main/java/com/tngtech/leapdrone/drone/DroneCoordinator.java:161-173 | the method's effect is `Login` |
| Coordinator.DroneCoordinator.Start | src/main/java/com/tngtech/leapdrone/drone/DroneCoordinator.java:143-159 | the method's effect is `StartSequence`, worker starts included |
| Coordinator.DroneCoordinator.Stop | src/main/java/com/tngtech/leapdrone/drone/DroneCoordinator.java:214-220 | stops command sender, nav, config and video, in that order |
| Controller.Dispatch | src/main/java/com/tngtech/leapdrone/drone/DroneController.java:142-225 | an intent succeeds iff the state is READY (LED animation: any state) and, for the checksummed commands, a config is stored; the failure is the gate's when the gate fails; only the set-value and camera intents go to the executor |
| Controller.DispatchCarriesArguments | src/main/java/com/tngtech/leapdrone/drone/DroneController.java:142-215 | an allowed intent's one command carries its arguments, so the intent can be read back from it; checksummed commands carry the stored checksums |
| Controller.DispatchInjective | src/main/java/com/tngtech/leapdrone/drone/DroneController.java:142-215 | two intents never submit the same command |
| Controller.LedAnimationIgnoresState | src/main/java/com/tngtech/leapdrone/drone/DroneController.java:212-215 | the LED animation does not depend on the coordinator state |
| Controller.DroneController.constructor | src/main/java/com/tngtech/leapdrone/drone/DroneController.java:50-62 | no config and nothing sent |
| Controller.DroneController.IsInitialized | src/main/java/com/tngtech/leapdrone/drone/DroneController.java:93-96 | initialized means the coordinator state is READY |
| Controller.DroneController.CheckInitializationState | src/main/java/com/tngtech/leapdrone/drone/DroneController.java:93-96 | passes iff the coordinator state is READY (`isInitialized`), otherwise NotInitialized |
| Controller.DroneController.CheckInitializationStateStarted | src/main/java/com/tngtech/leapdrone/drone/DroneController.java:222-225 | passes iff the coordinator state is STARTED, otherwise AlreadyInitialized |
| Controller.DroneController.Start | src/main/java/com/tngtech/leapdrone/drone/DroneController.java:76-84 | only from STARTED: stores the config, and the effect log gains the coordinator start followed by the READY signal, in that order; otherwise nothing changes |
| Controller.DroneController.Stop | src/main/java/com/tngtech/leapdrone/drone/DroneController.java:86-91 | stops the coordinator only when initialized |
| Controller.DroneController.GetDroneVersion | src/main/java/com/tngtech/leapdrone/drone/DroneController.java:130-134 | the coordinator's version when initialized, else NotInitialized |
| Controller.DroneController.GetDroneConfiguration | src/main/java/com/tngtech/leapdrone/drone/DroneController.java:136-140 | the coordinator's configuration when initialized, else NotInitialized |
| Controller.DroneController.SendCommand | src/main/java/com/tngtech/leapdrone/drone/DroneController.java:177 | `commandSender.sendCommand`: the command is submitted directly, on the caller's thread |
| Controller.DroneController.SendAsyncConfigCommand | src/main/java/com/tngtech/leapdrone/drone/DroneController.java:160-170 | the command goes to the command sender's configuration path, ungated |
| Controller.DroneController.TakeOff | src/main/java/com/tngtech/leapdrone/drone/DroneController.java:172-178 | the method's effect is `Dispatch` for take-off |
| Controller.DroneController.Land | src/main/java/com/tngtech/leapdrone/drone/DroneController.java:180-186 | the method's effect is `Dispatch` for landing |
| Controller.DroneController.Emergency | src/main/java/com/tngtech/leapdrone/drone/DroneController.java:188-194 | the method's effect is `Dispatch` for emergency |
| Controller.DroneController.FlatTrim | src/main/java/com/tngtech/leapdrone/drone/DroneController.java:196-202 | the method's effect is `Dispatch` for flat trim |
| Controller.DroneController.Move | src/main/java/com/tngtech/leapdrone/drone/DroneController.java:204-210 | the method's effect is `Dispatch` for a move with the four arguments |
| Controller.DroneController.SetConfigurationValue | src/main/java/com/tngtech/leapdrone/drone/DroneController.java:142-149 | the method's effect is `Dispatch` for setting key to value |
| Controller.DroneController.SwitchCamera | src/main/java/com/tngtech/leapdrone/drone/DroneController.java:151-158 | the method's effect is `Dispatch` for the camera switch |
| Controller.DroneController.PlayLedAnimation | src/main/java/com/tngtech/leapdrone/drone/DroneController.java:212-215 | the method's effect is `Dispatch` for the LED animation, with no initialization check |
| Controller.DroneController.AddReadyStateChangeListener | src/main/java/com/tngtech/leapdrone/drone/DroneController.java:98-101 | registers with the ready-state component |
| Controller.DroneController.RemoveReadyStateChangeListener | src/main/java/com/tngtech/leapdrone/drone/DroneController.java:103-106 | as written, registers the listener instead of removing it |
| Controller.DroneController.AddNavDataListener | src/main/java/com/tngtech/leapdrone/drone/DroneController.java:108-111 | registers with the navigation retriever |
| Controller.DroneController.RemoveNavDataListener | src/main/java/com/tngtech/leapdrone/drone/DroneController.java:113-116 | unregisters from the navigation retriever |
| Controller.DroneController.AddVideoDataListener | src/main/java/com/tngtech/leapdrone/drone/DroneController.java:118-122 | registers with the H264 and then the P264 retriever |
| Controller.DroneController.RemoveVideoDataListener | src/main/java/com/tngtech/leapdrone/drone/DroneController.java:124-128 | unregisters from the H264 and then the P264 retriever |
| IntelControl.AfterTakeOff | intel-control/src/main/java/com/dronecontrol/intelcontrol/control/DroneInputController.java:88-96 | `takeOff` on the flags and the timer calls; characterised by `TakeOffRule` |
| IntelControl.AfterLand | intel-control/src/main/java/com/dronecontrol/intelcontrol/control/DroneInputController.java:98-104 | `land` on the flags and the timer calls; characterised by `LandRule` |
| IntelControl.AfterAction | intel-control/src/main/java/com/dronecontrol/intelcontrol/control/DroneInputController.java:51-76 | `onAction`: take-off and landing act, every other action is inert; characterised by `InertActions` |
| IntelControl.AfterReadyStateChange | intel-control/src/main/java/com/dronecontrol/intelcontrol/control/DroneInputController.java:142-149 | `onReadyStateChange`: `ready` becomes whether the state is READY; characterised by `NotReadyBlocksFlight` |
| IntelControl.AfterNavData | intel-control/src/main/java/com/dronecontrol/intelcontrol/control/DroneInputController.java:78-86 | `onNavData` without the altitude: `flying` from the packet, a timer stop on emergency; characterised by `NavDataRule` |
| IntelControl.AfterGesture | intel-control/src/main/java/com/dronecontrol/intelcontrol/control/DroneInputController.java:151-159 | `onGesture`: CIRCLE takes off; characterised by `CircleIsTakeOff` |
| IntelControl.TakeOffRule | intel-control/src/main/java/com/dronecontrol/intelcontrol/control/DroneInputController.java:88-96 | when ready and not flying: sets flying and starts the timer once; otherwise nothing changes; a second take-off is a no-op |
| IntelControl.LandRule | intel-control/src/main/java/com/dronecontrol/intelcontrol/control/DroneInputController.java:98-104 | when ready and flying: clears flying and stops the timer; otherwise nothing changes; a second landing is a no-op |
| IntelControl.LandUndoesTakeOff | intel-control/src/main/java/com/dronecontrol/intelcontrol/control/DroneInputController.java:88-104 | landing after a take-off brings the flags back; the timer was started, then stopped |
| IntelControl.CircleIsTakeOff | intel-control/src/main/java/com/dronecontrol/intelcontrol/control/DroneInputController.java:151-159 | a CIRCLE gesture acts exactly as the take-off action; other gestures do nothing |
| IntelControl.InertActions | intel-control/src/main/java/com/dronecontrol/intelcontrol/control/DroneInputController.java:52-76 | every action other than take-off and landing leaves flags and timer unchanged |
| IntelControl.NotReadyBlocksFlight | intel-control/src/main/java/com/dronecontrol/intelcontrol/control/DroneInputController.java:142-149 | after NOT_READY, no sequence of actions changes anything |
| IntelControl.TimerAlternatesWithoutTelemetry | intel-control/src/main/java/com/dronecontrol/intelcontrol/control/DroneInputController.java:52-104 | over actions, gestures and ready changes, timer starts and stops alternate, and the timer runs iff `flying` |
| IntelControl.InitialTracksFlight | intel-control/src/main/java/com/dronecontrol/intelcontrol/control/DroneInputController.java:33-49 | the initial controller is ready, not flying, with the timer idle |
| IntelControl.NavDataRule | intel-control/src/main/java/com/dronecontrol/intelcontrol/control/DroneInputController.java:78-86 | nav data sets `flying` from the packet; an emergency packet stops the timer |
| IntelControl.EmergencyBreaksAlternation | intel-control/src/main/java/com/dronecontrol/intelcontrol/control/DroneInputController.java:83-85 | an emergency packet after a landing stops the timer a second time in a row |
| IntelControl.DroneInputController.constructor | intel-control/src/main/java/com/dronecontrol/intelcontrol/control/DroneInputController.java:33-49 | ready, not flying, no timer call |
| IntelControl.DroneInputController.TakeOff | intel-control/src/main/java/com/dronecontrol/intelcontrol/control/DroneInputController.java:88-96 | the method's effect is `AfterTakeOff` |
| IntelControl.DroneInputController.Land | intel-control/src/main/java/com/dronecontrol/intelcontrol/control/DroneInputController.java:98-104 | the method's effect is `AfterLand` |
| IntelControl.DroneInputController.FlatTrim | intel-control/src/main/java/com/dronecontrol/intelcontrol/control/DroneInputController.java:106-110 | changes nothing |
| IntelControl.DroneInputController.Emergency | intel-control/src/main/java/com/dronecontrol/intelcontrol/control/DroneInputController.java:112-116 | changes nothing |
| IntelControl.DroneInputController.SwitchCamera | intel-control/src/main/java/com/dronecontrol/intelcontrol/control/DroneInputController.java:118-122 | changes nothing |
| IntelControl.DroneInputController.PlayLedAnimation | intel-control/src/main/java/com/dronecontrol/intelcontrol/control/DroneInputController.java:124-128 | changes nothing |
| IntelControl.DroneInputController.PlayFlightAnimation | intel-control/src/main/java/com/dronecontrol/intelcontrol/control/DroneInputController.java:130-134 | changes nothing |
| IntelControl.DroneInputController.Move | intel-control/src/main/java/com/dronecontrol/intelcontrol/control/DroneInputController.java:136-140 | changes nothing |
| IntelControl.DroneInputController.OnAction | intel-control/src/main/java/com/dronecontrol/intelcontrol/control/DroneInputController.java:51-76 | the method's effect is `AfterAction` |
| IntelControl.DroneInputController.OnNavData | intel-control/src/main/java/com/dronecontrol/intelcontrol/control/DroneInputController.java:78-86 | the method's effect is `AfterNavData` |
| IntelControl.DroneInputController.OnReadyStateChange | intel-control/src/main/java/com/dronecontrol/intelcontrol/control/DroneInputController.java:142-149 | the method's effect is `AfterReadyStateChange` |
| IntelControl.DroneInputController.OnGesture | intel-control/src/main/java/com/dronecontrol/intelcontrol/control/DroneInputController.java:151-159 | the method's effect is `AfterGesture` |
| Perceptual.IsActive | intel-perceptual/src/main/java/com/dronecontrol/perceptual/components/DetectionComponent.java:77-79 | a node is active when its world position is present |
| Perceptual.GetCoordinate | intel-perceptual/src/main/java/com/dronecontrol/perceptual/components/DetectionComponent.java:69-75 | the world position reordered as (x, z, y), or null; characterised by `CoordinateOfActiveNode` |
| Perceptual.OrderHands | intel-perceptual/src/main/java/com/dronecontrol/perceptual/components/DetectionComponent.java:53-60 | the mixed-up hands swap; characterised by `OrderHandsRule` |
| Perceptual.CoordinateOfActiveNode | intel-perceptual/src/main/java/com/dronecontrol/perceptual/components/DetectionComponent.java:69-79 | a coordinate exists iff the node is active; it is the world (x, z, y), and the world position can be recovered from it |
| Perceptual.HandOfWellFormed | intel-perceptual/src/main/java/com/dronecontrol/perceptual/components/DetectionComponent.java:50-51 | a hand built from a node is active iff it has a raw coordinate |
| Perceptual.OrderHandsRule | intel-perceptual/src/main/java/com/dronecontrol/perceptual/components/DetectionComponent.java:53-60 | the result holds the same two hands; they are swapped iff both are active and the right x exceeds the left x; afterwards the right x is not larger; a second pass changes nothing |
| Perceptual.Without | intel-perceptual/src/main/java/com/dronecontrol/perceptual/components/DetectionComponent.java:101 | the set without the element: exactly the other members remain |
| Perceptual.WithoutAbsent | intel-perceptual/src/main/java/com/dronecontrol/perceptual/components/DetectionComponent.java:101 | removing an absent element gives the set back unchanged |
| Perceptual.Added | intel-perceptual/src/main/java/com/dronecontrol/perceptual/components/DetectionComponent.java:81-91 | `addDetectionListener` on the registry map; characterised by `AddedRule` |
| Perceptual.Removed | intel-perceptual/src/main/java/com/dronecontrol/perceptual/components/DetectionComponent.java:93-103 | `removeDetectionListener` as written, with its inverted guard; characterised by `RemovedNeverRemoves` |
| Perceptual.AddedRule | intel-perceptual/src/main/java/com/dronecontrol/perceptual/components/DetectionComponent.java:81-91 | the type's set exists afterwards; a new listener is appended once; the sets stay duplicate-free; other types are untouched; re-adding is a no-op |
| Perceptual.RemovedNeverRemoves | intel-perceptual/src/main/java/com/dronecontrol/perceptual/components/DetectionComponent.java:93-103 | with the inverted guard, removal never changes the registry |
| Perceptual.RegisteredListenerStays | intel-perceptual/src/main/java/com/dronecontrol/perceptual/components/DetectionComponent.java:81-103 | a listener added then removed is still registered |
| Perceptual.DetectionComponent.constructor | intel-perceptual/src/main/java/com/dronecontrol/perceptual/components/DetectionComponent.java:31-37 | empty registry and no geo nodes yet |
| Perceptual.DetectionComponent.QueryFeatures | intel-perceptual/src/main/java/com/dronecontrol/perceptual/components/DetectionComponent.java:39-46 | the node labelled right is stored as the left hand's node, and the reverse |
| Perceptual.DetectionComponent.AddDetectionListener | intel-perceptual/src/main/java/com/dronecontrol/perceptual/components/DetectionComponent.java:81-91 | the method's effect is `Added`, and the registry stays duplicate-free |
| Perceptual.DetectionComponent.RemoveDetectionListener | intel-perceptual/src/main/java/com/dronecontrol/perceptual/components/DetectionComponent.java:93-103 | the method's effect is `Removed` as written |
| Perceptual.DetectionComponent.InvokeDetectionListeners | intel-perceptual/src/main/java/com/dronecontrol/perceptual/components/DetectionComponent.java:105-117 | an unregistered type calls no one; otherwise every listener of the type is called once, in insertion order, with the data |
| Perceptual.DetectionComponent.ProcessFeatures | intel-perceptual/src/main/java/com/dronecontrol/perceptual/components/DetectionComponent.java:48-63 | one HANDS event carrying the ordered (left, right) pair goes to each HANDS listener; it fails before any `queryFeatures` |

Facts about the code that a reader might not expect:

- The startup state can go backwards: a base worker's READY in state READY moves the state back to WORKERS_READY (`Coordinator.LateWorkerReadyLeavesReady`).
- A gated intent called in the wrong state is refused by `checkState`, which throws; nothing is sent (the `Refused` outcome).
- Login has exactly five acknowledged rounds.
- `loginAndDetermineConfiguration` makes its five `sendConfigCommandToBeAcknowledged` calls one after another; the model makes the same calls in the same order as a loop over `LoginCommands`.

## Left out

- Threads, sockets and timing are left out. Worker threads, the TCP connect and disconnect of the configuration retriever, and real sleeping are replaced by the finite tick schedule and the read script. Cross-thread visibility and races between callbacks and the polling thread are concurrency and are not modelled.
- Coordinator waits: where the original polls for ever, a wait in the model fails once the schedule is used up.
- Coordinator login constants: `SESSION_ID_KEY`, `SESSION_ID` and the other login constants are defined outside this model. They are the `LoginSettings` parameter of the constructor.
- Coordinator drone version: `DRONE_VERSION` likewise becomes a constructor parameter.
- Controller coordinator: the coordinator seen by `DroneController` has `start(Config)`, `getState()` and `getDroneVersion()`, which the modelled `DroneCoordinator` lacks. In the façade it is an abstract cell, and the state its `start` leaves behind is a parameter of `Controller.DroneController.Start`.
- Controller.DroneController.Start: `startAsync` and the executor's `Future`s are not modelled. Submitted tasks run at once.
- ConfigData.ConfigurationDataRetriever.ProcessData: listener callbacks are assumed not to throw. In the original, a `RuntimeException` from one `onDroneConfiguration` ends the notification loop. `run` catches it, so the listeners after it miss that snapshot.
- Controller.DroneController.SetConfigurationValue: the value is taken as a string (`Object.toString` is not modelled).
- Controller.DroneController.SwitchCamera: the camera enum is defined outside this model and is carried as its name.
- Commands: their byte encodings are not modelled, and neither are the command sender, the navigation retriever, the video retrievers or the video decoding. Their calls are recorded in logs.
- Ready-state components: listener registration with them is recorded as a log of calls, because their own set semantics are defined outside this model.
- Nav data: the float altitude and `HEIGHT_THRESHOLD` are left out, so `setCurrentHeight` of `DroneInputController.onNavData` is not modelled. Only the flags are.
- `DroneInputController.onDetection` and `landIfHandIsTooCloseToCamera` are left out because they depend on the wall clock (`System.currentTimeMillis`) and on the float threshold. `onCoordinate` and `CoordinateCalculator` are left out because they are move arithmetic on floats.
- Perceptual.DetectionComponent.ProcessFeatures: the `BilateralFilter` smoothing is foreign code, and its outputs are parameters. The hands' raw coordinates and activity are modelled.
- Perceptual.DetectionComponent.QueryFeatures: the SDK pipeline query is replaced by the two geo nodes it would return.
- Perceptual.Coordinate: `Coordinate` is defined outside this model. Its constructor is taken to receive (x, y, z) in that order, so the stored coordinate is the world (x, z, y).
- Logging is not modelled anywhere.
- `DroneConfiguration`'s checksum accessors are defined outside this model.
- `FxController` and the rest of the UI are not part of this model.
- Perceptual.OrderHands: `Hand` is defined outside this model. Its `getCoordinate()` is taken to return the raw coordinate, the second constructor argument, not the smoothed one, so the swap compares raw x values.
- Java `float`s are modelled as unbounded `real`s: the four `move` arguments and the hand coordinates. Rounding is lost, and so is NaN, for which the `>` comparison of the hand swap is false.
