# DrawerBackend: a model and its proofs

This project models the hard state machines of DrawerBackend in Dafny and proves what they keep.
`dafny verify dfyconfig.toml` checks all of it.

| files | what they model |
|---|---|
| `FleetTypes`, `FleetModel`, `FleetService` | the fleet operations service: devices, heartbeats, remote commands, risk, quarantine and recovery, and the hash-chained event log; every operation as a function from tables to new tables and log entries, and as a method of a class that updates its fields step by step and is proved to do the same |
| `FleetLog`, `FleetChain`, `FleetLifecycle`, `FleetCommands`, `FleetRuns` | theorems over all runs of that service, and the service object under any sequence of calls |
| `FleetAnswers` | what each of its calls answers, stores and logs, in the request's and the tables' own fields and with the rules listed name by name |
| `PosStore`, `PosRouter`, `PosConcurrent`, `PosOverlap` | the idempotency store and its file, the purchase router one request at a time, the router as small steps of any number of concurrent handlers, and what overlapping requests with one key can do |
| `TxnEngine`, `Journal`, `CashRecovery` | the purchase transaction with any number of crashes and resumes, the text of its journal and how it is searched, and the two together |
| `Dispense`, `DispenseRetries`, `CashBound` | the hopper driver and the dispense controller under a sensor and a clock, what retries hide, and the money bound of engine and controller together |
| `Shutter` | the shutter's state machine under its adapter |
| `Change`, `ChangeAnswers` | the greedy change plan over the hopper stock and paying it out, and what both answer on the stock's and the drivers' own terms |
| `Veil` | the evidence chain: how records are linked, and the one-pass verifier |
| `Twin`, `TwinClients` | the revision-guarded twin server, and any number of clients with bounded offline queues and lost messages |
| `TokenBucket`, `Base64`, `Decimal`, `Basics` | the rate limiter, the streaming base64 encoder, decimal text, and what several modules share |

Time, sensors, driver results, the answers of VEIL and of the edge platform, lost messages and the
moment of a crash are parameters or streams, so every theorem holds for all of them. SHA-256 is a
function; where a theorem needs that it has no collisions or never gives the empty string, it says so.

Some properties that one would expect are false of the code. For each the model keeps the code's
behaviour, shows a case, and proves exactly when the property holds:

- A device that is set to "retired" by a PATCH can leave that state again: retirement is final exactly
  when the `retired` flag is set (`RetirementIsFinalExactlyWithFlag`, `PatchedRetirementIsNotFinal`).
- Two overlapping purchases with one key can both run the engine, because the store is consulted before the
  busy flag, and then the file can disagree with the map (`TwoRunsCanCross`). Once a key is recorded, a handler
  can still run exactly if it has passed the check, whoever holds the flag (`CanRunExactly`); requests that do not
  overlap run once (`ApartRunsOnce`).
- Retries of a dispense can pay more than the report says (`RetryOverpays`); the report tells all, whatever the
  sensor and the clock show, exactly when at most one coin is requested, no retry is allowed, or the time is too
  short for a coin (`TellsAllExactly`).
- A journal record is read back exactly when its strings contain no quote and no line break
  (`LastRecordIsReadExactly`, `QuoteInReasonIsLost`).
- Homing always ends in time exactly when the travel is at most 10000 steps; otherwise a dead switch leaves
  the motor enabled (`HomingEndsInTimeExactly`).
- Greedy change is paid in full with the fewest coins exactly when the usable stock covers the greedy needs
  (`FewestCoinsExactlyWhenStocked`). It strands an amount that the usable coins could pay exactly when it leaves
  something, takes a quarter, and would leave nothing with one quarter less (`StrandsExactly`, `GreedyCanStrand`).
- A whole tenant's evidence chain verifies exactly when the records of its devices are not interleaved
  (`TenantVerifiesExactly`, `InterleavedTenantFails`); one device's chain always does.
- The twin server's guarantees hold for a push exactly when path and body name the same drawer
  (`GuardedExactlyWhenAddressed`).
- A flush of the offline queue pops whatever is in front by then (`RaceLosesEntry`). A pop loses an entry exactly
  when the server has not accepted the one in front (`PopLosesExactly`, `StrayingLoses`); with one flush at a
  time, exactly when the front is not the entry it posted (`SerialStrayExactly`).
- A queue can be blocked for good, by a lost reply, a disabled twin or a later revision. Its front entry can be
  flushed in some continuation exactly when it is neither disabled nor superseded (`QuietQueueMovesExactly`).

Where the code and its documentation disagree the model follows the code: the store's time to live is
declared in hours but computed as that many seconds (src/pos/idempotency_store.cpp:12).

## Model

| member | source | states |
|---|---|---|
| `FleetLog.EveryEffectTells` | src/cloud/fleet_operations/service.cpp:60-755 | the log entries of every operation, applied in order to the old command states and lifecycles, give exactly the new ones |
| `FleetLog.TablesAreAFoldOfTheLog` | src/cloud/fleet_operations/service.cpp:60-755 | in every reachable state the event log alone rebuilds the state of every stored command and the lifecycle of every device, and no others; queued alone means policy checking, a failure with reason expired means expired, a duplicate-id denial changes nothing |
| `FleetChain.AppendAllKeepsTheChain` | src/cloud/fleet_operations/service.cpp:767-791 | appending events keeps sequence numbers, previous hashes and own hashes well chained |
| `FleetChain.AppendedAsTold` | src/cloud/fleet_operations/service.cpp:767-782 | one event per entry is appended, in order, with the entry's tenant, device and kind, the time of the call and the next number; what was there stays |
| `FleetChain.RunsKeepTheChain` | src/cloud/fleet_operations/service.cpp:767-791 | every run only appends to the log and keeps it well chained |
| `FleetChain.Replay` | src/cloud/fleet_operations/service.cpp:802-822 | the loop answers valid exactly for well-chained logs and returns the tenant's events of the longest well-chained prefix, with their summary hash |
| `FleetChain.ReplayAfterRun` | src/cloud/fleet_operations/service.cpp:802-822 | after any run replay is valid for every tenant and returns exactly that tenant's subsequence |
| `FleetChain.LastHashDeterminesLog` | src/cloud/fleet_operations/service.cpp:767-822 | with a collision-free hash, two well-chained logs with the same last hash are identical |
| `FleetChain.SummaryDeterminesStream` | src/cloud/fleet_operations/service.cpp:802-822 | with a collision-free hash, two valid replays with the same summary returned the same events |
| `FleetLifecycle.EveryOperationSteps` | src/cloud/fleet_operations/service.cpp:48-755 | every operation writes at most one device, keeps its tenant, capabilities and profile, keeps the lifecycle graph, and lets it out of quarantine only if it is a recovery |
| `FleetLifecycle.RunsMoveDevices` | src/cloud/fleet_operations/service.cpp:48-292 | over any run no device disappears, the lifecycle stays within its five states and never returns to provisioned, and a device whose retired flag is set never changes |
| `FleetLifecycle.QuarantineEndsOnlyByRecovery` | src/cloud/fleet_operations/service.cpp:672-755 | every run without a recover call for a quarantined device leaves it quarantined or retired |
| `FleetLifecycle.ClampDoesNotHideRisk` | src/cloud/fleet_operations/service.cpp:562-600 | testing the clamped score less the quarantine points against 75 is the same as testing the unclamped points of all other factors |
| `FleetLifecycle.RecoverySucceedsExactly` | src/cloud/fleet_operations/service.cpp:698-755 | recovery succeeds exactly when every requirement holds and VEIL allows it; then the device is active, otherwise nothing changes and nothing is logged |
| `FleetLifecycle.RetirementIsFinalExactlyWithFlag` | src/cloud/fleet_operations/service.cpp:152-215 | some operation can change the lifecycle of a retired device exactly when its retired flag is not set |
| `FleetLifecycle.PatchedRetirementIsNotFinal` | src/cloud/fleet_operations/service.cpp:152-191 | a PATCH to retired gives a device that can leave that state |
| `FleetCommands.EveryOperationKeepsCommands` | src/cloud/fleet_operations/service.cpp:349-550 | every operation moves every command only up the rank of states, or not at all, and keeps sent commands entitled |
| `FleetCommands.RunsKeepCommands` | src/cloud/fleet_operations/service.cpp:349-550 | over any run no command disappears, states only climb, and a command in a terminal state never changes |
| `FleetCommands.EverySentCommandIsSound` | src/cloud/fleet_operations/service.cpp:323-531 | in every reachable state a dispatched, acknowledged or completed command has the capability its name needs on a device of its tenant, approval id and approver if it is high risk, was dispatched before its expiry, and was acknowledged no later than it |
| `FleetCommands.DefaultListCoversFleet` | src/integrations/veil/service.hpp:15-25 | the built-in list of high-risk actions covers every action the fleet service asks about |
| `FleetCommands.VeilDownStopsEverything` | src/integrations/veil/service.cpp:239-274 | while VEIL is unavailable in production fail-closed mode, or no trust service is attached, no run dispatches a command or lets a device out of quarantine |
| `FleetAnswers.RulesAsListed` | src/cloud/fleet_operations/service.cpp:323-347 | high risk are exactly twelve commands, listed by name; the capability each of the twenty known commands needs, likewise; VEIL is asked about the command itself exactly for the twelve, and consents as its settings say |
| `FleetAnswers.DispatchedExactly` | src/cloud/fleet_operations/service.cpp:349-421 | a new command is dispatched exactly when its id is free, its device is of its tenant, in service, heard of in time, online and has the listed capability, VEIL consents, and approval id and approver are given if its name is one of the twelve |
| `FleetAnswers.DispatchLeaves` | src/cloud/fleet_operations/service.cpp:349-421 | then the stored command is the request with id, times, capability and risk filled in, nothing else changes, and queued, approved and dispatched are logged |
| `FleetAnswers.RefusedForFirstReason` | src/cloud/fleet_operations/service.cpp:349-421 | the reply names the first obstacle in the order the checks are made; a missing approval leaves the command in policy checking |
| `FleetAnswers.CreationStoresReply` | src/cloud/fleet_operations/service.cpp:349-421 | the reply is stored under its id, unless the id was taken |
| `FleetAnswers.ReplyKeepsRequest` | src/cloud/fleet_operations/service.cpp:349-421 | tenant, device, name, parameters, actor and approval of the reply are the request's; id, creation time and expiry are filled in |
| `FleetAnswers.RefusalByVeilQuarantines` | src/cloud/fleet_operations/service.cpp:392-403 | VEIL's refusal quarantines the device and counts one violation; otherwise a creation changes nothing but the commands |
| `FleetAnswers.RefusalIsLogged` | src/cloud/fleet_operations/service.cpp:349-403 | what the log says of a refused command, entry by entry |
| `FleetAnswers.EverySentCommandIsEntitled` | src/cloud/fleet_operations/service.cpp:323-531 | over all runs from the empty fleet, a command that went out has the listed capability on a device of its tenant, approval id and approver if its name is one of the twelve, and kept its times |
| `FleetAnswers.OnlyCreationSends` | src/cloud/fleet_operations/service.cpp:349-550 | a command goes out only by its own creation, while its device is healthy and VEIL consents |
| `FleetAnswers.CancelledExactly` | src/cloud/fleet_operations/service.cpp:443-462 | the tenant's command is cancelled exactly while it is queued, checked, approved or dispatched; error, tables and log in each case |
| `FleetAnswers.AcknowledgedExactly` | src/cloud/fleet_operations/service.cpp:464-492 | a dispatched command is acknowledged up to its expiry and expired by a later acknowledgement; error, tables and log in each case |
| `FleetAnswers.CompletionRefused` | src/cloud/fleet_operations/service.cpp:494-507 | only an acknowledged command of the tenant can be completed |
| `FleetAnswers.CompletionStored` | src/cloud/fleet_operations/service.cpp:504-515 | state, time, result and reason of a completed or failed command; tables but commands and devices stay |
| `FleetAnswers.CompletionLogged` | src/cloud/fleet_operations/service.cpp:508-515 | the first entry names the result, and a success changes no device and logs nothing else |
| `FleetAnswers.FailureQuarantinesExactly` | src/cloud/fleet_operations/service.cpp:515-531 | a failure quarantines its device exactly when the result says suspicious or it is the third failed command of the device, the count including it, and never a retired device |
| `FleetAnswers.FailureLogged` | src/cloud/fleet_operations/service.cpp:508-531 | the entries of a failure: the result, then each quarantine that applies |
| `FleetAnswers.SweepExpiresExactly` | src/cloud/fleet_operations/service.cpp:533-550 | the sweep expires exactly the visited commands that are queued, checked, approved or dispatched and past their time, and leaves the others as they are |
| `FleetAnswers.ComplaintQuarantines` | src/cloud/fleet_operations/service.cpp:217-277 | the six reasons for which a heartbeat quarantines its device, in their order, with error and log |
| `FleetAnswers.HeartbeatStored` | src/cloud/fleet_operations/service.cpp:236-292 | a heartbeat without such a reason is stored and updates its device, also in quarantine, where firmware and driver stay |
| `FleetAnswers.HeartbeatIgnored` | src/cloud/fleet_operations/service.cpp:217-235 | an unknown or retired device is not touched by a heartbeat |
| `FleetAnswers.EnrolledExactly` | src/cloud/fleet_operations/service.cpp:60-130 | when a device is enrolled, what is stored, with capabilities and driver from the edge registry if it brought none, and otherwise which error is first |
| `FleetAnswers.PatchedExactly` | src/cloud/fleet_operations/service.cpp:152-191 | when a patch is taken, by the list of moves, the device field by field, and otherwise which error is first |
| `FleetAnswers.RetiredExactly` | src/cloud/fleet_operations/service.cpp:193-215 | a device of the tenant is retired once: flag, lifecycle, connectivity and log |
| `FleetAnswers.QuarantinedExactly` | src/cloud/fleet_operations/service.cpp:683-696 | an operator quarantines any device of the tenant that is not retired, with the reason given |
| `FleetAnswers.PointsAsListed` | src/cloud/fleet_operations/service.cpp:562-600 | the points of a device by the weights, listed in one sum |
| `FleetAnswers.ScoredExactly` | src/cloud/fleet_operations/service.cpp:562-600 | the score is that sum, twenty more in quarantine, at most a hundred; the levels begin at 25, 50 and 75 |
| `FleetAnswers.FactorsAsListed` | src/cloud/fleet_operations/service.cpp:562-600 | a factor is listed exactly when what it is named for holds, with its points |
| `FleetAnswers.UnknownIsCritical` | src/cloud/fleet_operations/service.cpp:602-615 | a device the tenant does not have is answered with a hundred, critical and the unknown-device factor |
| `FleetAnswers.LevelChangeLogged` | src/cloud/fleet_operations/service.cpp:660-670 | a scope's level is stored and logged with the one before it exactly when it changes |
| `FleetAnswers.LocationScoreIsMean` | src/cloud/fleet_operations/service.cpp:635-658 | a location's score is the mean, rounded down, of its devices' scores, or a hundred without devices |
| `FleetAnswers.LocationFactorsAsListed` | src/cloud/fleet_operations/service.cpp:635-658 | its factors are exactly those of its devices, or the unknown-location factor without devices |
| `FleetAnswers.RecoveredExactly` | src/cloud/fleet_operations/service.cpp:698-755 | a device is recovered exactly when every listed requirement holds, its points are below 75 and VEIL consents; the log names the points, and otherwise the first obstacle is the error |
| `FleetService.CommitThen` | src/cloud/fleet_operations/service.cpp:767-782 | carrying out two effects one after the other is carrying out their composition |
| `FleetService.ExpireAllClears` | src/cloud/fleet_operations/service.cpp:533-550 | after the sweep no command that was visited, and none that was in time, is outstanding past its expiry |
| `FleetService.Service.constructor` | src/cloud/fleet_operations/service.cpp:37-45 | a new service is the empty fleet |
| `FleetService.Service.AppendEvent` | src/cloud/fleet_operations/service.cpp:767-782 | the log grows by the one event that links to the last |
| `FleetService.Service.QuarantineLocked` | src/cloud/fleet_operations/service.cpp:672-681 | the device is quarantined and one event logged, unless it is retired |
| `FleetService.Service.Enroll` | src/cloud/fleet_operations/service.cpp:60-130 | the new state is that of the model's enrolment, with its checks in order, and the error is the model's |
| `FleetService.Service.UpdateDevice` | src/cloud/fleet_operations/service.cpp:152-191 | the new state is that of the model's patch |
| `FleetService.Service.RetireDevice` | src/cloud/fleet_operations/service.cpp:193-215 | the new state is that of the model's retirement |
| `FleetService.Service.ReceiveHeartbeat` | src/cloud/fleet_operations/service.cpp:217-292 | the new state is that of the model's heartbeat, including the faults that quarantine the device |
| `FleetService.Service.CreateCommand` | src/cloud/fleet_operations/service.cpp:349-421 | the new state and the returned command are those of the model: duplicate, refusals, missing approval, policy denial or dispatch |
| `FleetService.Service.CancelCommand` | src/cloud/fleet_operations/service.cpp:443-462 | the new state is that of the model's cancellation |
| `FleetService.Service.AcknowledgeCommand` | src/cloud/fleet_operations/service.cpp:464-492 | the new state is that of the model's acknowledgement, which expires a late one |
| `FleetService.Service.CountFailed` | src/cloud/fleet_operations/service.cpp:522-525 | the loop counts exactly the failed commands of the device |
| `FleetService.Service.CompleteCommand` | src/cloud/fleet_operations/service.cpp:494-531 | the new state is that of the model's completion, including the quarantine after a third failure or a suspicious result |
| `FleetService.Service.ExpireCommands` | src/cloud/fleet_operations/service.cpp:533-550 | the sweep's new state is that of the model for some order of all command ids, it counts the expired ones, and no outstanding command is left past its expiry |
| `FleetService.Service.CountCommands` | src/cloud/fleet_operations/service.cpp:562-600 | the loop counts the device's commands and those that failed or expired |
| `FleetService.Service.DeviceRiskLocked` | src/cloud/fleet_operations/service.cpp:562-600 | the assessment is the model's: clamped score, level, and the factors found, in order |
| `FleetService.Service.RecordRiskLocked` | src/cloud/fleet_operations/service.cpp:660-670 | an event is logged exactly when the level of the scope changes |
| `FleetService.Service.DeviceRisk` | src/cloud/fleet_operations/service.cpp:602-615 | new state and assessment are those of the model, with the unknown-device factor for a device that is not registered |
| `FleetService.Service.FleetRisk` | src/cloud/fleet_operations/service.cpp:617-633 | for some order of all device ids the loop's new state is that of the model and the risks are the assessments of the tenant's devices in that order |
| `FleetService.Service.LocationRisk` | src/cloud/fleet_operations/service.cpp:635-658 | score, level and factors are the average and the collected factors of the tenant's devices at the location, and the new state is that of the model |
| `FleetService.Service.Quarantine` | src/cloud/fleet_operations/service.cpp:683-696 | the new state is that of the model's quarantine |
| `FleetService.Service.Recover` | src/cloud/fleet_operations/service.cpp:698-755 | the new state and the error are those of the model's recovery |
| `FleetService.FactorsAddUp` | src/cloud/fleet_operations/service.cpp:562-600 | the factors listed add up to the unclamped points, and the quarantine factor among them to the quarantine points |
| `FleetService.Service.UnresolvedScore` | src/cloud/fleet_operations/service.cpp:729-733 | the loop takes exactly the quarantine factor's points off the score |
| `FleetRuns.Perform` | src/cloud/fleet_operations/service.cpp:60-755 | any call takes the service object to the state of the model's step, for some order of its sweeps |
| `FleetRuns.PerformAll` | src/cloud/fleet_operations/service.cpp:60-755 | any sequence of calls on a new service ends in the state of the model's run |
| `FleetRuns.PerformAndReplay` | src/cloud/fleet_operations/service.cpp:802-822 | after any calls the service's own tables are the fold of its log, the log is chained, sent commands are sound and lifecycles are among the five; replay of its log is valid and returns the tenant's events |
| `PosStore.IdempotencyStore.Open` | src/pos/idempotency_store.cpp:16-43 | reading the lines in order and sweeping gives the model's reopened map |
| `PosStore.IdempotencyStore.SweepExpired` | src/pos/idempotency_store.cpp:97-107 | exactly the expired records are removed |
| `PosStore.IdempotencyStore.CheckKey` | src/pos/idempotency_store.cpp:45-56 | new, match, mismatch or pending as the map says, with the record found |
| `PosStore.IdempotencyStore.PutPending` | src/pos/idempotency_store.cpp:58-73 | the pending record is in the map and at the end of the file |
| `PosStore.IdempotencyStore.PutDone` | src/pos/idempotency_store.cpp:75-95 | the done record keeps the first time of the key, is in the map and at the end of the file |
| `PosStore.PutKeepsMirror` | src/pos/idempotency_store.cpp:58-95 | a write keeps it so that reading the file at any later time gives the live records not expired by then |
| `PosStore.ReopenKeepsMirror` | src/pos/idempotency_store.cpp:16-43 | so does reopening, which gives the live map minus the expired records |
| `PosStore.RunsStayMirrored` | src/pos/idempotency_store.cpp:16-107 | after any writes and restarts in time order, the file gives the live records not yet expired whenever it is read |
| `PosStore.ReopeningRebuildsLiveMap` | src/pos/idempotency_store.cpp:16-107 | with a clock that does not go back, reopening after any writes and restarts rebuilds exactly the live map minus expired records |
| `PosStore.LastsExactly` | src/pos/idempotency_store.cpp:12-43 | a record survives a restart exactly when no limit is set or no more than as many seconds as it says hours have passed |
| `PosRouter.PayloadHashInjective` | src/pos/contracts.cpp:6-10 | two hashes agree exactly when price and deposit agree |
| `PosRouter.Router.HandleRequest` | src/pos/router.cpp:11-52 | status, reply and store are those of the model; while the flag is set a new key gets the busy answer and nothing changes; the flag ends as it was |
| `PosRouter.AnsweredExactly` | src/pos/router.cpp:11-52 | a request runs the engine exactly when its key has no record, or one with its hash that is neither pending nor done; then it is answered 200 with the transaction's body, which is what is recorded, and otherwise the record decides the answer and nothing changes |
| `PosRouter.RecordSurvives` | src/pos/router.cpp:11-52 | while it is not expired at a restart, a record survives any requests, crashes and restarts, and its key never runs the engine |
| `PosRouter.FirstRunDecides` | src/pos/router.cpp:11-52 | a request that runs is answered 200 with its body; after it, whatever happens in between, the same amounts get that same answer, any other amounts get 409, and the engine does not run again for the key |
| `PosRouter.DeathLeavesPending` | src/pos/router.cpp:11-52 | if the process died in the engine, the key stays pending: 202 for the same amounts, 409 for others, and no second run |
| `PosConcurrent.AtMostOneInEngine` | src/pos/router.cpp:29-52 | in every interleaving of any number of handlers at most one is inside run_purchase |
| `PosConcurrent.QuiescenceLeavesNothingPending` | src/pos/router.cpp:11-52 | once all handlers have returned, a key is pending exactly if it was so at the start, in the map, and only then in the file |
| `PosConcurrent.LateCheckNeverRuns` | src/pos/router.cpp:11-29 | a handler whose check happens after its key was recorded never reaches run_purchase, in any continuation |
| `PosConcurrent.SameKeyCanPassTwice` | src/pos/router.cpp:15-36 | from a store without the key, two requests with the same key can both pass the check |
| `PosOverlap.CanRunExactly` | src/pos/router.cpp:11-36 | in every reached state in which its key is recorded, a handler that has not run the engine can still do so in some continuation exactly if it has passed the check and is not turned away yet, whoever holds the flag |
| `PosOverlap.ApartRunsOnce` | src/pos/router.cpp:11-52 | if requests with a key arrive only after the others with it have returned, at most one of them runs the engine |
| `PosOverlap.FileAgreesAfterOneRun` | src/pos/idempotency_store.cpp:58-95 | once all handlers have returned, the file's last line of a key that ran once is its record in the map |
| `PosOverlap.TwoRunsCanCross` | src/pos/router.cpp:11-52 | from any store without the key, two requests with it can both run, and end with one body in the map and the other in the file |
| `PosOverlap.AloneIsSequential` | src/pos/router.cpp:11-52 | a handler that no other interferes with ends with the answer and the store of the sequential router: the small steps refine it |
| `PosOverlap.BusyIsAnswered` | src/pos/router.cpp:29-36 | a handler that finds the flag set is answered 409 and stores nothing |
| `TxnEngine.Engine.ContinueTxn` | src/app/txn_engine.cpp:17-59 | the hardware calls and journal appends are, in order, those of the model's program, and the last append is the returned record |
| `TxnEngine.Engine.Purchase` | src/app/txn_engine.cpp:61-72 | likewise for a new purchase |
| `TxnEngine.Engine.ResumeIfNeeded` | src/app/txn_engine.cpp:74-92 | likewise for a resume from the last record, which is returned unchanged if there is nothing to do |
| `TxnEngine.QuartersDue` | src/app/txn_engine.cpp:61-69 | the first record has the amounts, and either the cap's number of quarters, which fit the change, or so many that less than a quarter of it is kept back |
| `TxnEngine.WorkingPurchasePays` | src/app/txn_engine.cpp:17-72 | on hardware that works a purchase pays exactly these, then opens and closes the shutter and ends done with all counted, effect by effect |
| `TxnEngine.BlockedMovesNothing` | src/app/txn_engine.cpp:17-59 | no coin, opening or closing happens that the fault manager blocks, and the shutter closes only after it opened |
| `TxnEngine.EndsDoneExactly` | src/app/txn_engine.cpp:17-59 | a run ends done exactly when the coins are paid and the shutter may and does open and close; otherwise void with the reason of the first thing that went wrong |
| `TxnEngine.ResumesExactly` | src/app/txn_engine.cpp:74-92 | a pending or dispensing purchase goes on, a presenting one has its shutter closed, any other is left alone |
| `TxnEngine.HistoryBehaves` | src/app/txn_engine.cpp:17-92 | every history of a purchase over any boots, each cut anywhere, obeys the engine's rules effect by effect, and its ledger balances |
| `TxnEngine.CoinsPaidAreBounded` | src/app/txn_engine.cpp:17-92 | for any number of crashes and resumes the coins paid are those recorded plus those lost, and at most the quarters due times one plus the crashes between a dispense and its journal line |
| `TxnEngine.BoundIsReached` | src/app/txn_engine.cpp:17-92 | for every number of such crashes some history pays exactly that bound |
| `TxnEngine.EveryRecordAndOpening` | src/app/txn_engine.cpp:17-72 | every record counts between nothing and the quarters, whose worth is at most the change owed, and the shutter opens only when all quarters are counted |
| `TxnEngine.CompletedRunNeedsNoResume` | src/app/txn_engine.cpp:61-92 | after a completed run a resume makes no hardware call and no append |
| `TxnEngine.CompletedResumeNeedsNoResume` | src/app/txn_engine.cpp:74-92 | so after a completed resume, from any last record |
| `Journal.QuoteStep` | src/util/journal.cpp:55-70 | at a quote a quoted key matches exactly if the text up to the next quote is the key and the text goes on as the pattern does |
| `Journal.LineAsWritten` | src/util/journal.cpp:20-39 | the line is the JSON object of the record: ten members, by name, in order |
| `Journal.GetStrFinds` | src/util/journal.cpp:63-70 | searching a line without stray quotes for a text key gives the first text field of that key |
| `Journal.GetIntFinds` | src/util/journal.cpp:55-62 | searching it for a number key gives the number of the first field of that key |
| `Journal.StoiRender` | src/util/journal.cpp:55-62 | converting a written integer gives it back if it fits 32 bits and throws otherwise |
| `Journal.LineRoundTrip` | src/util/journal.cpp:20-80 | a line without stray quotes parses to the record it was written from, in every field |
| `Journal.LoadedIsClean` | src/util/journal.cpp:54-91 | whatever is in the file, strings read from it contain no quote and no line break |
| `Journal.LastRecordIsReadExactly` | src/util/journal.cpp:20-91 | after any appends the last record is read back in every field exactly when its strings contain no quote and no line break |
| `Journal.QuoteInReasonIsLost` | src/util/journal.cpp:20-91 | a record whose reason is a quote is not read back |
| `Journal.File.Append` | src/util/journal.cpp:41-52 | the file grows by the record's line |
| `Journal.File.ReadLast` | src/util/journal.cpp:82-91 | the loop parses the last line that is not empty |
| `CashRecovery.FileResumesLikeLedger` | src/app/txn_engine.cpp:74-92 | what a restarted engine does with the journal file of any history is what it does with the last record of that history |
| `Dispense.Hopper.PollOnce` | src/drivers/hopper_parallel.cpp:30-40 | the registers become those of the model's edge detection |
| `Dispense.Hopper.ResetCounters` | src/drivers/hopper_parallel.cpp:22-26 | the counters are cleared and the level is read |
| `Dispense.Controller.RunAttempt` | src/app/dispense_ctrl.cpp:36-69 | the poll loop ends under any clock that does not stop, its polls are what the streams show, every poll but the last leaves the attempt going, the last one ends it as reported, and the motor is off |
| `Dispense.Controller.RunAttempts` | src/app/dispense_ctrl.cpp:34-76 | the attempts are conducted as specified: all but the last jammed, and the last ended the call or used up the retries |
| `Dispense.Controller.DispenseCoins` | src/app/dispense_ctrl.cpp:26-87 | the report is the model's for the attempts conducted, the registers are those of the last attempt, and the motor is off if any attempt was made |
| `Dispense.AttemptNeverOvershoots` | src/app/dispense_ctrl.cpp:42-68 | an attempt counts at most the coins requested, and that many exactly when it finished |
| `Dispense.EdgesCountPulses` | src/drivers/hopper_parallel.cpp:30-40 | the pulse count is the number of counted edges, and the last edge time is the time of the last of them |
| `Dispense.CountedEdgesAreApart` | src/drivers/hopper_parallel.cpp:30-40 | counted edges of an attempt are at least the interval apart |
| `Dispense.CountsExactly` | src/drivers/hopper_parallel.cpp:30-40 | a poll counts exactly when the level has risen since the poll before, at least the interval after the last counted edge |
| `Dispense.LastPulseExactly` | src/app/dispense_ctrl.cpp:40-48 | the last pulse is the time of the poll that counted last |
| `Dispense.NoPulseYet` | src/app/dispense_ctrl.cpp:40-48 | while nothing was counted it is the start of the attempt |
| `Dispense.PollDecides` | src/app/dispense_ctrl.cpp:30-68 | a poll ends the attempt: finished exactly when the coins' pulses are in; else jammed exactly when the jam time has gone by since the last pulse; else out of time exactly when both the hard limit and the time for the coins with half a second more have gone by since the start |
| `Dispense.ReasonExactly` | src/app/dispense_ctrl.cpp:49-87 | the reason tells how the last attempt ended and whether it gave coins, and the retries are the attempts but one |
| `Dispense.ReportIsExact` | src/app/dispense_ctrl.cpp:26-87 | for a request of at least one coin the report has dispensed at most requested, is ok exactly when they are equal, and its reason says whether all, some or no coins came |
| `Dispense.TotalIsBounded` | src/app/dispense_ctrl.cpp:34-76 | over all attempts at most the request plus, for every retry, one coin less than the request is counted |
| `Dispense.ContractKept` | src/app/dispense_ctrl.cpp:26-87 | both of these hold of the report of every call, and a completed call is one of those that a crash may cut at any poll |
| `DispenseRetries.Realized` | src/drivers/hopper_parallel.cpp:30-40 | attempts whose times are in order are what some sensor and some steady clock show the controller |
| `DispenseRetries.TellsAllExactly` | src/app/dispense_ctrl.cpp:32-80 | the report counts all coins, whatever sensor and clock show, exactly when at most one coin is requested, no retry is allowed, or a coin's pulses cannot be counted before the time is up |
| `DispenseRetries.RetryHidesCoin` | src/app/dispense_ctrl.cpp:34-80 | otherwise some sensor and clock make a jammed attempt's coin disappear from the report |
| `DispenseRetries.TotalBoundIsReached` | src/app/dispense_ctrl.cpp:34-80 | for every request and every number of retries, given the time, some sensor and clock make the attempts count exactly the bound while the call ends ok |
| `DispenseRetries.RetryOverpays` | src/app/dispense_ctrl.cpp:34-80 | streams under which a call for two coins with one retry counts three coins and reports two |
| `CashBound.SensorCoinsAreBounded` | src/app/txn_engine.cpp:17-92 | for any crashes and resumes with the controller as dispenser, also crashes at any poll of a dispense, the coins its sensor counted are at most the quarters due times one plus the crashes that lost a journal line, plus for every dispense and every retry one coin less than the quarters |
| `Dispense.EmptyRequest` | src/app/dispense_ctrl.cpp:49-54 | a request for no coins or fewer ends ok at the first poll, and stays within the request only if none was requested and none counted |
| `Dispense.ControllerSuitsEngine` | src/app/idispenser.hpp:3-7 | the count of the controller's last attempt, even of a call cut by a crash, is between nothing and what the engine asked for, as the engine's theorems assume |
| `Dispense.ControllerIsHonest` | src/app/txn_engine.cpp:23-24 | with the controller as dispenser in every boot, what the engine's theorems assume of the dispenser holds over any number of boots |
| `Shutter.FirstStop` | src/app/shutter_fsm.cpp:71-119 | the first tick at which a movement ends: it is within the limit, ends the movement, and no earlier one does |
| `Shutter.Fsm.Command` | src/app/shutter_fsm.cpp:42-70 | an accepted command starts its movement with fresh counters; a refused one only sets the fault state |
| `Shutter.Fsm.Tick` | src/app/shutter_fsm.cpp:71-119 | a tick moves one step and ends the movement exactly when debounce or limit says so, in the right state with the motor off; at rest it does nothing |
| `Shutter.Adapter.WaitFor` | src/app/shutter_adapter.cpp:6-19 | the wait of at most 10000 ticks ends with the panel and outcome of the model |
| `Shutter.Adapter.Run` | src/app/shutter_adapter.cpp:21-34 | so does a whole command |
| `Shutter.CarriedExactly` | src/app/shutter_fsm.cpp:42-119 | for every command and switch: the motor turns the command's way and steps until the last three readings are true, its distance is made, the travel is used up or 10000 ticks are over, and at no earlier step; which of these decides state, motor and answer |
| `Shutter.DebounceReadsThree` | src/app/shutter_fsm.cpp:32-40 | the switch is debounced exactly when the last three readings were true |
| `Shutter.CommandsEndAtRest` | src/app/shutter_adapter.cpp:6-34 | when the travel is at most 10000 steps, every command begun at rest ends at rest with the motor off, never times out, takes at most the travel's steps or one, and opens or closes exactly when it is accepted |
| `Shutter.RunsEndAtRest` | src/app/shutter_adapter.cpp:6-34 | so does every run of commands |
| `Shutter.SoftLimitIsNeverReached` | src/app/shutter_fsm.cpp:96-114 | an accepted movement never ends in the soft-limit fault |
| `Shutter.SoftLimitExactly` | src/app/shutter_fsm.cpp:96-114 | for any steps per millimetre, a dead switch leads to the soft-limit fault exactly when the target lies beyond the travel and the first step |
| `Shutter.HomingEndsInTimeExactly` | src/app/shutter_adapter.cpp:6-24 | homing ends at rest for every switch exactly when the travel is at most 10000 steps; beyond, a dead switch leaves the motor enabled |
| `Shutter.HomingSucceedsExactly` | src/app/shutter_fsm.cpp:74-85 | homing succeeds exactly when three readings in a row are true within travel and patience, and then its last three readings were |
| `Shutter.MotorRunsExactly` | src/app/shutter_fsm.cpp:42-119 | after any run of commands, whatever the travel, the motor is left running exactly when the last accepted command took longer than the adapter waits |
| `Change.Inventory.MakePlan` | src/app/change_maker.cpp:5-28 | the loop yields the model's greedy plan and what is left |
| `Change.Inventory.TakeCoins` | src/app/inventory.cpp:19-25 | at most what is there is taken; an unknown denomination throws |
| `Change.MultiDispenser.Execute` | src/app/multi_dispenser.cpp:9-41 | stock, statistics and reason are those of the model, and it throws exactly when the model does |
| `Change.PlanConservesValue` | src/app/change_maker.cpp:5-28 | plan value and leftover add up to the change, the leftover is not negative unless the change is, and the plan never asks for more than the stock |
| `Change.LowHoppersAreSpared` | src/app/change_maker.cpp:15-19 | a hopper that is missing, or holds no more than its threshold, is not in the plan |
| `ChangeAnswers.UsableExactly` | src/app/change_maker.cpp:11-19 | a hopper above its threshold may be emptied, any other may not be touched |
| `ChangeAnswers.PlanTakesLargestFirst` | src/app/change_maker.cpp:5-28 | kind by kind from the quarters down, the plan takes coins until the usable ones are gone or none fits |
| `ChangeAnswers.LargestFirstIsUnique` | src/app/change_maker.cpp:5-28 | only one choice of coins does so |
| `ChangeAnswers.NothingDueNothingPlanned` | src/app/change_maker.cpp:9-11 | without change due there is no plan, and the leftover is the change |
| `Change.SettledIsFewest` | src/app/change_maker.cpp:8-26 | no purse of the same worth has fewer coins than one without exchangeable small coins |
| `Change.FewestCoinsExactlyWhenStocked` | src/app/change_maker.cpp:5-28 | the plan pays all of the change with the fewest coins of all ways exactly when the usable stock covers the greedy needs |
| `Change.AffordableExactly` | src/app/change_maker.cpp:8-26 | the usable coins can pay an amount exactly when the greedy choice leaves nothing, or would leave nothing with one quarter less than it takes |
| `Change.StrandsExactly` | src/app/change_maker.cpp:5-28 | the plan leaves part of an amount that the usable coins could pay exactly when it leaves something, takes a quarter, and the plan for one quarter less leaves nothing; the quarters meant are those in the plan |
| `Change.GreedyCanStrand` | src/app/change_maker.cpp:5-28 | with one quarter and three dimes thirty cents could be paid, but five are left |
| `Change.PayoutConserves` | src/app/multi_dispenser.cpp:9-41 | paying a plan the stock covers loses exactly the value that was fulfilled, keeps counts non-negative and does not throw |
| `Change.SuccessMeansFulfilled` | src/app/multi_dispenser.cpp:9-41 | the payout is ok exactly when every driver is there, succeeded and paid in full, and then what was fulfilled is the plan |
| `ChangeAnswers.ThrowsExactly` | src/app/multi_dispenser.cpp:9-41 | paying throws exactly when an attached hopper's denomination is not in the stock |
| `ChangeAnswers.FulfilledExactly` | src/app/multi_dispenser.cpp:9-41 | each item is reported with what its driver dispensed, or nothing without a hopper, and the pulses are the sum of the drivers' |
| `ChangeAnswers.LastShortfallIsTold` | src/app/multi_dispenser.cpp:12-40 | the reason is that of the last item that fell short: no hopper, the driver's own, or partial |
| `ChangeAnswers.NoShortfallIsOk` | src/app/multi_dispenser.cpp:38-40 | with none the payout is ok |
| `Change.PlanThenPayConserves` | src/app/multi_dispenser.cpp:9-41 | plan then pay: change is plan plus leftover, stock before is stock after plus fulfilled, every low hopper is untouched, and no count goes negative |
| `Veil.NoFaultsMeansIntact` | src/integrations/veil/service.cpp:141-179 | there is nothing to report exactly when ids are distinct, payload hashes recompute, and every record links to and is not earlier than the nearest one before it with the same device and with the same tenant |
| `Veil.FaultsNamed` | src/integrations/veil/service.cpp:141-179 | a fault is reported exactly when the record it names has it: its id occurs before, its payload does not have its hash, or it is not linked to, or is earlier than, the last record before it with its device or with its tenant |
| `Veil.SelectedExactly` | src/integrations/veil/service.cpp:105-116 | a filter selects exactly the records that meet every criterion given, in their order |
| `Veil.Service.VerifyChain` | src/integrations/veil/service.cpp:141-184 | the single pass with its tables finds exactly the model's faults in order, and is valid exactly when the filtered chain is intact |
| `Veil.Service.CreateEvidence` | src/integrations/veil/service.cpp:65-80 | the store grows by the record with the defaults, hashes and link of the model |
| `Veil.RecordsAsDrafted` | src/integrations/veil/service.cpp:65-80 | record i of every store has draft i's payload in every field, with only an empty audit id filled in, the id given or the next one, the hash of that payload and the signature of hash and link; later drafts do not touch it |
| `Veil.EveryRecordIsLinked` | src/integrations/veil/service.cpp:65-80 | and it is linked to the hash that its device's chain ended in before it, or without one its tenant's, or to nothing |
| `Veil.HashesTellDrafts` | src/integrations/veil/service.cpp:65-80 | with a collision-free payload hash, stores with equal payload hashes were written from equal payloads, audit ids as filled in |
| `Veil.Service.FindLast` | src/integrations/veil/service.cpp:357-364 | the backward search gives the hash of the chain's newest record |
| `Veil.EveryDeviceWindowVerifies` | src/integrations/veil/service.cpp:65-80 | whatever devices' records are interleaved, with unique ids, one tenant a device and non-decreasing time per device, every time window of a device's chain is intact |
| `Veil.TenantVerifiesExactly` | src/integrations/veil/service.cpp:141-184 | a tenant's whole chain is intact exactly when times do not decrease and every record is of the device before it, of a new device, or of none |
| `Veil.InterleavedTenantFails` | src/integrations/veil/service.cpp:65-80 | three records of two devices that take turns, written by the service, do not verify for the tenant |
| `Veil.AutomaticIdsAreUnique` | src/integrations/veil/service.cpp:19-21 | ids left to the service never collide |
| `Twin.Server.Post` | src/cloud/control_plane/twin_contract_server.cpp:42-71 | answer and table are those of the model: unauthorized, malformed, locked, conflict or accepted |
| `Twin.Server.DisableDevice` | src/cloud/control_plane/twin_contract_server.cpp:31-39 | exactly the records of the device are disabled |
| `Twin.RevisionsOnlyRise` | src/cloud/control_plane/twin_contract_server.cpp:42-71 | over any history of pushes to their own path, no record disappears, loses revision or is enabled again |
| `Twin.RecordIsHighestAccepted` | src/cloud/control_plane/twin_contract_server.cpp:31-71 | with pushes to their own path, once a push for a drawer was accepted its record has drawer, device, revision and content of the accepted push of highest revision, that revision as the remote one, and is disabled exactly when its device was disabled after that push, and else synced |
| `Twin.RecordIsLastAccepted` | src/cloud/control_plane/twin_contract_server.cpp:31-71 | whatever the paths, the record is so of the last accepted push for the drawer |
| `Twin.UnpushedRecordStays` | src/cloud/control_plane/twin_contract_server.cpp:31-71 | a drawer for which nothing was accepted keeps its record, but for being disabled |
| `Twin.JudgedExactly` | src/cloud/control_plane/twin_contract_server.cpp:49-63 | locked exactly when the twin or the path's record is disabled, else conflict exactly when the record's revision is not lower, else accepted |
| `Twin.DisabledIsNeverPushed` | src/cloud/control_plane/twin_contract_server.cpp:50-54 | a push leaves a disabled record as it is |
| `Twin.GuardedExactlyWhenAddressed` | src/cloud/control_plane/twin_contract_server.cpp:49-66 | a push keeps the record it writes from going back, for every table, exactly when path and body name the same drawer |
| `TwinClients.RunsAreHistories` | src/cloud/control_plane/http_device_twin_client.cpp:133-166 | every interleaving of any number of clients is, for the server, a history of pushes to their own path |
| `TwinClients.EntriesLeaveOnlyAcceptedOrDropped` | src/cloud/control_plane/http_device_twin_client.cpp:206-250 | in every interleaving, with any messages lost, any queue depth and any entries loaded, every entry of a client none of whose pops strayed is queued, accepted or dropped by a full queue |
| `TwinClients.PopLosesExactly` | src/cloud/control_plane/http_device_twin_client.cpp:217-224 | a pop loses an entry exactly when the front is not one the server accepted, and never while the front is the entry the flush posted |
| `TwinClients.StrayingLoses` | src/cloud/control_plane/http_device_twin_client.cpp:206-235 | in every run, the step that first makes a client stray is exactly the one that loses an entry |
| `TwinClients.SerialStrayExactly` | src/cloud/control_plane/http_device_twin_client.cpp:206-235 | for a client that runs one flush at a time a pop loses an entry exactly when the front is not the entry it posted |
| `TwinClients.SerialPopLosesExactly` | src/cloud/control_plane/http_device_twin_client.cpp:206-235 | and that is so exactly when a full queue has dropped the posted entry meanwhile |
| `TwinClients.RaceLosesEntry` | src/cloud/control_plane/http_device_twin_client.cpp:206-235 | a run in which a drop during a flush loses an entry that was neither accepted nor dropped |
| `TwinClients.MovesOnExactly` | src/cloud/control_plane/http_device_twin_client.cpp:206-228 | the front entry can leave by a flush in some continuation without overflow exactly when it is neither disabled nor superseded, or a flush under way will pop |
| `TwinClients.QuietQueueMovesExactly` | src/cloud/control_plane/http_device_twin_client.cpp:206-228 | with no flush under way, exactly when it is neither disabled nor superseded |
| `TwinClients.LostReplyBlocks` | src/cloud/control_plane/http_device_twin_client.cpp:206-228 | a reply lost after the server took the front entry blocks the queue |
| `TwinClients.DisabledTwinBlocks` | src/cloud/control_plane/http_device_twin_client.cpp:144-166 | pushing a disabled twin blocks the queue with no message lost |
| `TwinClients.OvertakenTwinBlocks` | src/cloud/control_plane/http_device_twin_client.cpp:144-166 | a direct push, from any client, of a revision that is not older than a waiting front entry blocks its queue |
| `TwinClients.BlockedForGood` | src/cloud/control_plane/http_device_twin_client.cpp:206-228 | a blocked client that drops nothing keeps its front entry in every continuation, whatever anyone does |
| `TwinClients.StepsMoveTwins` | src/cloud/control_plane/http_device_twin_client.cpp:144-235 | the interleaved steps move twins as the methods do: a reply other than success and conflict queues the very twin pushed, behind what a full queue keeps, a pop takes the front, and no other step touches the queue |
| `TwinClients.TwinClient.PushTwin` | src/cloud/control_plane/http_device_twin_client.cpp:144-166 | success and conflict leave the queue; anything else queues the twin, dropping the oldest of a full queue |
| `TwinClients.TwinClient.EnqueueLocked` | src/cloud/control_plane/http_device_twin_client.cpp:230-235 | the twin is queued behind what a full queue keeps |
| `TwinClients.TwinClient.FlushOfflineQueue` | src/cloud/control_plane/http_device_twin_client.cpp:206-228 | the loop removes exactly the longest prefix that is heard to be accepted, and the server has what was delivered |
| `TokenBucket.RateLimiter.Allow` | src/server/http_server.cpp:69-82 | the call refills, and takes a token exactly when it is granted |
| `TokenBucket.WindowBound` | src/server/http_server.cpp:60-82 | in any run of calls at non-decreasing times the grants in a window are at most the capacity plus the refill rate times its length |
| `TokenBucket.PatienceIsRewardedExactly` | src/server/http_server.cpp:69-82 | in every run, all calls at least the time of one token after the one before are granted, exactly when the capacity is at least one |
| `TokenBucket.BurstIsGranted` | src/server/http_server.cpp:66-82 | a new bucket grants a burst of as many calls as it holds tokens, so the bound is reached |
| `Base64.Encode` | src/server/http_server.cpp:154-170 | for every byte string and every accumulator that keeps its low twelve bits, the streaming loop yields the encoding by three-byte blocks with padding of section 4 of RFC 4648 |
| `Base64.Wrap32KeepsLowBits` | src/server/http_server.cpp:157-165 | a 32-bit accumulator is such a one |
| `Base64.StreamIsBlocks` | src/server/http_server.cpp:154-170 | byte by byte and block by block lead to the same layout of digits and padding |
| `Base64.DecoderInvertsEncoder` | src/server/http_server.cpp:154-170 | the standard decoder gives back the bytes |
| `Base64.TextDeterminesBytes` | src/server/http_server.cpp:154-170 | different credentials have different header texts |
| `Decimal.RenderInjective` | src/pos/contracts.cpp:6-10 | different integers are written differently |

## Left out

- VEIL evidence emitted by fleet operations, the trust score, evidence bundles and labels: they do not feed back into the state machines.
- Fleets, locations, groups, enrolment tokens and read-only listings of the fleet service: tables that only these listings read.
- Saving and loading of the cloud services: whole-state dumps; runs are without reload.
- HTTP routes, the serial and HTTP POS connectors, TUI, CLI and configuration parsing.
- Failing file systems and torn writes: an append is atomic and succeeds.
- Exceptions thrown out of a purchase: a handler that never returns is not modelled.
- Health scoring, predictive maintenance, audit weighing, OTA, the disk queue and cash intelligence: separate services with their own thresholds, files and sums, which the parts modelled here do not call.
- The order of `std::map` iteration in sweeps: the theorems hold for every order.
- Dispense.Hopper.PollOnce: the interval test takes the clock not to go back; the source's unsigned difference would wrap if it did.
- Twin.Server.Post: drawer ids that contain a slash, which the route does not match, are not modelled.
- `TwinContractServer::upsert`, which writes a record past the revision guard, is not modelled; the theorems start from any table, so they hold of what follows an upsert.
- Machine integers are unbounded except where their width decides the result: the hopper's 64-bit interval, the journal's 32-bit conversion and the encoder's accumulator.
- FleetChain.LastHashDeterminesLog: the hash is a function of the event's fields, so the text that is hashed is not modelled.
- Veil.TenantVerifiesExactly: the chain hash is a function of the four fields it covers; that their concatenation could be ambiguous for odd ids is not modelled.
- Veil.Service.VerifyChain: the hash over all record hashes, the result's summary, is not modelled, and the audit record of the call is not.
- TxnEngine.CoinsPaidAreBounded: counts coins as the dispenser reports them; `CashBound.SensorCoinsAreBounded` counts them as the sensor does.
- Dispense.Controller.DispenseCoins: the settle, poll and backoff sleeps appear only as the time the clock stream shows.
- Journal.LastRecordIsReadExactly: host and time stamp are taken to contain no quote and no line break.
- TokenBucket.WindowBound: exact reals instead of floating point.
- TwinClients.TwinClient.EnqueueLocked: requires a queue depth of at least one or an entry in the queue; popping the front of an empty queue is undefined in the source.
- TwinClients.TwinClient.PushTwin: the same.
- FleetService.Service.constructor: starts empty; loading a saved store is not modelled.
- FleetService.Service.Enroll: the group, location, fleet and assignment tables are not modelled.
- FleetService.Service.FleetRisk: the risks are in the order the table yields them; their sort by device id is not modelled.
- Veil.Service.CreateEvidence: default labels and the content of the audit event are not modelled.
- DispenseRetries.TotalBoundIsReached: requires that the time allowed suffices for the pulses of all attempts.
