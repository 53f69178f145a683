# SwebKit sidecar: verified models

This project models the parts of the SwebKit sidecar whose correctness depends on interleaving, crashes,
replay or induction, and proves what they promise, or exactly when they keep the promise.

- **Service Bus operations** (`Operations`, `OperationInvariant`, `ReplayRuns`, `JournalRuns`, `FlushRuns`, `StatusRuns`,
  `Lifecycle`, `ReachRuns`, `ReachCompletion`, `ParkLoop`, `ReplayPass`, `OperationService`). A long-running
  operation lives in memory, in the journal's cached and saved rows, and on the broker. `Operations.Apply` takes
  one atomic section at a time: start, cancel, resume, dismiss, one broker call of a runner, the three moments
  of a journal write (reading the status, entering the persist gate, landing or failing to land), a lock
  expiring, the process dying. A run is any sequence of them. The broker is an abstract state: what was sent to
  the replay target; what is parked, stamped, locked and copied for reach-message. All operations on an entity
  share its dead-letter queue: the receiver of one can hold the stamped messages of another, and a replay from
  that queue can remove them. `ReplayPass` is one replay pass as a function of what the receives bring;
  `OperationService.SbOperationService` is the service object, whose loop computes it.
- **Alert engine and its history** (`AlertEngine`, `AlertSchedule`, `AlertRows`, `AlertSummary`, `SummaryLaws`,
  `AlertReplay`, `AlertRetention`). The engine's tables and the rows it writes, the summary built from those rows, and
  the theorem that relates the two independent pieces of code.
- **Proactive insights** (`Insight`): the single-flight flag and the firing-episode table, every access a step.
- **Smaller cores**: `JsonScanner` (an object out of prose), `ToolNames` (unique bounded names), `ExchangeBuffer`
  (the last fifty exchanges), `SessionHistory` (rolling summaries), `LinkedTree` (reparenting).

`dafny verify dfyconfig.toml` checks the whole project. Times are integers in 100-nanosecond ticks. Text that no
branch reads (messages, notes, prompts, logs) is absent.

## What does not hold

Each of these is a lemma with a concrete run or input, named here, next to the exact condition under which the
promise holds.

- A replay can send a sequence twice in a run with no crash: the settle after a send faults, the pass ends Failed
  and is resumed. The interruption note and the runner's comment (`SbOperationService.cs:187`, `:505-510`) speak of
  crashes only. The number of copies is governed exactly by how often a send was forgotten (`CrashFreeDuplicate`,
  `SentAccounting`).
- The throttled save bounds what a crash repeats by fewer than 25 only when no flush is on its way; right after the 25th
  confirmation none of the 25 is saved (`TwentyFiveUnsaved`, `RedoBound`).
- The persist gate is meant to keep a stale snapshot from landing after the terminal one
  (`SbOperationService.cs:686-688`). It does so for the skip-set; the status is read before the gate and can be stale
  in the saved row, so a dismissed operation can come back resumable after a restart (`DismissedComesBack`,
  `StatusSettles`).
- Resume does not look for another running operation, so two can run on one entity (`TwoRunnersOnOneEntity`,
  `ResumeKeepsExclusiveIff`).
- A restore can complete and leave a stamped message behind: it was received by a pass that was cancelled, and the
  resumed pass could not see it because the lock was still held (`CompletedButStranded`, `StrandsIff`).
- With two runners on one entity a restore can do so even if it was never resumed and its own receiver never held the
  message: the restore of the other operation did (`RivalStrands`, `StrandsBesideIff`).
- The summary stops mirroring the engine's open incidents (`AlertHistorySummary.cs:95-100`) when a rule is deleted
  while its incident is open, and when the process restarts (`DeletedRuleStaysOpen`, `RestartStaysOpen`,
  `SummaryMirrorsEngineIff`).
- An investigation of a rule can be announced twice with no recovery or failure in between, when the rule recovers
  between the claim of its episode and the first announcement (`RecoveryDuringClaim`, `StartsAgainIff`).
- A slug keeps letters outside ASCII, so it can leave the function-name characters its comment promises
  (`ExternalMcpToolSource.cs:275-276`; `SlugLeavesLegal`, `SlugLegalIff`).
- Messages appended, or a clear issued, while a session's summary is being written are undone by it
  (`AppendedMessageVanishes`, `SummaryContinuousIff`).
- Moving a node into its own subtree drops the subtree from the collection. The file layer refuses that move
  (`LinkedCollectionFileService.cs:539-542`), after the in-memory reparent (`MoveIntoItselfLoses`, `MoveConservesIff`).

## Model

| member | source | states |
|---|---|---|
| OperationInvariant.RunKeeps | src-sidecar/Services/SbOperationService.cs:100-732 | the invariant of every run: saved skip-set within the cached one within memory, a row that says Completed or Dismissed tells the truth, a replay's wanted, failed, in-flight and confirmed sequences partition the request, parked messages are stamped or copied, and an operation that touched the broker has a row on disk unless a save failed |
| OperationInvariant.ApplyKeeps | src-sidecar/Services/SbOperationService.cs:206-431 | every single section keeps that invariant, from any state that has it |
| OperationInvariant.CrashKeeps | src-sidecar/Services/SbOperationService.cs:107-180 | so does dying at any moment and rebuilding from the saved rows |
| ReplayRuns.SentAccounting | src-sidecar/Services/SbOperationService.cs:511-596 | in every run, for every sequence: copies on the target = 1 if remembered + 1 if in flight + times forgotten |
| ReplayRuns.DuplicateBound | src-sidecar/Services/SbOperationService.cs:511-622 | a sequence reaches the target at most 1 + (times its send was forgotten) times |
| ReplayRuns.CrashFreeDuplicate | src/SwebKit.Azure/ServiceBus/AzureServiceBusClient.cs:1171-1199 | a run without crash, cancel or failed save in which one sequence is sent twice |
| ReplayRuns.NothingForgottenIff | src-sidecar/Services/SbOperationService.cs:511-622 | a run forgets no send of an operation if and only if no settle fails and no cancel is observed while one of its sends is in flight, and at every crash nothing of it is in flight or missing from the saved skip-set |
| ReplayRuns.NoDuplicate | src-sidecar/Services/SbOperationService.cs:546-562 | such a run sends every sequence at most once, through any refused sends, faults, cancels between messages, resumes, dismissals, restarts and lost writes |
| ReplayRuns.ResendsWhatItForgot | src-sidecar/Services/SbOperationService.cs:540-562 | when a pass is about to send a sequence, the target holds exactly as many copies as the operation has forgotten: a duplicate if and only if something was forgotten |
| ReplayRuns.CrashAccounts | src-sidecar/Services/SbOperationService.cs:168-171 | a crash forgets a sequence exactly when it was in flight or confirmed but not in the saved skip-set |
| ReplayRuns.QuietStep | src-sidecar/Services/SbOperationService.cs:343-431 | cancel, resume, dismiss and every journal step change neither what was sent nor what is remembered of it |
| JournalRuns.DiskWithinMemory | src-sidecar/Services/SbOperationService.cs:671-740 | at any moment the saved skip-set is within the one in memory and within the request |
| JournalRuns.DiskGrows | src-sidecar/Services/SbOperationService.cs:604-622 | the saved skip-set only grows, through restarts, failed saves and overlapping throttled and closing writes |
| JournalRuns.ClosingWriteIsWhole | src-sidecar/Services/SbOperationService.cs:692-715 | once the runner is over, a write that enters the gate carries the whole skip-set |
| JournalRuns.ClosingLands | src-sidecar/Services/SbOperationService.cs:583-594 | and when it lands the saved skip-set equals the one in memory |
| JournalRuns.DiskStaysWhole | src-sidecar/Services/SbOperationService.cs:671-732 | no later step but a restart or a resume takes that away, whichever write is stale in status |
| JournalRuns.DiskStaysWholeForever | src-sidecar/Services/SbOperationService.cs:671-732 | nor does any run of such steps |
| JournalRuns.CrashKeepsWholeSkipSet | src-sidecar/Services/SbOperationService.cs:168-171 | so a restart then gives back the whole skip-set |
| JournalRuns.NextSaveHeals | src/SwebKit.Core/Configuration/SbOperationJournalRepository.cs:45-51 | a failed save leaves its row cached, and the next successful save of any operation puts every cached row on disk |
| FlushRuns.FlushAsked | src-sidecar/Services/SbOperationService.cs:518-537 | a confirmation that brings the skip-set to a multiple of 25 with no flush in flight asks for exactly one flush and marks it; any other asks for nothing |
| FlushRuns.EndingAsked | src-sidecar/Services/SbOperationService.cs:583-600 | every way a runner ends, and the change from parking to restoring, asks for exactly one write of the runner, and nothing else does |
| FlushRuns.WritesAsked | src-sidecar/Services/SbOperationService.cs:604-622 | at any moment of any run a flush is owed, waiting or in the gate exactly while it is marked, and never two; at most one write of Start, Resume and Dismiss is on its way in the whole service |
| FlushRuns.RedoBound | src-sidecar/Services/SbOperationService.cs:604-622 | in every run without a failed save in which every flush lands before the next multiple of 25, a crash during a pass finds at most the confirmations since the last multiple of 25 unsaved, so fewer than 25, and 25 more only while a flush is on its way |
| FlushRuns.TwentyFiveUnsaved | src-sidecar/Services/SbOperationService.cs:529-537 | a run in which 25 are unsaved: right after the 25th confirmation |
| StatusRuns.LastWriteWins | src-sidecar/Services/SbOperationService.cs:675-684 | with all writes captured, the saved status is the one captured by whichever write lands last, in every landing order |
| StatusRuns.AnyWriteCanBeLast | src-sidecar/Services/SbOperationService.cs:686-690 | any waiting write can be that last one |
| StatusRuns.StatusSettles | src-sidecar/Services/SbOperationService.cs:675-715 | the saved status ends up right in every landing order if and only if every waiting write captured the final status |
| StatusRuns.DismissedComesBack | src-sidecar/Services/SbOperationService.cs:409-431 | a run in which a dismissed operation is resumable again after a restart |
| StatusRuns.RestartState | src-sidecar/Services/SbOperationService.cs:126-136 | a restart maps Running to Interrupted and keeps the other states exactly when the saved status is the truth |
| Lifecycle.StatesFollow | src-sidecar/Services/SbOperationService.cs:364-431 | in every run each step follows Running to Completed, Failed or Cancelled, and Interrupted, Failed or Cancelled to Running, Failed or Dismissed; the rest is final |
| Lifecycle.StartsIff | src-sidecar/Services/SbOperationService.cs:217-240 | with the gate free and a new id, a start leaves a running operation with that job on that entity if and only if no operation in state Running has that entity, whatever runs elsewhere; else nothing changes |
| Lifecycle.StartsInRunIff | src-sidecar/Services/SbOperationService.cs:273-306 | the same after any run |
| Lifecycle.ResumeAcceptedIff | src-sidecar/Services/SbOperationService.cs:364-403 | a resume is accepted exactly in Interrupted, Failed and Cancelled: it runs again with its cancel forgotten, or is Failed without a runner when a replay's target is gone, and asks for one write |
| Lifecycle.DismissAcceptedIff | src-sidecar/Services/SbOperationService.cs:409-431 | so is a dismissal; it ends Dismissed |
| Lifecycle.CancelEnds | src-sidecar/Services/SbOperationService.cs:343-353 | whatever the job and wherever its runner is at work, a cancel is observed by the next check, which ends it Cancelled, asks for the closing write and changes nothing else; without a cancel a check passes by |
| Lifecycle.FaultEnds | src-sidecar/Services/SbOperationService.cs:463-500 | a fault outside the sending of a message ends any runner Failed, asks for the closing write and changes nothing else |
| Lifecycle.StartKeepsExclusive | src-sidecar/Services/SbOperationService.cs:217-240 | starting keeps one running operation per entity, unconditionally |
| Lifecycle.ResumeKeepsExclusiveIff | src-sidecar/Services/SbOperationService.cs:364-398 | resuming keeps it if and only if it starts no runner or no other operation runs on the entity |
| Lifecycle.OneRunnerPerEntity | src-sidecar/Services/SbOperationService.cs:192-240 | in every run whose resumes find their entity free there is never a second runner on an entity |
| Lifecycle.TwoRunnersOnOneEntity | src-sidecar/Services/SbOperationService.cs:370-393 | a run in which a resume puts a second one there |
| Lifecycle.CompletedAccountsForAll | src-sidecar/Services/SbOperationService.cs:564-582 | a completed replay has every requested sequence in exactly one of the skip-set and the final pass's missing set |
| Lifecycle.FailedPassResumesTheRest | src-sidecar/Services/SbOperationService.cs:540-575 | a pass that fails by count leaves exactly the failed and never-found sequences as what the next resume attempts |
| Lifecycle.CrashMarker | src-sidecar/Services/SbOperationService.cs:201-240 | unless a save failed, a restart at any moment finds every operation that touched the broker, and a running one resumable |
| ReachRuns.NothingParkedIsLost | src-sidecar/Services/SbOperationService.cs:435-503 | in every run each parked message is still stamped in the dead-letter queue, has a copy, or was removed by a replay from that queue, and the target was acted on at most once |
| ReachRuns.TakenWasSent | src/SwebKit.Azure/ServiceBus/AzureServiceBusClient.cs:1147-1182 | a removed message was removed by a replay whose source is the dead-letter queue of the same entity and which removes what it sends, at a moment when the copy it was settling was on its target |
| ReachRuns.TakeRemoves | src/SwebKit.Azure/ServiceBus/AzureServiceBusClient.cs:1171-1182 | such a replay, settling a copy it has sent, takes a held message of another operation out of the queue and changes nothing else |
| ReachRuns.BorrowHolds | src/SwebKit.Azure/ServiceBus/AzureServiceBusClient.cs:813-834 | a restore, and a replay from the dead-letter queue, can hold any stamped message of the entity |
| ReachRuns.ActStamps | src/SwebKit.Azure/ServiceBus/AzureServiceBusClient.cs:720-736 | acting on the target stamps it exactly when it is to be resubmitted |
| ReachRuns.ParkedWithinCap | src/SwebKit.Azure/ServiceBus/ReachParkProcessor.cs:49-72 | in every run an operation has parked only messages below its target, at most its cap of them, and the target only if it was acted on to be resubmitted |
| ReachRuns.ResumeOnlyRestores | src-sidecar/Services/SbOperationService.cs:387-398 | once the first pass is past parking, no later run of events parks or acts again |
| ReachRuns.CompletedLeavesUnseen | src-sidecar/Services/SbOperationService.cs:474-491 | a completed operation leaves stamped exactly what its last pass never received |
| ReachRuns.RestoreOrderIff | src/SwebKit.Azure/ServiceBus/AzureServiceBusClient.cs:771-775 | restore order without ranks: messages other than the target ascend by original sequence and the target is after all of them or before all of them, as requested |
| ReachRuns.CopiesKeepOrder | src/SwebKit.Azure/ServiceBus/AzureServiceBusClient.cs:771-775 | in every run the copies of a pass stand at the end of the queue with those of other messages ascending by original sequence, none of them behind the target's if it is to come last, none before it if first |
| ReachRuns.SureToLeaveNothing | src/SwebKit.Azure/ServiceBus/AzureServiceBusClient.cs:798-861 | one restore pass of one operation, with nothing else happening to it: sure to leave nothing stamped when it completes, whatever fails or expires on the way, if and only if no stamped message is locked when it starts |
| ReachRuns.StrayLockStrands | src/SwebKit.Azure/ServiceBus/AzureServiceBusClient.cs:813-834 | with a message locked at its start, some such pass completes and leaves one behind |
| ReachRuns.FirstPassIsSure | src-sidecar/Services/SbOperationService.cs:454-455 | the same for the pass that begins right after the target was acted on: sure if and only if no stamped message is locked then |
| ReachCompletion.CompletedLeavesNothing | src/SwebKit.Azure/ServiceBus/AzureServiceBusClient.cs:813-834 | in every run, of any number of operations on the same queue, crashes, failed saves, cancels and resumes: a completed operation leaves nothing stamped, provided that none of its messages is held when a restore pass of it begins and no other operation picks one up while that pass receives |
| ReachCompletion.CompletedAloneLeavesNothing | src-sidecar/Services/SbOperationService.cs:192-240 | so in every run whose resumes find their entity free it is enough that nothing is held when a pass begins |
| ReachCompletion.NeverResumedLeavesNothing | src-sidecar/Services/SbOperationService.cs:449-491 | and in such a run an operation that completes without ever being resumed leaves nothing behind, whatever other operations on its entity do before and after |
| ReachCompletion.StrandsIff | src-sidecar/Services/SbOperationService.cs:474-491 | whenever a restore pass has begun, in any reachable system, some continuation without another resume of the operation and without another operation picking up its messages ends Completed with a message left stamped if and only if a receiver holds one of its messages at that moment |
| ReachCompletion.StrandsBesideIff | src/SwebKit.Azure/ServiceBus/AzureServiceBusClient.cs:813-834 | while another operation is receiving from the same queue, some continuation without another resume does so if and only if a message is stamped at all |
| ReachCompletion.CompletedButStranded | src/SwebKit.Azure/ServiceBus/AzureServiceBusClient.cs:813-834 | a run from the start, without crash, fault or failed save, that ends Completed with a message stamped and no copy of it: the restore is cancelled after receiving it and resumed before the lock expires |
| ReachCompletion.RivalStrands | src-sidecar/Services/SbOperationService.cs:364-398 | a run from the start, without crash, fault or failed save, in which an operation that was never resumed ends Completed with a message stamped and no copy of it: a failed operation was resumed beside it, and its restore received the message and was cancelled before releasing it |
| ReachCompletion.PassInSystem | src-sidecar/Services/SbOperationService.cs:435-503 | the isolated passes above are runs of the whole system |
| ParkLoop.ParkForReach | src/SwebKit.Azure/ServiceBus/ReachParkProcessor.cs:14-92 | the parked messages are the longest run below the target that fits under the cap; the next message decides target reached, cap hit or gap; batches are opened up to the one that holds the deciding message, and every message of an opened batch is parked, acted on or released |
| ParkLoop.OnMessage | src/SwebKit.Azure/ServiceBus/ReachParkProcessor.cs:30-88 | one received message keeps what the loop knows |
| ParkLoop.PrefixUnique | src/SwebKit.Azure/ServiceBus/ReachParkProcessor.cs:30-88 | that run is the only one of its kind |
| ReplayPass.FirstDecides | src/SwebKit.Azure/ServiceBus/AzureServiceBusClient.cs:1163-1199 | of all messages with one sequence only the first heard counts: it confirms the sequence, fails it, or the sequence stays wanted |
| ReplayPass.BatchHeard | src/SwebKit.Azure/ServiceBus/AzureServiceBusClient.cs:1151-1199 | with something wanted, all of a receive's batch is handled, or its front up to the first fault or, once a cancel is requested, the first point where it is seen |
| ReplayPass.HeardGoesOn | src/SwebKit.Azure/ServiceBus/AzureServiceBusClient.cs:1134-1207 | the receives go on exactly as long as no signal ended the pass, something is still wanted and no receive brought nothing |
| ReplayPass.PassMeans | src/SwebKit.Azure/ServiceBus/AzureServiceBusClient.cs:1134-1207 | a whole pass, for every script of receives: accepted sequences join the skip-set, the pass is Completed if and only if no fault and no observed cancel ended it and no wanted message was refused, Cancelled if and only if a cancel ended it, and the missing set becomes the wanted sequences no message had |
| ReplayPass.PassSends | src/SwebKit.Azure/ServiceBus/AzureServiceBusClient.cs:1171-1199 | the target gets exactly one copy of each wanted sequence whose first message was accepted, or refused only at its settle, or whose send a cancel cut off from its settle; and no other |
| ReplayPass.PassIsTrace | src-sidecar/Services/SbOperationService.cs:511-596 | a pass is a run of the transition system: the steps its script causes, in order |
| OperationService.SbOperationService.HasRunning | src-sidecar/Services/SbOperationService.cs:192-199 | true exactly when some operation in state Running has that entity |
| OperationService.SbOperationService.TryStart | src-sidecar/Services/SbOperationService.cs:206-315 | refused exactly when an operation in state Running has the entity; else the new operation, running with its job on that entity, its gate and the write it owes, and nothing else |
| OperationService.SbOperationService.Cancel | src-sidecar/Services/SbOperationService.cs:343-353 | only trips the token of a running operation |
| OperationService.SbOperationService.Resume | src-sidecar/Services/SbOperationService.cs:364-403 | accepted exactly in the resumable states; fails honestly when a replay's target is gone |
| OperationService.SbOperationService.Dismiss | src-sidecar/Services/SbOperationService.cs:409-431 | accepted exactly in the resumable states |
| OperationService.SbOperationService.BeginPersist | src-sidecar/Services/SbOperationService.cs:675-684 | captures the status outside the gate |
| OperationService.SbOperationService.EnterPersistGate | src-sidecar/Services/SbOperationService.cs:689-715 | snapshots the skip-set inside it |
| OperationService.SbOperationService.LeavePersistGate | src/SwebKit.Core/Configuration/SbOperationJournalRepository.cs:45-51 | the cached row is replaced either way; only a successful save puts every cached row on disk |
| OperationService.SbOperationService.OnProgress | src-sidecar/Services/SbOperationService.cs:518-538 | confirms the sequence in flight, and owes one flush more exactly when the skip-set reaches a multiple of 25 with none in flight |
| OperationService.SbOperationService.RunReplay | src-sidecar/Services/SbOperationService.cs:511-596 | a whole pass: the operation ends as the pass function says for what the receives brought, no other operation changes, the confirmed sequences are those of the script in order, each requested and new, and are what the skip-set gains; Completed if and only if nothing ended it early and nothing wanted was refused, with the never delivered sequences as missing |
| OperationService.SbOperationService.ReceiveBatches | src/SwebKit.Azure/ServiceBus/AzureServiceBusClient.cs:1154-1202 | receives until nothing is wanted, a receive is empty or a signal ends the pass, and does for all it heard what the pass function says |
| OperationService.SbOperationService.OnBatch | src/SwebKit.Azure/ServiceBus/AzureServiceBusClient.cs:1163-1201 | handles every message of a batch up to the signal that ends the pass and none behind it, and does for them what the pass function says |
| OperationService.SbOperationService.OnMessage | src/SwebKit.Azure/ServiceBus/AzureServiceBusClient.cs:1163-1199 | a wanted message is transferred and listed as confirmed or counted as failed; any other is released and changes nothing |
| OperationService.SbOperationService.OnInterrupt | src/SwebKit.Azure/ServiceBus/AzureServiceBusClient.cs:1156-1190 | a fault ends the pass Failed; a cancel ends it only when one was requested, and a send it cut off stays sent |
| OperationService.SbOperationService.Transfer | src/SwebKit.Azure/ServiceBus/AzureServiceBusClient.cs:1164-1199 | one wanted message: copies on the target, skip-set, failed and wanted sets after each of its three outcomes |
| OperationService.SbOperationService.Materialize | src-sidecar/Services/SbOperationService.cs:126-171 | the record of a saved row: a running row comes back interrupted, with its skip-set and idle |
| OperationService.SbOperationService.Restart | src-sidecar/Services/SbOperationService.cs:107-180 | the tables of a restarted process are those the saved rows give |
| AlertEngine.MonitoringAlertEvaluationService.ReloadRules | src-sidecar/Services/MonitoringAlertEvaluationService.cs:90-104 | schedules, failure counts and cooldowns go; incidents of rules that are gone go |
| AlertEngine.MonitoringAlertEvaluationService.Restart | src-sidecar/Services/MonitoringAlertEvaluationService.cs:44-53 | a new process starts with empty tables and the history as it is |
| AlertEngine.MonitoringAlertEvaluationService.BeginDuePass | src-sidecar/Services/MonitoringAlertEvaluationService.cs:149-171 | the pass takes exactly the enabled rules whose stored time, if any, has come |
| AlertEngine.MonitoringAlertEvaluationService.EvaluateRule | src-sidecar/Services/MonitoringAlertEvaluationService.cs:173-283 | one evaluation changes the tables and writes at most one row, as the engine step and its append say; the recent list stays at 200 |
| AlertEngine.MonitoringAlertEvaluationService.Fire | src-sidecar/Services/MonitoringAlertEvaluationService.cs:213-275 | outside the cooldown: claims it, opens the incident, records the firing whether suppressed or not, drops the oldest recent alert when full |
| AlertEngine.MonitoringAlertEvaluationService.ResolveOpenIncident | src-sidecar/Services/MonitoringAlertEvaluationService.cs:330-347 | closes an open incident and writes its resolution; nothing for a rule that never fired |
| AlertEngine.MonitoringAlertEvaluationService.ScheduleWithBackoff | src-sidecar/Services/MonitoringAlertEvaluationService.cs:354-364 | counts the failure and schedules the backed-off delay |
| AlertSchedule.BackoffCurve | src-sidecar/Services/MonitoringAlertEvaluationService.cs:358-361 | the delay starts at the interval, doubles, never shrinks, and is 600 seconds from the seventh failure at the latest |
| AlertSchedule.CountsFailuresInARow | src-sidecar/Services/MonitoringAlertEvaluationService.cs:190-208 | in every run the stored count is the number of failing evaluations since the last clean or firing one, reload or restart |
| AlertSchedule.NextDelay | src-sidecar/Services/MonitoringAlertEvaluationService.cs:196-212 | after the k-th failure in a row the rule waits the k-th delay of the curve; after a clean or firing evaluation, its interval |
| AlertSchedule.SchedulesAsEarned | src-sidecar/Services/MonitoringAlertEvaluationService.cs:177-212 | in every run the stored time of a rule is what its last evaluation since the last reload or restart earned: the interval, at least 10 seconds, after a clean or firing one, the k-th backoff after the k-th failure in a row, 120 seconds without a source |
| AlertSchedule.PassTakesIff | src-sidecar/Services/MonitoringAlertEvaluationService.cs:149-171 | a pass begun after any run takes exactly the enabled rules whose earned wait is over |
| AlertSchedule.UnevaluatedRuleIsTaken | src-sidecar/Services/MonitoringAlertEvaluationService.cs:157-166 | an enabled rule not evaluated since the last reload or restart is in the next pass, and a disabled one in none |
| AlertSchedule.EvaluationsSpaced | src-sidecar/Services/MonitoringAlertEvaluationService.cs:157-212 | in every run two evaluations of a rule with no reload or restart between are at least as far apart as the first one earned |
| AlertSchedule.EvaluationSchedules | src-sidecar/Services/MonitoringAlertEvaluationService.cs:173-212 | whatever its outcome, an evaluation schedules the next one at most max(interval, 600) seconds ahead, 120 when the rule has no source |
| AlertSchedule.DueAgain | src-sidecar/Services/MonitoringAlertEvaluationService.cs:149-171 | an evaluated rule that is enabled is due at every time from max(interval, 600) seconds on, whatever passes, reloads, restarts and other evaluations come between |
| AlertSchedule.CooldownSpacing | src-sidecar/Services/MonitoringAlertEvaluationService.cs:220-237 | two recorded firings of a rule with no reload or restart between are at least its cooldown apart |
| AlertSchedule.FiringRecordedIff | src-sidecar/Services/MonitoringAlertEvaluationService.cs:220-274 | after any run a firing evaluation is recorded if and only if the cooldown of the last recorded firing since the last reload or restart is over; its row has the rule's severity, the time of the pass and the kind that says whether it was suppressed |
| AlertSchedule.RecoveryRecordedIff | src-sidecar/Services/MonitoringAlertEvaluationService.cs:330-348 | after any run a clean evaluation is recorded as a recovery if and only if a firing of the rule has been recorded since its last clean evaluation; its row has the rule's severity and the time of the pass |
| AlertSchedule.ReloadEndsCooldown | src-sidecar/Services/MonitoringAlertEvaluationService.cs:96-100 | a reload in between removes that spacing |
| AlertRows.SortSorts | src-sidecar/Services/AlertHistorySummary.cs:119 | sorting orders by time, then id, and keeps every row |
| AlertRows.SortedUnique | src-sidecar/Services/AlertHistorySummary.cs:119 | two sorted arrangements of the same rows are the same |
| AlertRows.SortKeepsRule | src-sidecar/Services/AlertHistorySummary.cs:119 | rows already in time order for a rule keep that order |
| AlertSummary.CountRows | src-sidecar/Services/AlertHistorySummary.cs:121-184 | the loop over the sorted rows computes the tallies |
| AlertSummary.Build | src-sidecar/Services/AlertHistorySummary.cs:112-228 | the summary carries the tallies of the sorted history, lists the newest hundred open incidents with the true total, and reports pair count, mean, median, maximum and orphans |
| AlertSummary.ListOpen | src-sidecar/Services/AlertHistorySummary.cs:196-212 | all open incidents, newest first |
| AlertSummary.SortDurations | src-sidecar/Services/AlertHistorySummary.cs:186 | ascending and a permutation |
| AlertSummary.Resolutions | src-sidecar/Services/AlertHistorySummary.cs:187-194 | the resolution figures of exactly the paired durations |
| SummaryLaws.OpenIncidents | src-sidecar/Services/AlertHistorySummary.cs:133-184 | a rule is open if and only if its last row is a firing; the incident dates from the first firing after the last resolution and counts the later ones |
| SummaryLaws.OpenIsReplay | src-sidecar/Services/AlertHistorySummary.cs:133-184 | the pass over all rules replays each rule by itself |
| SummaryLaws.OrderDoesNotMatter | src-sidecar/Services/AlertHistorySummary.cs:107-119 | any permutation of the history gives the same tallies |
| SummaryLaws.ClampNeverApplies | src-sidecar/Services/AlertHistorySummary.cs:168-173 | a resolution is never earlier than the firing that opened its incident, so the clamp at zero never applies |
| SummaryLaws.DurationsAreLengths | src-sidecar/Services/AlertHistorySummary.cs:157-174 | the recorded durations are the lengths of the incidents closed in the window, from their first firing |
| SummaryLaws.SeveritiesCounted | src-sidecar/Services/AlertHistorySummary.cs:153-154 | each severity count is the number of firings of that severity in the window |
| SummaryLaws.CountsAgree | src-sidecar/Services/AlertHistorySummary.cs:121-194 | bucket sums equal the totals, severities add up to all firings, resolutions are pairs plus orphans |
| SummaryLaws.BucketsHoldTheirHour | src-sidecar/Services/AlertHistorySummary.cs:136-153 | each bucket counts exactly the firings of its hour |
| SummaryLaws.MeanAndMedianAre | src-sidecar/Services/AlertHistorySummary.cs:186-236 | the mean times the number of durations is their sum; twice the median is the sum of the two durations in the middle |
| SummaryLaws.MeanAndMedianWithin | src-sidecar/Services/AlertHistorySummary.cs:186-236 | mean and median lie between the smallest and the largest duration |
| AlertReplay.LogRefinesLiveState | src-sidecar/Services/AlertHistorySummary.cs:95-184 | whenever every decided row is appended or was lost with its process: the summary shows a rule open exactly when the engine has it open or a reload or restart dropped its incident unresolved; its incident is the live one exactly when no such drop is outstanding; no resolution is an orphan |
| AlertReplay.SummaryMirrorsEngineIff | src-sidecar/Services/MonitoringAlertEvaluationService.cs:173-283 | the rebuilt open incidents, with opening rows and counts, are the live ones if and only if no reload or restart has dropped an incident the history still shows unresolved |
| AlertReplay.DeletedRuleStaysOpen | src-sidecar/Services/MonitoringAlertEvaluationService.cs:101-103 | a run that breaks the mirror: the engine has nothing open, the summary of the history shows the deleted rule, whatever its window |
| AlertReplay.RestartStaysOpen | src-sidecar/Services/MonitoringAlertEvaluationService.cs:50-53 | so does a restart after a saved firing |
| AlertReplay.CountsOrphans | src-sidecar/Services/AlertHistorySummary.cs:176-182 | the orphan count is the number of resolutions in the window with no open incident before them |
| AlertRetention.AlertHistoryRepository.Append | src/SwebKit.Core/Configuration/AlertHistoryRepository.cs:101-116 | replaces a row of the same id, keeps newest first, cuts at 2000 |
| AlertRetention.StoreHoldsNewest | src/SwebKit.Core/Configuration/AlertHistoryRepository.cs:24-116 | after any run of appends in time order with distinct ids the store is the newest 2000 rows, newest first |
| AlertRetention.RunInOrder | src-sidecar/Services/MonitoringAlertEvaluationService.cs:239-283 | the engine's log is in time order |
| AlertRetention.RetentionKeepsTruth | src-sidecar/Services/AlertHistorySummary.cs:157-182 | with any prefix dropped and the rest in any order, a rule rebuilt as open is open in the engine or was dropped by a reload or restart, and an orphan is its rule's first retained row |
| AlertRetention.OneOrphanPerRule | src-sidecar/Services/AlertHistorySummary.cs:176-182 | so no rule has two orphans |
| AlertRetention.StoredHistoryTellsTruth | src-sidecar/Services/AlertHistorySummary.cs:157-184 | once every decided row is appended, with distinct row ids, the summary of what the store keeps names no open rule but those the engine has open and those a reload or restart dropped unresolved |
| Insight.AtMostOneInvestigation | src-sidecar/Services/ProactiveInsightService.cs:210-217 | in every interleaving the flag is up exactly while one flight is past it, and no two are |
| Insight.AnsweredOnceIff | src-sidecar/Services/ProactiveInsightService.cs:194-423 | a finished flight told exactly one of Skipped, Failed and Ready if and only if no subscriber to the insight threw; otherwise exactly two, Ready and Failed |
| Insight.OnePerEpisode | src-sidecar/Services/ProactiveInsightService.cs:260-271 | in every interleaving, when an investigation is about to be announced the rule has recovered or failed since its last announcement, provided no recovery falls between a claim and its announcement |
| Insight.StartsAgainIff | src-sidecar/Services/ProactiveInsightService.cs:157-161 | right after an announcement, a second one without recovery or failure is possible if and only if the episode marker is already gone |
| Insight.RecoveryDuringClaim | src-sidecar/Services/ProactiveInsightService.cs:260-271 | a run that gets there |
| Insight.RecoveryUnmarks | src-sidecar/Services/ProactiveInsightService.cs:157-161 | from any state, a clean evaluation unmarks its rule and leaves every other marker, the flag and the flights alone |
| Insight.RecoveredRuleStarts | src-sidecar/Services/ProactiveInsightService.cs:157-271 | after it, whatever the run before, the rule's next unsuppressed firing with the flag free and its gates good is announced |
| Insight.ProactiveInsightService.OnEvaluationCompleted | src-sidecar/Services/ProactiveInsightService.cs:157-161 | a clean evaluation takes exactly its rule's marker away; any other changes nothing |
| Insight.ProactiveInsightService.OnAlertFired | src-sidecar/Services/ProactiveInsightService.cs:163-175 | a firing becomes a flight with a fresh id |
| Insight.ProactiveInsightService.TakeFlag | src-sidecar/Services/ProactiveInsightService.cs:194-217 | suppressed firings never compete for the flag; only one of the others gets it |
| Insight.ProactiveInsightService.Fail | src-sidecar/Services/ProactiveInsightService.cs:413-418 | the episode is given back before the failure is told |
| Insight.ProactiveInsightService.HandleAlertFired | src-sidecar/Services/ProactiveInsightService.cs:194-423 | handled alone, a firing always finishes, leaves the flag as it found it and tells exactly one story: only Skipped if and only if it is suppressed, the flag is up, a gate refuses or the episode is marked; Started if and only if none of these and no gate throws; the episode stays marked only after a finished insight |
| JsonScanner.ExtractFirstJsonObject | src-sidecar/Services/ProactiveInvestigationRunner.cs:481-512 | from the first brace, the shortest piece whose string-aware depth returns to zero; nothing exactly when there is none |
| JsonScanner.SpanUnique | src-sidecar/Services/ProactiveInvestigationRunner.cs:481-512 | there is at most one such piece |
| JsonScanner.RoundTrip | src-sidecar/Services/ProactiveInvestigationRunner.cs:478-480 | every object written in JSON (sections 2 to 7 of RFC 8259: any whitespace, escapes, nesting), after prose without a brace and before any text, is extracted unchanged |
| JsonScanner.ObjectFoundIff | src-sidecar/Services/ProactiveInvestigationRunner.cs:483-485 | the object is found at its own place if and only if no brace precedes it |
| JsonScanner.ValueIsNeutral | src-sidecar/Services/ProactiveInvestigationRunner.cs:490-511 | every JSON value leaves the scanner where it was and never takes it below |
| ToolNames.Slug | src-sidecar/Services/ExternalMcpToolSource.cs:277-297 | the loop joins the lower-cased words with single underscores; "x" when there are none |
| ToolNames.SlugShape | src-sidecar/Services/ExternalMcpToolSource.cs:275-297 | never empty, no underscore at an end, no two in a row |
| ToolNames.SlugKeepsLetters | src-sidecar/Services/ExternalMcpToolSource.cs:277-297 | a slug has exactly the letters and digits of the lower-cased text, in order |
| ToolNames.SlugLegalIff | src-sidecar/Services/ExternalMcpToolSource.cs:275-276 | a slug keeps to the function-name characters if and only if every letter or digit of the lower-cased text does |
| ToolNames.SlugLeavesLegal | src-sidecar/Services/ExternalMcpToolSource.cs:275-276 | an accented letter is a slug outside those characters |
| ToolNames.CandidateIs | src-sidecar/Services/ExternalMcpToolSource.cs:257-263 | the first name tried is "mcp", the server's slug and the tool's slug in this order; past 64 characters its first 64 without the underscores they end in |
| ToolNames.FirstNames | src-sidecar/Services/ExternalMcpToolSource.cs:264-297 | on an example: words parted by one underscore, and "_2" behind the second name tried |
| ToolNames.ExposedName | src-sidecar/Services/ExternalMcpToolSource.cs:257-273 | the first name tried that is not in use, within (names in use) + 1 suffixes; exactly that name is added |
| ToolNames.ExposedNameShape | src-sidecar/Services/ExternalMcpToolSource.cs:255-273 | at most 64 characters; for ASCII names only lower-case letters, digits and underscores |
| ToolNames.SuffixedNamesDiffer | src-sidecar/Services/ExternalMcpToolSource.cs:264-270 | names with different suffixes differ, even cut to fit |
| ToolNames.TriesBounded | src-sidecar/Services/ExternalMcpToolSource.cs:264 | so not all of n suffixed names can be among fewer than n used ones |
| ToolNames.GetTools | src-sidecar/Services/ExternalMcpToolSource.cs:70-100 | one binding per tool of the reachable servers, in order, each under the first free name given those before it |
| ToolNames.ReachableAt | src-sidecar/Services/ExternalMcpToolSource.cs:70-100 | the list goes server by server, through each reachable server's tools in their order |
| ToolNames.BindingsDistinct | src-sidecar/Services/ExternalMcpToolSource.cs:78-100 | all names of one tool list are pairwise different |
| ExchangeBuffer.AgentExchangeBuffer.Record | src-sidecar/Services/AgentExchangeBuffer.cs:60-74 | list and index keep holding the same exchanges: the recent ones of the whole log |
| ExchangeBuffer.AgentExchangeBuffer.TryGet | src-sidecar/Services/AgentExchangeBuffer.cs:76-90 | finds the latest record of an id if and only if fewer than fifty different ids were recorded after it |
| ExchangeBuffer.KeptIff | src-sidecar/Services/AgentExchangeBuffer.cs:62-74 | the list holds exactly those records |
| ExchangeBuffer.KeptShape | src-sidecar/Services/AgentExchangeBuffer.cs:62-74 | no id twice, at most fifty |
| ExchangeBuffer.KeptGrows | src-sidecar/Services/AgentExchangeBuffer.cs:62-74 | evicting early changes nothing about what is kept later |
| SessionHistory.HistoryShaped | src-sidecar/Services/AgentSessionStore.cs:68-85 | in every interleaving: at most one summary, at the head, and never more than twenty entries |
| SessionHistory.SummaryContinuousIff | src-sidecar/Services/AgentContextBudgetPlanner.cs:146-187 | a finished summary leaves a gapless run of the latest messages since the last clear if and only if nothing was appended or cleared while it was written |
| SessionHistory.HistoryContinuous | src-sidecar/Services/AgentContextBudgetPlanner.cs:146-187 | in every run whose summaries land undisturbed the history is always gapless |
| SessionHistory.AppendedMessageVanishes | src-sidecar/Services/AgentContextBudgetPlanner.cs:178-184 | a run that loses a message |
| SessionHistory.SentIsHistoryIff | src-sidecar/Services/AgentContextBudgetPlanner.cs:70-82 | in every interleaving of turns, when the completion of one is back, what it sends plus its user message is exactly the history if and only if the completion gave a summary or nothing was appended, cleared or summarized while it ran |
| SessionHistory.ContextWindowIs | src-sidecar/Services/AgentContextBudgetPlanner.cs:93-101 | a missing or non-positive window is 4096 |
| SessionHistory.ThresholdIs | src-sidecar/Services/AgentContextBudgetPlanner.cs:103-113 | a half up to a window of 4096, three quarters from 131072 on, a straight line between |
| SessionHistory.TokensAre | src-sidecar/Services/AgentContextBudgetPlanner.cs:115-144 | the least number of tokens with room for all characters at four to a token |
| SessionHistory.AppendKeepsTwenty | src-sidecar/Services/AgentSessionStore.cs:76-85 | an append keeps the newest twenty entries, the new one last |
| SessionHistory.ThresholdScales | src-sidecar/Services/AgentContextBudgetPlanner.cs:103-113 | between a half and three quarters, never falling as the window grows |
| SessionHistory.AgentConversationSession.Append | src-sidecar/Services/AgentSessionStore.cs:76-85 | enqueues and keeps the last twenty |
| SessionHistory.AgentConversationSession.ClearHistory | src-sidecar/Services/AgentSessionStore.cs:68-72 | leaves nothing |
| SessionHistory.AgentConversationSession.TrySummarizeOlderHistory | src-sidecar/Services/AgentContextBudgetPlanner.cs:146-187 | summarizes exactly when there is more than six and the completion succeeded; keeps the last six verbatim |
| SessionHistory.AgentConversationSession.PrepareHistoryForModel | src-sidecar/Services/AgentContextBudgetPlanner.cs:58-91 | with nothing interleaved: what goes to the model plus the pending message is exactly the history; condensed exactly over the threshold; the recorded estimate is that of the request as sent |
| LinkedTree.FindNodeIsFirst | src-sidecar/Endpoints/LinkedRootsEndpoints.cs:900-943 | the search returns the first match of the enumeration, and nothing exactly when there is none |
| LinkedTree.AddLastEnumerates | src-sidecar/Endpoints/LinkedRootsEndpoints.cs:934-943 | a node put last in a list is enumerated last, its subtree right behind it, which fixes the enumeration of every collection |
| LinkedTree.FindFolderNode | src-sidecar/Endpoints/LinkedRootsEndpoints.cs:913-921 | the first folder of the enumeration with the id |
| LinkedTree.FoundIsSubtree | src-sidecar/Endpoints/LinkedRootsEndpoints.cs:900-911 | what is found is that object's subtree |
| LinkedTree.EnumeratedIsInside | src-sidecar/Endpoints/LinkedRootsEndpoints.cs:934-943 | everything enumerated belongs to the collection, so a destination folder that is found does |
| LinkedTree.NodesAreEnumerated | src-sidecar/Endpoints/LinkedRootsEndpoints.cs:934-943 | the bag of nodes is that of the enumeration |
| LinkedTree.MoveConservesIff | src-sidecar/Endpoints/LinkedRootsEndpoints.cs:583-586 | a move keeps the bag of nodes if and only if the destination is not in the moved subtree; otherwise exactly that subtree is lost |
| LinkedTree.MoveByIdConservesIff | src-sidecar/Endpoints/LinkedRootsEndpoints.cs:571-586 | end to end: the node moved is the first enumerated with its id, the destination the first enumerated folder with the other, and the bag of nodes is kept if and only if that folder is not inside that node |
| LinkedTree.MoveIntoItselfLoses | src-sidecar/Endpoints/LinkedRootsEndpoints.cs:583-586 | moving a folder into the folder inside it empties a two-level collection |
| LinkedTree.MoveKeepsOrder | src-sidecar/Endpoints/LinkedRootsEndpoints.cs:583-586 | a legal move keeps the subtree whole, takes the node out of its list, puts it last in the destination's, and leaves every other list and all orders alone |
| LinkedTree.DetachTakes | src-sidecar/Endpoints/LinkedRootsEndpoints.cs:945-958 | the level-by-level search for the parent list takes out exactly the subtree |
| LinkedTree.LinkedCollection.MoveNode | src-sidecar/Endpoints/LinkedRootsEndpoints.cs:571-586 | moves exactly when node and folder are found, the first of each in the enumeration, and keeps the bag of nodes if and only if the folder is not inside the node; else nothing changes |

## Left out

- The broker itself: peek-lock delivery is what the events allow. Time to live and the redelivery that ends a
  restore's receive loop are not part of this model. A lock has no owner here, and a lock expiring or a message being
  abandoned is one explicit event; this allows more runs.
- Receivers of an entity's dead-letter queue other than the operations: the interactive commands that purge, delete or
  resubmit dead letters, and consumers outside the process.
- Which dead-letter sequence number a stamped message has: a replay that is settling a message may remove any one held.
- ParkLoop.ParkForReach: a broker fault or cancel inside the loop ends it by exception; that is a step of `Operations`,
  not of the loop.
- OperationService.SbOperationService.RunReplay: the pass runs with nothing else at work, so whether a cancel was
  requested is fixed when it starts, and the script says where it is observed; passes that overlap cancels, journal
  writes and other operations are the runs of `Operations`, and so is what a pass over a dead-letter queue does to
  messages that other operations stamped.
- JsonScanner.RoundTrip: a number is any text of number characters, which includes every number of section 6.
- A journal file that cannot be read loads as empty and is not part of this model; a row is its status and skip-set.
- `ParkedCount`, the other counters of a status and its timestamps: late progress callbacks make them display values.
- The entity key is one number; the namespace and the case-insensitive path comparison are inside it.
- The persist a runner awaits between parking and restoring may land at any later point here, which allows more runs.
- A caller waiting for a gate is an event that is not yet enabled.
- The operation records are values in a table that the methods replace; that two tasks hold the same record is
  expressed by both changing the same table entry, not by aliasing.
- Evaluation passes of the engine do not overlap here, and cancellation of a pass is absent; the await between
  claiming a cooldown and recording the firing is one step, so a reload inside it is not modelled.
- Appends to the alert history that fail while the process lives, and a history larger than memory.
- Alert rule names, messages and the per-rule interval shown beside an open incident.
- The window of the summary is any number of hours from one up; the endpoint's upper clamp at 168 is not needed.
- Times between passes strictly increase; two passes at the same tick are not modelled.
- The content of investigations and reports; an investigation is a step with three outcomes.
- Drain and shutdown bookkeeping of flights.
- Characters are Unicode scalars, not UTF-16 code units; the scanner treats surrogates like any other character.
- The runtime's lower-casing and letter-or-digit tables are parameters; that the underscore is neither letter nor
  digit, and their ASCII part where it is used, are stated.
- ToolNames.ExposedName: asks for no more names in use than a hash set can hold (2,147,483,587), which is what keeps
  the counter and the cut in range.
- The screen-state digest and timestamp of an exchange are part of its body.
- Idle-session eviction and token counts of tool calls in the history.
- A summary's snapshot and the append of the pending message are one step.
- Child lists and the linked list of exchanges are sequences; a node moved below itself shows as lost from the
  collection, not as the cycle of objects it becomes.
- Demo mode, persistence and HTTP results of a move; the on-disk half of the move.
- Request-run planning, connection caches, config diffs, credentials and every remote client.
