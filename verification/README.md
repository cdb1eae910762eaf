# Verified model of teploy-dash's stateful cores

Dash keeps five promises that rest on several functions and on state that outlives a process: it never
deletes a storage key a server still uses, never runs an operation twice, never shows a receiver an
incident's opening after its recovery, never loses operation history without saying so, and never lets a
late check speak for a monitor that has changed. This project models the code behind them and proves the
promises over every run. Two smaller algorithms, the line reassembler and the lifecycle rule merge, are
modelled whole. `dafny verify dfyconfig.toml` checks everything.

Where the code changes state in place there is a class with the same fields, and each method's contract
equates the object's view after the call with a function of its view before. The functions form a
transition system, one step for each critical section, external call or save; the promises are lemmas
about all its runs, and the `Effects` modules say of each step, value by value, when it does what. An
outcome the code cannot choose (a provider's answer, a failed save, a crash, a hold, a clock reading) is
an argument of the step.

## What each part says

**Server-key rotation** (`KeyRotation`, `KeySafety`, `KeyConservation`, `KeyTruth`, `StoragePlan`,
`StorageApply`). Dash's record in memory, the record as saved, the provider's keys and the target each
server holds are separate; servers interleave, any save may be lost and a crash falls anywhere. A key is
deleted only if it never landed, a person pointed the server elsewhere, or this operation pushed and
verified its successor. Held keys survive every run in which a landing push was preceded by a save that
did not still call the key minted. The code does not check that save (backupsetup.go:1216-1217):
`PushSafeExactlyWhenSaved` shows the condition is exact, `LostSaveCutsOff` is the restart that deletes the
held key, and `UnsavedPushIsReached` a first run that gets there. In a crash-free run a key it makes that
still exists is on record or listed exactly when the provider's answer to its creation reached Dash
(`RememberedExactlyWhenHeard`); creating a key can succeed while the answer is lost
(backupsetup.go:811-822, 1149-1157), and `UnheardKeyIsForgotten` is such a run. A record that says
verified is what later runs skip a server for; `VerifiedIsTrue` says when it holds,
`TruthSurvivesRestartExactlyWhen` that the condition is exact, `LostSavesMislead` is a run without it.
`StoragePlan` tells a whole run's results and targets from its plan alone, and `Apply` is proved to reach
them.

**Incidents** (`IncidentBook`, `IncidentEffects`, `IncidentPasses`, `IncidentTracker`, `AlertGrammar`,
`Hysteresis`, `HysteresisRestart`). The tracker's operations in any order produce, for each incident,
nothing, or one opening, reminders, and at most one recovery. An incident is open exactly when a long
enough failing streak ended while not held and no long enough passing streak has ended since. A restart
through `Seed` decides as if it had not happened exactly when the history read is at least as long as each
threshold less one. For the monitors' cap of 50 samples that means thresholds up to 51, and the interface
accepts none above 20 (internal/server/server.go:3741-3752), so every monitor restarts without a changed
decision (`AcceptedMonitorsRestartExactly`).

**Alert delivery** (`OutboxBox`, `OutboxJournal`, `OutboxEffects`, `OutboxRuns`, `OutboxExactness`,
`OutboxQueue`, `Jsonl`). Records, per-channel legs, backoff, compaction, and the journal that loads as the
memory. `Send` writes superseded records one at a time and the first write may compact (outbox.go:339-345,
669), so a superseded record already dropped can be written again: `SendExactIff` gives the exact
condition for the journal to load as the memory, `StaleLineLeft` a case where it does not. In every run,
restarts included, the pending records loaded are exactly those in memory. A file cut at any byte is
repaired to its longest prefix of whole frames.

**End to end** (`AlertPipeline`, `AlertOrder`, `AlertAcks`, `AlertEffects`, `AlertDelivery`). Tracker, hand-over under the
lock, other senders, compactions and the single delivery worker, interleaved in any way: no send of an
opening or a reminder starts after a send of its incident's recovery has started, and no leg is
acknowledged twice in one process.

**Operations** (`OperationQueue`, `OperationSafety`, `OperationStarts`, `OperationCancel`,
`OperationOrder`, `OperationOutcomes`, `OperationEffects`, `OperationAdmission`, `OperationRetention`,
`OperationManager`). Memory and disk are separate, a refused save may show on disk, and a crash falls
between any two critical sections. Proved: at most one execution per id over any number of crashes;
ownership, FIFO and draining; statuses that only advance; cancellations acknowledged while queued that are
final; honest retries; budgets; and one operation per idempotency key and window. Retention deletes a
key's entry without looking at which operation it names (manager.go:1605-1607):
`RetentionLosesNewerExactlyWhen` says exactly when, in any reachable state, the next enqueue then becomes
a second operation within a newer one's window, and `TwiceInOneWindow` is a run from an empty disk that
ends so.

**Operation history** (`EventLog`, `EventReplay`, `EventServing`, `EventLosses`, `EventMarkers`,
`EventJournal`). What a client is sent skips nothing without a marker, through failed appends,
compactions, torn tails and reloads. A torn tail's marker is not in the file: the next load finds it again
exactly when something was appended to a file that was not empty (`MarkersStayExactlyWhen`), and over any
run what the process knows from the file's first event on is what the next load finds, but for such a
marker standing last (`MarkersStayEver`). Retention keeps the longest suffix within both bounds, which
bounds the file.

**Monitors** (`MonitorGenerations`, `MonitorSafety`, `MonitorEffects`, `MonitorRunner`), **line
reassembly** (`LineReader`), **lifecycle rules** (`LifecycleRules`, `LifecycleMerge`,
`LifecycleIdempotence`, `LifecycleEffects`). Late results never land under a newer generation; chunk
boundaries never matter; merging is order-independent, idempotent under an exact condition on base,
servers and window, undone by removal, and adds no refusal or warning.

Assumptions, stated where they are used: identifiers are fresh, clocks do not go back, an encoded record
is one line of JSON no strict prefix of which is JSON, an event append happens whole or not at all except
in a crash, and when a push call returns the key has landed or it has not, whatever the call said.

## Model

| member | source | states |
|---|---|---|
| `KeySafety.DeletionsJustified` | internal/server/backupsetup.go:1096-1308 | a key deleted at any step is held by no server, and never landed, or was replaced by hand, or by a push this operation saw verify |
| `KeySafety.HeldKeysSurvive` | internal/server/backupsetup.go:1113-1308 | over every run with crashes, no server's live key is deleted, provided each landing push follows a save no longer calling the key minted |
| `KeySafety.SafeFromTheStart` | internal/server/backupsetup.go:1113-1308 | the same from a Dash that has made no key |
| `KeyRotation.InvKept` | internal/server/backupsetup.go:1145-1177 | every step but a landing push over a record still saved as minted keeps records, jobs and targets consistent: a record at minted names a key that never landed |
| `KeyRotation.CrashKept` | internal/server/backupsetup.go:1143-1148 | restarting from whatever was last saved keeps that consistency |
| `KeySafety.PushSafeExactlyWhenSaved` | internal/server/backupsetup.go:1210-1219 | a landing push is safe whatever follows if and only if the saved record no longer calls the key minted |
| `KeySafety.LostSaveCutsOff` | internal/server/backupsetup.go:1145-1148 | otherwise a restart and the next run delete the key the server holds |
| `KeySafety.UnsavedPushIsReached` | internal/server/backupsetup.go:1210-1219 | such a push is reached by a first run that loses one save |
| `KeyConservation.ConservedKept` | internal/server/backupsetup.go:1096-1111 | each handler step keeps every known key named, listed, in hand or gone |
| `KeyConservation.NoKeyForgotten` | internal/server/backupsetup.go:1096-1308 | when a handler finishes, every key it was told it made or that was already named, if it still exists, is on its server's record or in the leftovers |
| `KeyConservation.RememberedExactlyWhenHeard` | internal/server/backupsetup.go:1149-1157 | a key made in the run that still exists is named or listed if and only if the answer to its creation reached Dash |
| `KeyConservation.UnheardKeyIsForgotten` | internal/server/backupsetup.go:811-822 | a first run after which a key exists and nothing names it |
| `KeyConservation.FormListsOnlyTheNewestKey` | internal/server/backupstorage.go:331-339 | the manual form lists the record's key, and exactly the older keys it named are named no more |
| `KeyTruth.TruthKept` | internal/server/backupsetup.go:1145-1148 | every step but a push that lands over a saved record verified of another key keeps what verified records say true, crashes included |
| `KeyTruth.VerifiedIsTrue` | internal/server/backupsetup.go:1145-1148 | over every run with such saves: a verified record names the key and place its server holds, unless a person set its target since |
| `KeyTruth.TruthSurvivesRestartExactlyWhen` | internal/server/backupsetup.go:1210-1219 | a landed push followed by a restart leaves the record true if and only if the saved one did not say verified of another key or place |
| `KeyTruth.LostSavesMislead` | internal/server/backupsetup.go:1145-1219 | a run whose second rotation loses its saves: the record says verified of the first key, the server holds the second |
| `StorageApply.Handler.DropKey` | internal/server/backupsetup.go:1096-1111 | an unconfirmed delete lists the key, and its effect is whatever the provider did |
| `StorageApply.Handler.MintKey` | internal/server/backupsetup.go:1149-1157 | a mint makes a key whether or not the answer arrives |
| `StorageApply.Handler.Prove` | internal/server/backupsetup.go:1137-1192 | phase one for one server moves nothing on any server; it is skipped, stops the run or ends proven exactly as record, mint and probe say |
| `StorageApply.Handler.PushOne` | internal/server/backupsetup.go:1210-1264 | marks, pushes and settles one server by the four outcomes; verified, each older key is gone or listed; kept, no key has gone |
| `StorageApply.Handler.Unverified` | internal/server/backupsetup.go:1245-1263 | keeps every key and records why, unless the server provably holds another target: then only the new key goes, or is listed, and the record is put back |
| `StorageApply.Handler.RetireOld` | internal/server/backupsetup.go:1227-1243 | each key the push replaced ends gone or listed, and no other key goes |
| `StorageApply.Handler.PushAll` | internal/server/backupsetup.go:1279-1308 | stops exactly when a server that goes first is refused its key and others wait; every result is what its push came to or skipped, every target ends where its push left it |
| `StorageApply.Handler.Apply` | internal/server/backupsetup.go:1113-1308 | a whole run: keys conserved, held keys alive if the marks before pushes are saved; whether it stopped and why, each server's result and each target, as the plan tells |
| `StoragePlan.RefusalSparesTheRest` | internal/server/backupsetup.go:1287-1304 | when a server that goes first is refused its key, at most one configured server is pushed to |
| `StoragePlan.OtherwiseAllAreServed` | internal/server/backupsetup.go:1304-1306 | when none is, every server whose key passed is pushed to |
| `IncidentTracker.Tracker.Observe` | internal/incident/incident.go:481-573 | the update in place is the observation whose effects the next rows give |
| `IncidentEffects.ObserveSays` | internal/incident/incident.go:481-573 | an observation says exactly one opening, reminder, recovery or hold, or nothing, and when |
| `IncidentEffects.RemindsExactlyWhenDue` | internal/incident/incident.go:508-521 | one reminder, exactly when it fails announced, unheld and heard, and has got worse or its interval has passed |
| `IncidentEffects.QuietWhileHeldOrUnheard` | internal/incident/incident.go:508-551 | held or without a channel, no opening and no reminder |
| `IncidentEffects.ObserveKeepsIncident` | internal/incident/incident.go:499-525 | an open incident keeps its identity and times; what is updated, and when it closes |
| `IncidentEffects.ObserveOpens` | internal/incident/incident.go:526-556 | an incident opens exactly when the streak is reached unheld, and as what |
| `IncidentEffects.ObserveCounts` | internal/incident/incident.go:489-498 | streaks, first failure and hold after an observation |
| `IncidentEffects.ObserveLeavesOthers` | internal/incident/incident.go:481-573 | no other rule or incident is touched |
| `IncidentTracker.Tracker.ReleaseHolds` | internal/incident/incident.go:413-450 | exactly the rules held back, still failing and no longer held open, once each, with their hold cleared; announced unless adopting or no channel |
| `IncidentTracker.Tracker.CloseMatching` | internal/incident/incident.go:597-623 | exactly the selected incidents close, one recovery for each announced one, streaks kept |
| `IncidentTracker.Tracker.Sweep` | internal/incident/incident.go:624-650 | exactly the incidents past their time close and their rules are forgotten, one recovery for each announced one |
| `IncidentTracker.Tracker.Retire` | internal/incident/incident.go:575-595 | the rule is forgotten and an announced incident recovers |
| `IncidentEffects.RetireForgets` | internal/incident/incident.go:575-595 | rule and incident gone, one recovery if it was announced |
| `IncidentTracker.Tracker.AdoptOpen` | internal/incident/incident.go:358-377 | an outage visible at the upgrade opens unannounced |
| `IncidentEffects.AdoptOpenOpens` | internal/incident/incident.go:358-377 | exactly when it opens, and as what |
| `IncidentTracker.Tracker.AdoptFailing` | internal/incident/incident.go:379-402 | a failing rule not held opens unannounced with its streak |
| `IncidentEffects.AdoptFailingOpens` | internal/incident/incident.go:379-402 | exactly when it opens, and with which streak |
| `IncidentTracker.Tracker.Announce` | internal/incident/incident.go:669-723 | every unannounced incident is announced, several with one summary for people |
| `IncidentEffects.AnnounceTells` | internal/incident/incident.go:669-723 | each unannounced incident is announced once, alone to all, or to machines beside one summary |
| `IncidentTracker.Tracker.Seed` | internal/incident/incident.go:452-478 | the streak restored is the newest run of equal samples |
| `IncidentEffects.SeedRemembers` | internal/incident/incident.go:452-478 | the streak's length, kind and start after a seed |
| `AlertGrammar.InvKept` | internal/incident/incident.go:413-723 | every operation keeps open incidents' ids apart and what was said in step with what is marked announced |
| `AlertGrammar.AlertsAreLawful` | internal/incident/incident.go:413-723 | per incident: nothing, or opened, repeats, at most one recovered; a recovery only of what was announced |
| `AlertGrammar.LawfulWhenInOrder` | internal/incident/incident.go:257-275 | hearing alerts one by one goes out of order exactly when the sequence is unlawful |
| `Hysteresis.IncidentIsReading` | internal/incident/incident.go:481-573 | an incident is open exactly when a failing streak of the threshold ended unheld with no recovery streak since |
| `HysteresisRestart.SeedRestores` | internal/incident/incident.go:452-478 | seeding from the newest samples gives the streak of the history, cut to the window |
| `HysteresisRestart.RestartExact` | internal/incident/incident.go:452-478 | restarts decide like no restart if and only if the window reaches each threshold less one |
| `HysteresisRestart.MonitorRestartExact` | internal/monitor/monitor.go:275-294 | for the window the runner reads: exactly when both thresholds are at most 51 |
| `HysteresisRestart.AcceptedMonitorsRestartExactly` | internal/server/server.go:3748-3752 | so every monitor the interface accepts restarts without a changed decision |
| `OutboxBox.OldestTerminalFirst` | internal/outbox/outbox.go:675-691 | compaction drops no pending record, and a terminal one only after every older terminal one |
| `OutboxBox.DropsAsManyAsItMust` | internal/outbox/outbox.go:679-690 | exactly the excess goes, or every terminal record if there are fewer |
| `OutboxBox.CompactKeeps` | internal/outbox/outbox.go:675-707 | what stays is unchanged, and the box is within bound or all pending |
| `OutboxBox.LegsFollowAnswers` | internal/outbox/outbox.go:494-513 | a leg is acknowledged exactly if it was or some answer acknowledged it |
| `OutboxBox.AnswersAreEntered` | internal/outbox/outbox.go:494-513 | each answer counts on its own leg and leaves it delivered or pending; other legs are as they were |
| `OutboxBox.AttemptAccounts` | internal/outbox/outbox.go:487-578 | an attempt counts, delivers only with no configured leg left, ends exactly the pending legs at the limit, and otherwise waits for the capped doubled interval or the request, whichever is longer |
| `OutboxBox.DeliversExactlyWhen` | internal/outbox/outbox.go:487-555 | an attempt delivers exactly when the configuration is readable and each of its channels had acknowledged or does now |
| `OutboxRuns.RestartResumesExactlyThePending` | internal/outbox/outbox.go:234-265 | through any run, loading the journal gives every record in memory, and exactly the pending ones pending |
| `OutboxExactness.SendExactIff` | internal/outbox/outbox.go:306-348 | a send leaves the journal loading exactly as the memory if and only if no later superseded record is dropped by the first write's compaction and left |
| `OutboxExactness.ExactUnlessDisturbed` | internal/outbox/outbox.go:639-707 | every other step keeps the journal exact |
| `OutboxExactness.UndisturbedRunsStayExact` | internal/outbox/outbox.go:647-707 | so do whole runs without such a send, compactions included |
| `OutboxExactness.OldestWrittenLateIsLeft` | internal/outbox/outbox.go:339-345 | a full box whose oldest record is superseded but written later keeps a stale line |
| `OutboxExactness.StaleLineLeft` | internal/outbox/outbox.go:339-345 | such a state |
| `OutboxJournal.RewriteIsExact` | internal/outbox/outbox.go:693-705 | a rewritten journal loads as the box |
| `OutboxRuns.BoundedKept` | internal/outbox/outbox.go:556-577 | every step keeps attempts left for each pending record, in memory and journal |
| `OutboxRuns.AttemptsStayBounded` | internal/outbox/outbox.go:556-577 | so through any run, restarts included |
| `OutboxQueue.Outbox.constructor` | internal/outbox/outbox.go:234-265 | loading folds the lines, last one per id |
| `OutboxQueue.Outbox.Send` | internal/outbox/outbox.go:306-348 | dedupes, supersedes in whatever order records are visited, writes each line; what is accepted, superseded and kept, field by field |
| `OutboxEffects.SendAccepts` | internal/outbox/outbox.go:315-345 | a new alert is pending and due from now on; exactly the recovered incident's own pending openings and reminders are superseded; every other pending record stands |
| `OutboxQueue.Outbox.RecordSuppressed` | internal/outbox/outbox.go:350-366 | journals a held alert as terminal, never due; nothing else changes |
| `OutboxEffects.SuppressHolds` | internal/outbox/outbox.go:350-366 | the same of the transition |
| `OutboxQueue.Outbox.DueRecords` | internal/outbox/outbox.go:416-428 | exactly the due pending records, once each, oldest first |
| `OutboxQueue.Outbox.Attempt` | internal/outbox/outbox.go:444-585 | sends to the legs not yet acknowledged and settles the record unless it became terminal meanwhile |
| `OutboxEffects.AttemptLeavesOthers` | internal/outbox/outbox.go:480-585 | an attempt touches its own record alone, and not what that says; a terminal one not at all |
| `OutboxQueue.Outbox.FoldOutcomes` | internal/outbox/outbox.go:487-577 | counts legs left, delivers, dead-letters or schedules |
| `OutboxQueue.Outbox.Wait` | internal/outbox/outbox.go:619-630 | the doubling loop gives min(base * 2^(n-1), max), and no value on the way reaches twice the maximum |
| `OutboxQueue.Outbox.Compact` | internal/outbox/outbox.go:679-707 | the loop keeps what compaction should and rewrites the journal from it |
| `Jsonl.File.ReadJsonl` | internal/durable/jsonl.go:12-45 | the loop repairs, refuses or returns the file as specified |
| `Jsonl.CutAnywhere` | internal/durable/jsonl.go:12-45 | a journal cut at any byte is repaired to its longest prefix of whole frames |
| `Jsonl.WholeWithinIsLongest` | internal/durable/jsonl.go:35-41 | that prefix is the longest |
| `Jsonl.RepairedStaysRepaired` | internal/durable/jsonl.go:12-45 | reading a repaired file again changes nothing, whatever it held |
| `Jsonl.FailsExactlyOnInteriorCorruption` | internal/durable/jsonl.go:24-28 | reading fails exactly when a terminated frame is not JSON, naming the first |
| `Jsonl.LoadedAfterCut` | internal/outbox/outbox.go:234-265 | loading after a cut gives exactly the whole records |
| `Jsonl.UnaryIsSound` | internal/durable/jsonl.go:12-45 | a format as assumed of the records exists |
| `AlertOrder.OrderKept` | internal/outbox/outbox.go:306-348 | every step keeps recoveries ahead of what they outdate in box and worker |
| `AlertAcks.AckKept` | internal/outbox/outbox.go:444-514 | every step keeps each acknowledgement on record wherever the leg could be sent from again |
| `AlertOrder.SilentAfterRecovery` | internal/incident/incident.go:257-275 | after its recovery the tracker hands over nothing of an incident |
| `AlertDelivery.NoOpeningAfterRecovery` | internal/outbox/outbox.go:416-485 | no opening or reminder starts after the recovery's send has started, and no leg is acknowledged twice in a process |
| `AlertEffects.HandedOverAsSaid` | internal/incident/incident.go:257-275 | what the tracker says is in the outbox as the event it means, due, or held and never due |
| `AlertEffects.SendsWhatIsLeft` | internal/outbox/outbox.go:454-478 | each leg not yet acknowledged is sent its record's own event, and its answer kept |
| `AlertEffects.PendingStays` | internal/outbox/outbox.go:306-585 | a pending alert stays as it is until its own attempt is settled or its incident's recovery overtakes it |
| `OperationSafety.InvKept` | internal/operation/manager.go:506-762 | every step keeps ownership, queue order and ids consistent |
| `OperationOrder.AtMostOnce` | internal/operation/manager.go:656-762 | over any run with crashes: one execution per id, none of an operation canceled while queued, starts in admission order |
| `OperationOrder.OwnedUntilDone` | internal/operation/manager.go:656-687 | after any run an unfinished operation is in exactly one queue slot or with exactly one worker, of its own target; with no worker left every operation has ended |
| `OperationOrder.ClosedAdmitsNothing` | internal/operation/manager.go:1260-1269 | once closed, no operation and no worker appears |
| `OperationOrder.RecoveryRunsNothing` | internal/operation/manager.go:1418-1475 | after any run, recovery makes every record final, admits none, cancels what was canceled and interrupts the rest, in question if receipts can be read |
| `OperationCancel.CancelKept` | internal/operation/manager.go:1331-1370 | an operation canceled while queued has not run, is never about to, and reads so on disk |
| `OperationOrder.StatusesAdvance` | internal/operation/manager.go:858-1021 | no status goes back, a final one stays, and what may be retried stays so |
| `OperationOrder.RetriesAreHonest` | internal/operation/manager.go:1375-1402 | a retry has a new id, the same request and target and no key; what it repeats failed, was canceled, or was interrupted and is no longer in question |
| `OperationOutcomes.EndsAsExecuted` | internal/operation/manager.go:739-761 | left to itself an operation ends as its executor said |
| `OperationOutcomes.EndsAsReceiptSays` | internal/operation/manager.go:894-936 | canceled while it ran it ends committed, canceled, or canceled and unknown, as its receipt says |
| `OperationOutcomes.EndsCanceledInQueue` | internal/operation/manager.go:690-709 | signaled while waiting it ends canceled without having run |
| `OperationOutcomes.EndsFailedAtOtherTarget` | internal/operation/manager.go:716-725 | at another target it fails without having run |
| `OperationOutcomes.EndsUnstarted` | internal/operation/manager.go:943-966 | a cancellation written first ends it canceled, a refused save of its start failed |
| `OperationOutcomes.StartsOnceSaved` | internal/operation/manager.go:943-966 | otherwise it is saved as running and only then executed |
| `OperationOutcomes.CrashKeepsOnlyTheDisk` | internal/operation/manager.go:1418-1475 | nothing of a process outlives it but its records on disk |
| `OperationStarts.StartsKept` | internal/operation/manager.go:672-687 | whatever started of a target was admitted before all that has not |
| `OperationAdmission.WithinBudgetsAlways` | internal/operation/manager.go:506-548 | live counts stay within target, global and principal budgets |
| `OperationAdmission.OneOperationPerWindow` | internal/operation/manager.go:477-505 | until retention touches a key, its admissions are more than a window apart and the key answers with the first id or a conflict |
| `OperationAdmission.KeysAreSeparate` | internal/operation/manager.go:456-460 | an enqueue under one key changes the answer of no other |
| `OperationEffects.KeyAnswers` | internal/operation/manager.go:624-648 | what a key answers, in the values of its operation and window |
| `OperationEffects.AdmitsExactlyWhen` | internal/operation/manager.go:493-614 | an enqueue admits exactly when open, its key free, all bounds in reach and both writes landed; what it records and where it queues |
| `OperationRetention.RetentionLosesNewerExactlyWhen` | internal/operation/manager.go:1597-1607 | after any run: forgetting one operation lets the next enqueue under its key double a newer one within its window if and only if the key's entry names such a one |
| `OperationRetention.TwiceInOneWindow` | internal/operation/manager.go:1597-1607 | a run from an empty disk that admits two operations under one key within one window |
| `OperationManager.Coordinator.Enqueue` | internal/operation/manager.go:493-614 | the transaction publishes only after the record landed; which refusal or answer, and when |
| `OperationManager.Coordinator.LookupReplay` | internal/operation/manager.go:624-648 | the answer for a key, with stale and expired entries dropped |
| `OperationManager.Coordinator.CountLive` | internal/operation/manager.go:510-548 | the loop counts exactly the unfinished operations |
| `OperationManager.Coordinator.HasBudget` | internal/operation/manager.go:510-548 | whether all three budgets leave room |
| `OperationManager.Coordinator.TakeNext` | internal/operation/manager.go:672-687 | the oldest job is taken or the worker leaves |
| `OperationManager.Coordinator.SetRunning` | internal/operation/manager.go:943-966 | refuses to start what was canceled, and settles a refused save |
| `OperationManager.Coordinator.BeginStopping` | internal/operation/manager.go:862-885 | takes the resolution on, once |
| `OperationManager.Coordinator.FinishReconciled` | internal/operation/manager.go:976-1021 | the first final status stands whatever becomes of its save |
| `OperationManager.Coordinator.Cancel` | internal/operation/manager.go:1331-1370 | acknowledged exactly when the intent is on disk |
| `OperationEffects.CancelWrites` | internal/operation/manager.go:1331-1370 | a cancellation stands exactly when the operation was queued, running or already asked to stop, and the intent was saved |
| `OperationManager.Coordinator.MayRetry` | internal/operation/manager.go:1379-1399 | exactly the supported operations without secrets that failed, were canceled, or were interrupted and are not in question |
| `OperationManager.Coordinator.ReconcileOne` | internal/operation/manager.go:1497-1553 | applied only while still in question, and not if the save is refused |
| `OperationEffects.ReconcileWrites` | internal/operation/manager.go:1497-1553 | what an interrupted operation becomes for each receipt, once saved |
| `OperationManager.Coordinator.Recover` | internal/operation/manager.go:1418-1475 | the loop over records: it succeeds exactly when every record it changes is saved, and leaves the disk part reconciled when one is refused |
| `OperationManager.Coordinator.Retire` | internal/operation/manager.go:1596-1616 | forgets finished operations swept from disk and prunes keys |
| `OperationEffects.RetentionForgets` | internal/operation/manager.go:1596-1616 | exactly which operations and entries a retention pass forgets |
| `EventLog.InvKept` | internal/operation/store.go:154-181 | every append, failure, compaction, crash and restart keeps window, file and numbering consistent |
| `EventReplay.NoSilentLoss` | internal/operation/manager.go:1145-1168 | whatever is asked, numbers increase, skips are marked where they start, and every known event is sent or stood for |
| `EventReplay.NoSilentLossEver` | internal/operation/manager.go:1042-1087 | the same after any run |
| `EventServing.ReplayServes` | internal/operation/manager.go:1145-1168 | the window's events if it reaches back, else all of the file's with markers of its own holes only and truncation marked exactly if it begins later, else the window behind a marker |
| `EventServing.ReplayServesEver` | internal/operation/manager.go:1042-1168 | the same after any run |
| `EventLosses.LossIsOwnedUpTo` | internal/operation/manager.go:1042-1057 | after a failed append, over any further appends, the next thing recorded is a marker |
| `EventLosses.AppendRecords` | internal/operation/manager.go:1042-1087 | what an append records, and how much is owed after it |
| `EventLosses.FileGrows` | internal/operation/store.go:154-181 | a landed event comes last in the file, and a failed one leaves it, or its end if compacting |
| `EventReplay.EmptyIsSound` | internal/operation/store.go:154-181 | an empty journal of a process not yet started satisfies what the runs assume |
| `EventMarkers.MarkersStayExactlyWhen` | internal/operation/store.go:396-475 | another load finds every marker in place if and only if nothing was torn, or something was appended to a file that was not empty |
| `EventMarkers.MarkersStayEver` | internal/operation/store.go:154-181 | after any run of appends, failures, compactions, torn tails and reloads: what the process knows from the file's first event on is what the next load finds, but for a torn tail's marker that nothing has followed |
| `EventMarkers.CompactionKeepsMarkers` | internal/operation/store.go:257-278 | the compacted file is marked as that part of the whole one |
| `EventLog.RetainedIsLongest` | internal/operation/store.go:291-318 | the longest suffix within both bounds, or the newest event alone |
| `EventLog.ByteBound` | internal/operation/store.go:154-181 | after an append the file is within the cap or is the newest event and the line; after a fitting compaction within three quarters |
| `EventLog.FittingLeavesFile` | internal/operation/store.go:154-181 | a line that fits drops nothing |
| `EventLog.NoMoreThanItMust` | internal/operation/store.go:257-318 | one event more than is kept would pass the count or three quarters of the bound |
| `EventJournal.Journal.RetainedSuffix` | internal/operation/store.go:291-318 | the two loops give that suffix from sizes computed once |
| `EventJournal.Journal.AppendOne` | internal/operation/store.go:154-181 | one append, with its compaction and failures, and the tracked size equal to the file's |
| `EventJournal.Journal.AppendEvent` | internal/operation/manager.go:1042-1057 | lost events are owned up to before the next |
| `EventJournal.Journal.Scan` | internal/operation/store.go:396-475 | any file is cut at its first bad line and every hole marked |
| `EventJournal.ReadableIsAsFarAsItGoes` | internal/operation/store.go:396-475 | what is read are lines that parse and go on; the next does not |
| `EventJournal.Journal.LoadEvents` | internal/operation/store.go:362-376 | events and markers merged by number |
| `EventJournal.Journal.ReplayLocked` | internal/operation/manager.go:1145-1168 | the answer from window or file, as the next rows say |
| `MonitorGenerations.InvKept` | internal/monitor/monitor.go:417-428 | every step keeps one entry per current generation and nothing held of removed monitors |
| `MonitorSafety.CommitsAreCurrent` | internal/monitor/monitor.go:525-543 | what is written is the registered monitor's under its current generation |
| `MonitorSafety.GenerationsMoveUp` | internal/monitor/monitor.go:417-418 | every start, stop, disabling and removal begins a generation never used |
| `MonitorSafety.RemovedStaysGone` | internal/monitor/monitor.go:451-459 | after a removal nothing of the monitor returns until it is started again |
| `MonitorSafety.NoStaleObservation` | internal/monitor/monitor.go:466-543 | observations come generation by generation, each under one configuration |
| `MonitorEffects.CommitPublishes` | internal/monitor/monitor.go:525-543 | a current result becomes status and last result and is observed, and nothing else; a stale one changes nothing |
| `MonitorEffects.LastResultStands` | internal/monitor/monitor.go:525-543 | and stands over any run until the monitor is checked, started or removed again |
| `MonitorEffects.StartRegisters` | internal/monitor/monitor.go:297-359 | a start begins the next generation, registers the monitor and takes its token |
| `MonitorEffects.StartKeepsNewest` | internal/monitor/monitor.go:297-359 | of a known result and the one read, the newer is kept |
| `MonitorEffects.StartSetsDeadline` | internal/monitor/monitor.go:297-359 | a push monitor's deadline never moves back, and counts from the newest passing check, ping or now |
| `MonitorEffects.TeardownTakesItsOwn` | internal/monitor/monitor.go:417-459 | a stop, disabling or removal takes the monitor's own tokens and registration, and exactly what each forgets |
| `MonitorEffects.StampMovesDeadline` | internal/monitor/monitor.go:817-823 | a ping moves its monitor's deadline alone, if current |
| `MonitorRunner.Scheduler.TeardownLocked` | internal/monitor/monitor.go:417-428 | the generation moves on and the loop drops exactly the monitor's tokens |
| `MonitorRunner.Scheduler.StartMonitor` | internal/monitor/monitor.go:297-359 | registration with the baseline read before the lock |
| `MonitorRunner.Scheduler.Remove` | internal/monitor/monitor.go:451-459 | stops and forgets the monitor |
| `MonitorRunner.Scheduler.CommitSaved` | internal/monitor/monitor.go:759-770 | publishes unless the monitor has moved on, and says whether |
| `MonitorRunner.Scheduler.FindPushToken` | internal/monitor/monitor.go:793-805 | the token's entry, found by comparing all |
| `MonitorRunner.Scheduler.StampLastPing` | internal/monitor/monitor.go:817-823 | a ping counts only under its generation |
| `LineReader.LineWriter.Write` | internal/cli/delegate.go:69-100 | a chunk's effect, all of it consumed unless the reader fails |
| `LineReader.LineWriter.Flush` | internal/cli/delegate.go:102-115 | emits a last unterminated line |
| `LineReader.ChunksDoNotMatter` | internal/cli/delegate.go:56-100 | any chunking ends as the whole stream would |
| `LineReader.LinesAreTheStreams` | internal/cli/delegate.go:69-115 | the lines are the stream's pieces up to the first too long, and failure is exactly that there is one |
| `LineReader.FlushedAreTheStreams` | internal/cli/delegate.go:102-115 | at the end of the stream its last piece is a line too, unless empty |
| `LineReader.PiecesRejoin` | internal/cli/delegate.go:69-100 | the pieces have no newline and put together give the stream |
| `LineReader.TrimmedIs` | internal/cli/delegate.go:69-115 | a line is its piece less one carriage return |
| `LineReader.LockedBuffer.WriteLine` | internal/cli/delegate.go:207-220 | the capture is the first bytes of the lines with newlines |
| `LifecycleMerge.Merge` | internal/b2/rules.go:154-215 | the loops grant each wish in order, within the limit when something changed |
| `LifecycleEffects.WindowAsWanted` | internal/b2/rules.go:169-198 | the rule each window's prefix ends with, value by value, whatever was there |
| `LifecycleEffects.IncomingAsWanted` | internal/b2/rules.go:199-215 | the rule each server's pending uploads end with |
| `LifecycleMerge.ChangedExactlyWhenDifferent` | internal/b2/rules.go:150-153 | something is sent exactly when the rules differ |
| `LifecycleIdempotence.MergeIsIdempotent` | internal/b2/rules.go:150-215 | a second merge changes nothing, for every bucket, if and only if each window's prefix asks for a positive window, or, where a server's uploads pend under that very prefix, for no window by choice but one day |
| `LifecycleIdempotence.MergedTwice` | internal/b2/rules.go:150-215 | and its rules are then the first merge's |
| `LifecycleRules.OthersUntouched` | internal/b2/rules.go:150-153 | rules not owned keep place and bytes, and only owned prefixes are added |
| `LifecycleRules.OrderDoesNotMatter` | internal/b2/rules.go:166-167 | any order of the servers gives the same rules |
| `LifecycleRules.RemovingUndoesAdding` | internal/b2/rules.go:217-233 | removing a newly added server's prefixes gives exactly the merge without it |
| `LifecycleRules.WithoutUndoes` | internal/b2/rules.go:217-233 | merging and removing prefixes commute |
| `LifecycleRules.MergeAddsNoTrouble` | internal/b2/rules.go:121-147 | refusals are unchanged, warnings never grow, and shrink only for a chosen window |
| `LifecycleMerge.Analyze` | internal/b2/rules.go:121-147 | exactly the refusals and warnings specified |
| `LifecycleEffects.RefusedOver` | internal/b2/rules.go:121-137 | refused over exactly the rules that hide backups after upload |
| `LifecycleEffects.WarnedOver` | internal/b2/rules.go:138-147 | warned over exactly those that delete hidden backups sooner than asked |
| `LifecycleMerge.WithoutPrefixes` | internal/b2/rules.go:217-233 | drops exactly the rules with these prefixes |
| `LifecycleEffects.WithoutKeepsTheRest` | internal/b2/rules.go:217-233 | every other rule stays as often as it was there |
| `LifecycleMerge.EffectiveWindow` | internal/b2/rules.go:235-258 | the shortest positive window on a wanted prefix, or the one asked for |
| `LifecycleMerge.ChosenWindowHolds` | internal/b2/rules.go:150-153 | a window a person chose is the one in force once merged |

## Left out

- KeySafety.HeldKeysSurvive: assumes each landing push was preceded by a landed save; the code does not check it, and `PushSafeExactlyWhenSaved` gives the exact condition.
- KeyConservation.NoKeyForgotten: covers one crash-free handler run and keys whose creation was answered; what the manual storage form forgets is given by `FormListsOnlyTheNewestKey`.
- KeyRotation.InvKept: the manual form's push (backupstorage.go:302) and its removal of the record (backupstorage.go:331-339) are one step between a server's jobs; they can interleave with a running apply. `HandPush` covers its push at any time.
- StorageApply.Handler.Apply: pushes of a group one after another; their interleavings are covered by the transition system's lemmas. Of a result, the wording, names and notes are left out.
- AlertDelivery.NoOpeningAfterRecovery: leaves out a crash between saving an incident and handing its alert over; a restart falls where no hand-over is under way.
- OutboxQueue.Outbox.Attempt: only senders that deliver one channel at a time; the receiver's wait is an argument.
- OutboxRuns.RestartResumesExactlyThePending: each state change and its append are one step, and appends land; a failed append is not modelled.
- OperationAdmission.OneOperationPerWindow: holds within one process and until retention removes an operation carrying the key.
- EventReplay.NoSilentLossEver: a crash tears at most the append under way; appends already returned stay in the file.
- EventLog.InvKept: a load error at startup, which drops the history, is not modelled.
- Jsonl.File.ReadJsonl: what trimming leaves and what is valid JSON are parameters; the scanner's 1 MiB line limit is left out.
- MonitorRunner.Scheduler.StartMonitor: the tracker is the set of rules it holds anything for; the probes and the store's own check are left out.
- LineReader.LineWriter.Write: the child process and its cancellation are left out.
- LifecycleMerge.Merge: JSON decoding of rules and the wording of findings are left out.
- Retiring a server and dismissing leftovers (backupsetup.go:2060-2253): further deletions a person confirms one by one.
- The read-only mode entered on records of a newer build: no step is taken in it.
- Execution slots: waiting for one is modelled, how many there are is not.
- Verified renames and the command retargeting they bring: a target check either passes or refuses.
- Holds, silences, schedules, receipts, probes and pushes are arbitrary answers; times are numbers.
- Map iteration, where the code ranges over a map, is in any order.
- HTTP handlers, authentication, subscribers, health, logging, file handles and wording.
