# Verified model of the posture platform's engines

The backend is a NestJS service that scans assets, audits cloud accounts, keeps findings and
scores, raises alerts and protects logins. This project models its stateful and arithmetic
engines in Dafny 4.11 and proves what they guarantee over every input and every run.
`dafny verify dfyconfig.toml` checks everything.

| file | models |
|---|---|
| `ScanQueue.dfy` | the shared scan queue: claims, outcomes, retries, shutdowns, timeouts, crashes, stale sweep, cancellation |
| `WorkerLoop.dfy` | one worker process: wake-up flags, running jobs, adaptive concurrency |
| `Cancellation.dfy` | the per-process registry of abortable scans |
| `Pipeline.dfy` | the staged 360 degree diagnosis on top of the queue |
| `PostureDiff.dfy` | the difference between two diagnostics |
| `Findings.dfy`, `CloudAudit.dfy`, `Lifecycle.dfy` | reconciliation of findings, cloud audits, reviews, retests, SLA |
| `Base32.dfy`, `Totp.dfy` | base32 with its 32-bit accumulator, HOTP, TOTP, recovery codes |
| `LoginProtection.dfy`, `OverlappingLogins.dfy`, `StaleRecordings.dfy` | brute-force lockout, requests that overlap, and failures recorded on an outdated count |
| `Retention.dfy` | the retention run |
| `Scoring.dfy`, `RiskScores.dfy` | Security Score of an asset and of the organization |
| `Scheduler.dfy`, `Hostnames.dfy` | monitoring claims, Certificate Transparency names |
| `Alerts.dfy`, `AlertRetries.dfy` | delivery and retry of alerts, and retries of an alert that overlap |
| `Base.dfy` | shared datatypes and small arithmetic |

## How the code is modelled

- Services that update rows or fields are classes whose methods change them in place. Each method is
  tied by its `ensures` to a function on values; the theorems are about those functions and about
  runs of steps. Tables are maps, a JSON list that is updated entry by entry is an array.
- What such a function means is stated once more without it, in terms of rows, times and numbers: by
  plain `ensures` of the methods (`Synced`, `StageEnqueued`, `AcceptedAt`, `ServedFirst`) and by lemmas
  such as `Totp.CodeOfCounter`, `ScanQueue.ServesTheFirst` or `Scoring.ScoreIsThatOfTheModel`.
- One step is one SQL statement or one transaction. Where the code reads, and writes later without
  a transaction around both, the read and the write are two steps with anything in between: a
  review or retest and its row (`Lifecycle`), the recording of a failed login (`OverlappingLogins`,
  `StaleRecordings`), a retry run and the lists of its alerts (`AlertRetries`, `Alerts.AlertStore`),
  a monitoring turn and its claims (`Scheduler`), and `cancelBatch` (`Pipeline.CancelledBatchIsSettled`).
  The exceptions are `claimNext`, `start` and `advancePipeline`, each taken as one serialised step,
  and `LoginProtection`, where requests do not overlap. `enqueue` adds one PENDING scan or has no
  effect; `cancel` moves a PENDING or RUNNING scan to CANCELLED or has no effect.
- `Findings.Catalog` is the rule catalogue of the code that uses it: FINDING_RULES for perimeter
  scans, CSPM_RULES_MAP for cloud audits, and in `Lifecycle`, where both occur, their union; no rule
  is in both.
- Results of scanners, probes, notifiers and other instances are inputs. HMAC-SHA1 is a parameter
  (any function to 20 bytes). The fingerprint hash is the injective pair of rule and location.
  Times are integers in milliseconds.
- Score amounts are exact hundredths: every weight times a factor is a multiple of a quarter.
  `Math.round` is the floor of the value plus one half.

## Where the code differs from its documentation, or a promise needs a condition

- Comments and the model description in `scoring.ts` say that only OPEN findings count. The code
  counts OPEN, IN_PROGRESS and VERIFYING, and so does the model.
- The same file says that four CRITICAL findings take the score to 0. An asset of LOW criticality
  needs six (`Scoring.CriticalsAlone`).
- Scans of different types report findings of each other's categories: web headers a missing
  security.txt (sensitive paths), sensitive paths a stack trace (HTTP headers), subdomain discovery
  a takeover (exposed services). The scan that owns the category resolves what it does not report
  itself, so the order in which two scans are stored matters. `Findings.OrderOfTwoSyncs` says for
  which findings, and `Findings.SecurityTxtDependsOnOrder` shows one.
- A tick that ends by an error forgets a waiting wake-up (`WorkerLoop.WakeUpsLostOnlyByErrorOrShutdown`,
  `WorkerLoop.AnErrorLosesAWakeUp`).
- The limit of failed logins holds for requests that do not overlap. While w requests overlap and
  each failure is recorded on the count it was read from, w - 1 guesses come on top
  (`OverlappingLogins.OverlapBound`, `OverlappingLogins.OverlapBoundIsReached`). But recordings
  overlap too: one that read the row before others wrote it sets the count back and can clear a
  running lock (`StaleRecordings.StaleWriteClearsTheLock`). Then, within less than a lockout, the
  guesses number at most the binomial coefficient of maxFailures + w over w, less one, and that many
  can be made (`StaleRecordings.StaleBound`, `StaleRecordings.StaleBoundIsReached`): with the default of
  5 failures, 20 guesses for two requests at a time.
- If a requeued scan starts again in the same process before its first execution has released it,
  the second execution can no longer be aborted (`Cancellation.RegisterKeepsReachable`,
  `Cancellation.OverlapLosesTheSecondExecution`).
- `cancelBatch` also overwrites a batch that has finished (`Pipeline.FinishedBatchChangesOnlyByCancel`,
  `Pipeline.CancelOverwritesAFinishedBatch`), and the batch it cancels can be advanced before its last
  write, which leaves scans behind that will still run (`Pipeline.CancelledBatchIsSettled`,
  `Pipeline.CancelledWithAPendingScan`).
- A review that acts on an outdated read leaves a resolution date on a row that is not RESOLVED
  (`Lifecycle.DatesStayOnResolvedRows` says exactly when, `Lifecycle.ReviewCanLeaveADate` shows it), and a retest
  can overturn a user's decision (`Lifecycle.DecisionSurvives`).
- The retention run can take an asset that is not a cloud account out of the Security Score
  (`Retention.StaysScored`, `Retention.FailedRescanUnscores`).
- A retry run writes back the list it read at its beginning. If the alert was retried meanwhile, an
  entry that was SENT is sent again and stored as FAILED, one attempt short (`AlertRetries.SentAgain`);
  `AlertRetries.FaithfulIffNoneOvertaken` says in exactly which runs this does not happen.
- A retry on demand has no limit of attempts, and counts an old entry without a counter differently
  (`Alerts.DemandHasNoLimit`, `Alerts.OldEntriesCountDifferently`).
- An overdue finding is reported as such only half an hour after its due date (`Lifecycle.SlaByDistance`).

## Model

| member | source | states |
|---|---|---|
| ScanQueue.ScanTable.ClaimNext | backend/src/scans/scan-worker.service.ts:212-241 | the claim takes a PENDING scan of an organization below its limit that is served first among all such scans: the older creation minute, within it the earlier type of the listed order, within that the older scan; it takes nothing only when every PENDING scan is of an organization at its limit |
| ScanQueue.ClaimFindsWork | backend/src/scans/scan-worker.service.ts:212-241 | there is a next scan if and only if some scan is claimable |
| ScanQueue.ServesTheFirst | backend/src/scans/scan-worker.service.ts:216-236 | what may be claimed next, in terms of rows, minutes, the list of types and creation times |
| ScanQueue.NothingNewerStarts | backend/src/scans/scan-worker.service.ts:212-241 | over every run: while a scan stays claimable, no scan created a minute or more after it is started, whatever arrives |
| ScanQueue.WaitIsBounded | backend/src/scans/scan-worker.service.ts:212-241 | no starvation: while a scan stays claimable, without shutdowns at most maxRetries + 1 starts for each scan of its minute or an earlier one come before it, however many newer scans arrive |
| ScanQueue.ScanTable.StaleScans | backend/src/scans/scan-worker.service.ts:245-252 | the query finds the RUNNING scans started before the limit |
| ScanQueue.ScanTable.FailStaleScans | backend/src/scans/scan-worker.service.ts:253-260 | the update fails exactly the RUNNING scans started before the limit, leaves all other rows, counts them, and leaves none |
| ScanQueue.FailedStaleScansAreReported | backend/src/scans/scan-worker.service.ts:244-267 | whatever other processes do between the query and the update, every scan that the update fails was found by the query, so its end is reported |
| ScanQueue.ScanTable.PersistOutcome | backend/src/scans/scan-worker.service.ts:455-463 | the outcome is stored if and only if the scan was still RUNNING |
| ScanQueue.ScanTable.OnScannerError | backend/src/scans/scan-worker.service.ts:379-408 | a transient error with retries left requeues and counts a retry, anything else fails the scan; both only while it is RUNNING |
| ScanQueue.ScanTable.HandleInterrupted | backend/src/scans/scan-worker.service.ts:419-446 | shutdown requeues and keeps the retry count, timeout fails, user cancels; only while RUNNING |
| ScanQueue.EndsAs | backend/src/scans/scan-worker.service.ts:379-463 | in the runs, a scan still RUNNING ends as COMPLETED, or after an error as PENDING with one retry more while tries are left and the error is transient, and as FAILED otherwise |
| ScanQueue.InterruptedAs | backend/src/scans/scan-worker.service.ts:419-446 | in the runs, a shutdown gives the scan back, its timeout fails it, its user cancels it |
| ScanQueue.UserWithdraws | backend/src/scans/scans.service.ts:255-276 | a cancellation moves a PENDING or RUNNING scan to CANCELLED and leaves a settled one alone |
| ScanQueue.RunningSinceItsClaim | backend/src/scans/scan-worker.service.ts:245-260 | after every run a RUNNING scan carries the time of its last claim and a PENDING one none, so the sweep fails exactly the scans RUNNING since a claim before its limit |
| ScanQueue.StepKeepsInv | backend/src/scans/scan-worker.service.ts:212-446 | every step of any process keeps exclusive holding, the bookkeeping of attempts and commits, and the limits per organization |
| ScanQueue.ReachableInv | backend/src/scans/scan-worker.service.ts:212-446 | the invariant holds after every run of any number of processes |
| ScanQueue.StepKeepsPlace | backend/src/scans/scan-worker.service.ts:386-463 | a scan keeps everything but its status, start and retry count in every step, and a settled one keeps everything |
| ScanQueue.OnlyClaimStarts | backend/src/scans/scan-worker.service.ts:212-241 | a scan becomes RUNNING only by a claim for an organization below its limit |
| ScanQueue.NeverHeldTwice | backend/src/scans/scan-worker.service.ts:212-446 | in every run two executions never hold the same scan, and no organization runs more than its limit |
| ScanQueue.TerminalIsForever | backend/src/scans/scan-worker.service.ts:244-463 | COMPLETED, FAILED and CANCELLED rows never change again, whatever happens later |
| ScanQueue.CommitsExactlyTheCompleted | backend/src/scans/scan-worker.service.ts:448-463 | the outcome transaction has committed once for each COMPLETED scan and never for another |
| ScanQueue.OnlyShutdownGivesBack | backend/src/scans/scan-worker.service.ts:419-427 | without a shutdown no scan is given back |
| ScanQueue.AttemptsBounded | backend/src/scans/scan-worker.service.ts:379-408 | claims of a scan are at most one plus its transient and shutdown requeues, transient ones at most maxRetries, so without shutdowns at most maxRetries + 1 attempts |
| ScanQueue.StepDescends | backend/src/scans/scan-worker.service.ts:379-446 | every step leaves a scan's status alone, lowers a rank, or is a shutdown requeue |
| ScanQueue.StatusChangesBounded | backend/src/scans/scan-worker.service.ts:212-446 | in every run a scan changes status at most 2 (maxRetries + 1) times plus twice per shutdown requeue |
| WorkerLoop.MaxAdaptive | backend/src/scans/scan-worker.service.ts:78-81 | the adaptive maximum is the larger of the base and the configured value, or of the base and four when none is set |
| WorkerLoop.ScanWorker.AdaptConcurrency | backend/src/scans/scan-worker.service.ts:145-163 | one more slot after a third success in a row, one less after a second failure in a row, within the base and the maximum, and the two counters |
| WorkerLoop.ScanWorker.Kick | backend/src/scans/scan-worker.service.ts:177-191 | a kick starts a pass when idle, is remembered during one, and does nothing after shutdown |
| WorkerLoop.ScanWorker.OnSweepDone | backend/src/scans/scan-worker.service.ts:189-193 | after the stale sweep the first claim follows if a slot is free |
| WorkerLoop.ScanWorker.OnClaimDone | backend/src/scans/scan-worker.service.ts:192-200 | a claimed scan becomes a running job and the next claim follows while slots are free; otherwise the pass ends and restarts if a kick waits |
| WorkerLoop.ScanWorker.OnTickError | backend/src/scans/scan-worker.service.ts:204-208 | an error ends the tick without a further pass |
| WorkerLoop.ScanWorker.OnJobSettled | backend/src/scans/scan-worker.service.ts:196-200 | a settled job frees its slot and kicks |
| WorkerLoop.ScanWorker.OnShutdown | backend/src/scans/scan-worker.service.ts:134-142 | the worker is shutting down from then on |
| WorkerLoop.ReachableInv | backend/src/scans/scan-worker.service.ts:145-209 | the worker's invariant holds after every sequence of events |
| WorkerLoop.ConcurrencyIsEarned | backend/src/scans/scan-worker.service.ts:74-163 | base <= limit <= maximum, three successes for every extra slot, and the running jobs are the in-flight set and never more than the maximum |
| WorkerLoop.WakeUpsLostOnlyByErrorOrShutdown | backend/src/scans/scan-worker.service.ts:177-209 | when a tick ends, a kick is lost if and only if one waited and the end was an error or a shutdown; otherwise the pass ended for lack of work or of slots |
| WorkerLoop.AfterShutdown | backend/src/scans/scan-worker.service.ts:134-209 | after a shutdown no pass begins, and only a claim already under way can still start a job |
| WorkerLoop.OneJobAfterShutdown | backend/src/scans/scan-worker.service.ts:134-209 | in every run at most one job is started after a shutdown |
| WorkerLoop.AnErrorLosesAWakeUp | backend/src/scans/scan-worker.service.ts:177-209 | the run of a kick, a second kick and an error, after which the worker is idle with a kick unheard |
| WorkerLoop.IdleMeansHeard | backend/src/scans/scan-worker.service.ts:177-209 | without errors and shutdowns an idle worker has answered every kick with a later pass |
| WorkerLoop.LimitMayFallBelowActive | backend/src/scans/scan-worker.service.ts:145-163 | a run after which more jobs are running than the limit allows |
| Cancellation.ScanCancellation.Register | backend/src/scans/scan-cancellation.service.ts:17-23 | a registration replaces the entry of its scan and arms a timeout |
| Cancellation.ScanCancellation.Release | backend/src/scans/scan-cancellation.service.ts:25-30 | a release removes whatever entry the scan has and disarms its timeout |
| Cancellation.ScanCancellation.Abort | backend/src/scans/scan-cancellation.service.ts:33-38 | an abort reaches the entry of the scan, if there is one, says so, and gives its reason unless one is given already |
| Cancellation.ScanCancellation.AbortAll | backend/src/scans/scan-cancellation.service.ts:40-44 | all entries are aborted with the reason given, unless they were before, whatever the order, no other execution is, and their scans are returned |
| Cancellation.FirstReasonWins | backend/src/scans/scan-cancellation.service.ts:17-44 | the abort reason an execution sees never changes |
| Cancellation.AbortReaches | backend/src/scans/scan-cancellation.service.ts:17-44 | an abort gives its reason to the execution that holds the entry, a timeout to its own, unless aborted before |
| Cancellation.RegisterKeepsReachable | backend/src/scans/scan-cancellation.service.ts:17-30 | registering keeps every execution abortable if and only if no other execution still holds the scan |
| Cancellation.RunsStayReachable | backend/src/scans/scan-cancellation.service.ts:17-44 | every running execution can be aborted at every moment of a run if and only if no registration overlaps another execution of its scan |
| Cancellation.OverlapLosesTheSecondExecution | backend/src/scans/scan-cancellation.service.ts:17-30 | after an overlap and the first release the second execution has neither entry nor timeout |
| Pipeline.GetStagesForProfile | backend/src/scans/diagnostic-orchestrator.service.ts:136-214 | the stage list of each profile and asset type |
| Pipeline.StagesAreNumbered | backend/src/scans/diagnostic-orchestrator.service.ts:136-214 | two or three stages, numbered without gaps, none empty, no scan type twice |
| Pipeline.WhereTypesRun | backend/src/scans/diagnostic-orchestrator.service.ts:136-214 | each scan type runs exactly in the stage given for its profile and asset type, or not at all |
| Pipeline.EveryGrantIsEnqueued | backend/src/scans/diagnostic-orchestrator.service.ts:275-290 | each granted request whose id is unused and granted once is afterwards a PENDING scan of its type, of the batch, its organization, asset and stage; rejected ones are skipped, nothing else is added, nothing is changed |
| Pipeline.DiagnosticOrchestrator.Enqueue | backend/src/scans/diagnostic-orchestrator.service.ts:275-290 | the loop enqueues every granted request of the stage in that way, whatever became of the others |
| Pipeline.DiagnosticOrchestrator.Start | backend/src/scans/diagnostic-orchestrator.service.ts:219-294 | a diagnosis starts if and only if the asset exists in the organization, is active and authorised, and has none in progress; then the batch is stored in its first stage and every granted request of that stage is enqueued; a refusal changes nothing |
| Pipeline.DiagnosticOrchestrator.AdvancePipeline | backend/src/scans/diagnostic-orchestrator.service.ts:310-376 | nothing happens unless the batch is in progress and no scan of its current stage waits or runs; then the stage grows by one and every granted request of the next stage is enqueued, or, after the last one, only the outcome is written |
| Pipeline.DiagnosticOrchestrator.CompleteBatch | backend/src/scans/diagnostic-orchestrator.service.ts:477-501 | the batch becomes FAILED if it has scans and none completed, otherwise COMPLETED |
| Pipeline.ReachableInv | backend/src/scans/diagnostic-orchestrator.service.ts:219-376 | every run of queue steps, starts, advances and cancellations keeps the batch invariant |
| Pipeline.QueueInvThroughout | backend/src/scans/diagnostic-orchestrator.service.ts:219-376 | the orchestrator never breaks the invariant of the queue |
| Pipeline.StagesRunInOrder | backend/src/scans/diagnostic-orchestrator.service.ts:310-376 | in every run scans of earlier stages are settled, none is of a later stage, and a finished batch has only settled scans |
| Pipeline.FinishedMeansComplete | backend/src/scans/diagnostic-orchestrator.service.ts:219-376 | over every run in which all requests for a batch are granted: when it has finished and was not cancelled, it has exactly one scan of each type of its profile and asset, settled and in its stage, and no others |
| Pipeline.OneActiveBatchPerAsset | backend/src/scans/diagnostic-orchestrator.service.ts:238-252 | an asset never has two batches in progress |
| Pipeline.BatchOnlyMovesForward | backend/src/scans/diagnostic-orchestrator.service.ts:310-376 | the stage only grows, by one, the plan is fixed, and an advance with a settled stage uses up one remaining advance |
| Pipeline.BatchTerminates | backend/src/scans/diagnostic-orchestrator.service.ts:310-376 | a batch leaves IN_PROGRESS after at most totalStages advances with a settled stage |
| Pipeline.OutcomeOfTheBatch | backend/src/scans/diagnostic-orchestrator.service.ts:477-479 | when a batch finishes all its scans are settled, and it is FAILED if and only if it has scans and none completed |
| Pipeline.FinishedBatchChangesOnlyByCancel | backend/src/scans/diagnostic-orchestrator.service.ts:790-817 | a finished batch keeps its status in a step if and only if the step is not a cancellation of it |
| Pipeline.CancelOverwritesAFinishedBatch | backend/src/scans/diagnostic-orchestrator.service.ts:790-817 | a run that completes a batch, after which its cancellation makes it CANCELLED |
| Pipeline.CancelledBatchIsSettled | backend/src/scans/diagnostic-orchestrator.service.ts:790-817 | when the active scans that cancelBatch read have been cancelled, and anything else has happened meanwhile, the cancelled batch has only settled scans if and only if those enqueued since have settled, in particular when no advance came in between |
| Pipeline.CancelledForever | backend/src/scans/diagnostic-orchestrator.service.ts:310-321 | in every further run a cancelled batch stays as it is and gets no scans, and settled scans of it stay |
| Pipeline.CancelledWithAPendingScan | backend/src/scans/diagnostic-orchestrator.service.ts:790-817 | the run of an advance before the last write of cancelBatch, which ends with a CANCELLED batch and a claimable scan of it |
| Pipeline.ProgressNeverFalls | backend/src/scans/diagnostic-orchestrator.service.ts:537-548 | the progress is 100 exactly for COMPLETED batches and falls only by cancelling |
| Pipeline.ProgressIsShare | backend/src/scans/diagnostic-orchestrator.service.ts:537-548 | otherwise it is the share of the three, four or six planned scans that completed or failed, in percent, rounded, at most 95 |
| PostureDiff.FindingsDiff | backend/src/scans/diagnostic-orchestrator.service.ts:673-693 | the new, persistent and remediated lists of the two loops |
| PostureDiff.WhatTheDiffHolds | backend/src/scans/diagnostic-orchestrator.service.ts:673-693 | the lists hold the fingerprints of the set differences and of the intersection |
| PostureDiff.AsTheyAre | backend/src/scans/diagnostic-orchestrator.service.ts:673-693 | new and persistent findings are listed as they are now, remediated ones as they were, marked RESOLVED |
| PostureDiff.DiffConserves | backend/src/scans/diagnostic-orchestrator.service.ts:673-693 | current findings are the new and the persistent ones, and current less new equals previous less remediated |
| PostureDiff.DiffIsSymmetric | backend/src/scans/diagnostic-orchestrator.service.ts:673-693 | comparing the other way round swaps new and remediated |
| PostureDiff.ReplayGivesTheLast | backend/src/scans/diagnostic-orchestrator.service.ts:673-693 | replaying the diffs of any series of diagnostics on the first gives the last |
| PostureDiff.DiffOfOneSync | backend/src/scans/diagnostic-orchestrator.service.ts:398-412 | across one scan result the diff shows exactly what was created or reopened, and what was resolved |
| PostureDiff.PortsDiff | backend/src/scans/diagnostic-orchestrator.service.ts:696-699 | a port is new, or closed, exactly when it is open on one side only |
| Findings.FindingTable.Detect | backend/src/findings/findings.service.ts:256-302 | a draft creates, reopens or refreshes its finding, counts once, and reports a finding that went to OPEN |
| Findings.FindingTable.ApplyDrafts | backend/src/findings/findings.service.ts:250-303 | the loop throws exactly on an unknown rule and otherwise leaves rows, counters and the seen set as the specification says |
| Findings.FindingTable.ResolveGone | backend/src/findings/findings.service.ts:305-317 | the bulk update resolves the unreported active findings of the scanned asset whose category was evaluated completely and is answered for by the scan's type, and no other row, and counts them |
| Findings.FindingTable.SyncForScan | backend/src/findings/findings.service.ts:241-319 | row by row, the first draft of each rule and location creates, reopens or refreshes its finding with the data of its rule, an unreported finding is closed exactly as above, and nothing else changes; the counters count the created, updated, reopened and resolved fingerprints, and an unknown rule changes nothing |
| Findings.WhoOwns | backend/src/findings/findings.service.ts:27-36 | a scan type answers for exactly the categories listed under it, and no type for a cloud category |
| Findings.ReconciledIsSynced | backend/src/findings/findings.service.ts:241-319 | the set-level reconciliation of the following results does to each row what the sync is said to do |
| Findings.ClosesOnlyItsOwn | backend/src/findings/findings.service.ts:305-316 | an unreported active finding of the scanned asset, in a completely evaluated category, becomes RESOLVED if and only if the scan's type answers for its category; no scan closes a cloud finding |
| Findings.ActiveMeansReported | backend/src/findings/findings.service.ts:284-317 | after a sync no drafted finding is RESOLVED, and active findings of complete categories were drafted |
| Findings.DecisionsAndOtherAssetsStay | backend/src/findings/findings.service.ts:284-317 | ACCEPTED and FALSE_POSITIVE stay, no row disappears, first sighting, due date and owner stay, other assets are untouched |
| Findings.ActiveFindingsAreConserved | backend/src/findings/findings.service.ts:284-317 | active after = active before + created + reopened - resolved |
| Findings.EveryFingerprintIsCounted | backend/src/findings/findings.service.ts:284-302 | created + updated + reopened is the number of distinct fingerprints |
| Findings.SyncIsIdempotent | backend/src/findings/findings.service.ts:250-317 | repeating the drafts creates, reopens and resolves nothing and changes only the last sighting |
| Findings.CategoriesAreDisjoint | backend/src/findings/findings.service.ts:28-36 | different scan types own different categories |
| Findings.SyncKeepsCatalogued | backend/src/findings/findings.service.ts:256-302 | a sync keeps the category of every row that of its rule |
| Findings.UnreportedRowsStay | backend/src/findings/findings.service.ts:305-316 | a sync leaves a row that it does not report as it is if and only if it does not resolve it |
| Findings.OrderOfTwoSyncs | backend/src/findings/findings.service.ts:241-319 | for any two scan results, tables and times: the status of a finding is the same in both orders of storing them if and only if it is not contested, that is, not reported by one scan while the other, on the same asset, answers for its category without reporting it (decided findings aside) |
| Findings.SyncsCommute | backend/src/findings/findings.service.ts:241-319 | all statuses are the same in both orders if and only if no finding is contested |
| Findings.RowsAfterTwoSyncs | backend/src/findings/findings.service.ts:241-319 | for scans of different types and a finding that not both report, the whole row is the same in both orders if and only if the finding is not contested |
| Findings.SecurityTxtDependsOnOrder | backend/src/findings/rules.catalog.ts:1027-1028 | a missing security.txt, reported by the web headers scan under a rule of the sensitive paths, ends RESOLVED or OPEN depending on which of the two scans of the stage is stored first |
| CloudAudit.GraverIsDueSooner | backend/src/cloud/cloud-scan.service.ts:60-79 | due after one day, one week, 30 or 90 days, graver findings never later |
| CloudAudit.SameFinding | backend/src/cloud/cloud-scan.service.ts:285-288 | two reports are one finding if and only if they are of one rule and one resource, resources with ids of 500 characters or more being told apart by the first 500 |
| CloudAudit.CloudStore.Report | backend/src/cloud/cloud-scan.service.ts:290-376 | one reported rule and resource creates, reopens or refreshes its finding and moves the counters |
| CloudAudit.CloudStore.ReportAll | backend/src/cloud/cloud-scan.service.ts:278-377 | the loop skips unknown rules and duplicates and equals the set-level specification |
| CloudAudit.CloudStore.CloseStale | backend/src/cloud/cloud-scan.service.ts:380-400 | exactly the unreported active findings of the account are closed and counted |
| CloudAudit.CloudStore.RunAccountAudit | backend/src/cloud/cloud-scan.service.ts:270-429 | each reported finding is opened, reopened or refreshed, with a due date, the account's other active findings are closed, all other rows stay; the stored number of failing findings, and each count by severity, equals the active findings of asset and account after the audit |
| CloudAudit.AuditedIsDone | backend/src/cloud/cloud-scan.service.ts:270-400 | the set-level specification of the following results does to each row what the audit is said to do |
| CloudAudit.FailingAfterAudit | backend/src/cloud/cloud-scan.service.ts:331-399 | after an audit the account's active findings are exactly the reported ones that were not accepted or discarded |
| CloudAudit.FailingBySeverity | backend/src/cloud/cloud-scan.service.ts:402-407 | the five severities add up to the account's active findings |
| CloudAudit.AuditKeepsDueDates | backend/src/cloud/cloud-scan.service.ts:331-365 | every reported finding has a due date afterwards, a set one is never moved, and decisions stay |
| CloudAudit.AuditIsIdempotent | backend/src/cloud/cloud-scan.service.ts:270-400 | repeating an audit opens and closes nothing and leaves the same active findings of each severity |
| Lifecycle.StepDatedOnlyIfResolved | backend/src/findings/findings.service.ts:440-473 | a step keeps resolution dates on RESOLVED rows if and only if it is not a review with an outdated read of a resolved row |
| Lifecycle.StepResolvedIsDated | backend/src/findings/findings.service.ts:440-473 | a step keeps a date on every RESOLVED row if and only if it is not a review that sets RESOLVED without one |
| Lifecycle.DatesStayOnResolvedRows | backend/src/findings/findings.service.ts:440-759 | over a whole run, dates are found on RESOLVED rows only all along if and only if no review clashes |
| Lifecycle.ResolvedMeansDated | backend/src/findings/findings.service.ts:427-759 | when no review clashes and with the validated statuses, whatever the retests have read, a row has a resolution date if and only if it is RESOLVED, after every run of syncs, audits, reviews and retests |
| Lifecycle.ReviewCanLeaveADate | backend/src/findings/findings.service.ts:440-473 | the run in which a review leaves a date on a row in progress |
| Lifecycle.DecisionSurvives | backend/src/findings/findings.service.ts:739-759 | a user's decision survives a step exactly when the step is no contrary review, no retest without reproduction and no reproducing retest with an outdated read |
| Lifecycle.DueDatesStay | backend/src/findings/findings.service.ts:460-466 | over every run no row disappears or changes owner or first sighting, and a set due date moves only by a review that sets it |
| Lifecycle.FindingDesk.FindOne | backend/src/findings/findings.service.ts:406-420 | a finding is found only within its organization |
| Lifecycle.FindingDesk.Review | backend/src/findings/findings.service.ts:430-486 | a foreign assignee is refused; otherwise the status and due date given are stored, a resolution date is removed if the status read was RESOLVED and one is given, and a score snapshot is taken exactly when a status is set that differs from the one read |
| Lifecycle.FindingDesk.Retest | backend/src/findings/findings.service.ts:739-771 | not reproducible resolves the finding, reproducible reopens it if the status read was RESOLVED, and a score snapshot is taken exactly when the new status differs from the one read |
| Lifecycle.SlaByDistance | backend/src/findings/findings.service.ts:168-203 | overdue from half an hour after the due date, approaching from 48.5 hours before, days rounded up |
| Lifecycle.SlaOfOthers | backend/src/findings/findings.service.ts:168-203 | closed exactly for settled findings, and without SLA exactly for active ones without a due date |
| Lifecycle.SlaOnlyWorsens | backend/src/findings/findings.service.ts:168-203 | as time passes an active finding only becomes more urgent |
| Base32.Base32Encode | backend/src/auth/totp.ts:12-28 | the overflowing 32-bit accumulator computes the regrouping of the bits of section 6 of RFC 4648 |
| Base32.Base32Decode | backend/src/auth/totp.ts:30-48 | the decoder computes the inverse regrouping of the cleaned text, or fails exactly on a foreign character |
| Base32.IndexOfFinds | backend/src/auth/totp.ts:36-39 | the digit value is the position in the alphabet |
| Base32.AlphabetIs | backend/src/auth/totp.ts:10 | the alphabet of table 3 of RFC 4648 |
| Base32.EncodedLength | backend/src/auth/totp.ts:12-28 | the length is 8n/5 rounded up |
| Base32.EncodingSpells | backend/src/auth/totp.ts:12-28 | the text spells in base 32 the number that the bytes spell in base 256, moved up by the zero bits that fill the last digit |
| Base32.DecodeAfterEncode | backend/src/auth/totp.ts:12-48 | decoding an encoding gives the bytes back, for every buffer |
| Base32.RoundTrip | backend/src/auth/totp.ts:30-48 | so does every text that cleans to the encoding |
| Base32.DecorationIgnored | backend/src/auth/totp.ts:31 | white space and = anywhere, and lower case, change nothing |
| Base32.EncodeAfterDecode | backend/src/auth/totp.ts:12-48 | re-encoding gives the cleaned text back if and only if fewer than five bits were dropped and they are zero |
| Totp.TruncatedIs31Bits | backend/src/auth/totp.ts:60-62 | the truncated value never has its sign bit set |
| Totp.CodeHasItsDigits | backend/src/auth/totp.ts:63 | a code has exactly the asked number of decimal digits, one if none are asked for, and spells the value modulo their power |
| Totp.CodesAreInjective | backend/src/auth/totp.ts:63 | equal codes are equal values modulo the power |
| Totp.MessageOfCounter | backend/src/auth/totp.ts:57-58 | the message is the one sequence of eight bytes whose positional value is the counter, so different counters give different messages |
| Totp.TruncatedIsNumber | backend/src/auth/totp.ts:60-62 | the truncated value is the number of section 5.3 of RFC 4226: the four bytes at the offset of the last nibble in powers of 256, without the sign bit |
| Totp.CodeOfCounter | backend/src/auth/totp.ts:56-64 | for every hmac, base32 secret, 64-bit counter and message of eight bytes that spells it: the code has its digits and spells, modulo their power of ten, the number of the digest of that message under the decoded key |
| Totp.CodesTellCounters | backend/src/auth/totp.ts:56-64 | two counters are different if and only if some hmac gives them different codes |
| Totp.HotpHasSixDigits | backend/src/auth/totp.ts:56-64 | a code exists exactly for a valid secret and a 64-bit counter, and has six digits |
| Totp.TryStep | backend/src/auth/totp.ts:81-83 | the constant-time comparison never throws on lengths |
| Totp.VerifyTotp | backend/src/auth/totp.ts:75-86 | a code is accepted if and only if it is six digits, white space aside, and a message that spells a 30-second step at most window steps from the time has a digest whose number is those digits modulo a million; the call throws exactly when the code is well formed and the secret is no base32 or a step of the window is no 64-bit number |
| Totp.AcceptsMeans | backend/src/auth/totp.ts:79-85 | the same for the acceptance that the following results speak of |
| Totp.SpacedCode | backend/src/auth/totp.ts:76 | white space typed anywhere in a code is ignored |
| Totp.OnlySpaceGoes | backend/src/auth/totp.ts:76 | every other character stays in its place |
| Totp.DriftingCodeAccepted | backend/src/auth/totp.ts:67-86 | a code of a clock at most window steps off is accepted, spaces included |
| Totp.FailsOnlyNearTheEpoch | backend/src/auth/totp.ts:79-81 | with a window of one step the counter is out of range exactly before 30 seconds after the epoch |
| Totp.RecoveryCodeNormalizes | backend/src/auth/totp.ts:95-102 | the displayed recovery code is ten characters with a hyphen after the fifth, and normalises to the ten, as the login requires |
| Totp.RecoveryCodesHaveFiftyBits | backend/src/auth/totp.ts:95-102 | two recovery codes agree if and only if their first 50 random bits do |
| LoginProtection.BruteForceBound | backend/src/auth/login-protection.service.ts:21-85 | for requests that do not overlap and without a completed login, the guesses evaluated within T number at most maxFailures (T / lockout + 1), passwords and second factors together |
| LoginProtection.BruteForceBoundIsReached | backend/src/auth/login-protection.service.ts:21-85 | the bound is reached for every number of lockouts |
| LoginProtection.TwoStepNeedsTheSecond | backend/src/auth/auth.service.ts:86-131 | over every run from any row, an account with two-step verification is logged in if and only if a right second factor comes while no lock is running; right passwords of it change nothing in the row |
| LoginProtection.TwoStepBound | backend/src/auth/auth.service.ts:113-116 | so without a right second factor such an account is never logged in, and the guesses number at most maxFailures (T / lockout + 1), right passwords included |
| LoginProtection.OneStepLogsIn | backend/src/auth/auth.service.ts:86-118 | without two-step verification a password step logs in if and only if the password is right, the account usable and not locked |
| LoginProtection.NextFailureIs | backend/src/auth/login-protection.service.ts:21-34 | a failure counts on from the row, or starts anew when there is none, its lock has ended, or it has none and is older than a lockout; from maxFailures on it locks |
| LoginProtection.FailureStep | backend/src/auth/login-protection.service.ts:21-34 | an evaluated failure counts on, or starts anew after a whole lockout time |
| LoginProtection.PurgeNeedsShortLockouts | backend/src/retention/retention.service.ts:145-153 | the purge of old rows is unobservable if and only if the lockout is at most seven days |
| LoginProtection.ValidatedPurgeIsUnobservable | backend/src/config/env.validation.ts:263-275 | every validated configuration is on the safe side |
| LoginProtection.PurgesChangeNoOutcome | backend/src/retention/retention.service.ts:145-153 | purges at any moments of any run change no outcome of any attempt |
| LoginProtection.LoginAttempts.AssertNotLocked | backend/src/auth/login-protection.service.ts:57-72 | locked accounts are refused, and the announced waiting time is exactly long enough |
| LoginProtection.LoginAttempts.RecordFailure | backend/src/auth/login-protection.service.ts:74-85 | the stored row counts on or starts anew, and is locked from maxFailures on |
| LoginProtection.LoginAttempts.Reset | backend/src/auth/login-protection.service.ts:87-89 | only the account's row is removed |
| LoginProtection.LoginAttempts.Handle | backend/src/auth/auth.service.ts:86-131 | a request of either login step is blocked by a running lock, fails exactly on a wrong secret, is refused or answered with a challenge without any change, and completes a login, removing the row, exactly for a right second factor or a right password of a usable account without two-step verification |
| LoginProtection.LoginAttempts.PurgeOld | backend/src/retention/retention.service.ts:145-153 | exactly the old rows without a running lock are deleted and counted |
| OverlappingLogins.OverlapBound | backend/src/auth/login-protection.service.ts:57-85 | with at most w requests at once, each in five separate moments, no completed login, and no recording that writes over a row written since it began: the guesses evaluated within T number at most (maxFailures + w - 1) (T / lockout + 1) |
| OverlappingLogins.OneAtATimeBound | backend/src/auth/auth.service.ts:86-105 | with one request at a time no recording is outdated, and the bound is maxFailures (T / lockout + 1) |
| OverlappingLogins.OverlapBoundIsReached | backend/src/auth/auth.service.ts:86-105 | maxFailures + w - 1 guesses are reached at a single instant without an outdated recording, for every w |
| OverlappingLogins.WriteStep | backend/src/auth/login-protection.service.ts:21-34 | a recording that is not outdated goes on with the count, never beyond maxFailures + w - 1, or its time is a lockout after the first failure of the count |
| OverlappingLogins.AloneStep | backend/src/auth/login-protection.service.ts:74-85 | with one request at a time, no step is an outdated recording |
| StaleRecordings.StaleBound | backend/src/auth/login-protection.service.ts:57-85 | for every interleaving of at most w requests at once without a completed login, outdated recordings included: fewer than (maxFailures + w choose w) guesses are evaluated within less than a lockout |
| StaleRecordings.StaleBoundOverTime | backend/src/auth/login-protection.service.ts:57-85 | for every such interleaving within any time T, at most (w + 1) (maxFailures + w choose w) - 1 more for each lockout in T |
| StaleRecordings.StaleBoundIsReached | backend/src/auth/login-protection.service.ts:74-85 | that many are evaluated at a single instant in one interleaving, for every w and every limit |
| StaleRecordings.StaleExceedsTheBound | backend/src/auth/login-protection.service.ts:74-85 | that interleaving exceeds maxFailures + w - 1 if and only if requests overlap and one failure does not lock |
| StaleRecordings.TwoAtOnce | backend/src/auth/login-protection.service.ts:74-85 | two requests at a time can evaluate maxFailures (maxFailures + 3) / 2 guesses at once, and no more in any interleaving within less than a lockout |
| StaleRecordings.StaleWriteClearsTheLock | backend/src/auth/login-protection.service.ts:74-85 | the run in which a recording that read no row overwrites a running lock with a first failure |
| StaleRecordings.MeasureStep | backend/src/auth/login-protection.service.ts:74-85 | every write by a recording of the present window, outdated or not, uses up some of the bound, and no other step gives any back |
| Retention.Database.LatestScans | backend/src/retention/retention.service.ts:101-106 | one latest scan of every asset |
| Retention.Database.PurgeScans | backend/src/retention/retention.service.ts:98-128 | old finished scans other than the latest ones go with their ports, counted; zero days switch it off |
| Retention.Database.RunRetention | backend/src/retention/retention.service.ts:78-153 | the run on scans and login rows, nothing when switched off |
| Retention.LatestAndUnfinishedSurvive | backend/src/retention/retention.service.ts:98-128 | every asset keeps its latest scan, unfinished and recent scans stay |
| Retention.PortsGoWithScans | backend/src/retention/retention.service.ts:116-128 | a port goes exactly with its scan |
| Retention.QueueUndisturbed | backend/src/retention/retention.service.ts:108-114 | the same scans are running, claimable and next after a purge |
| Retention.StaysScored | backend/src/retention/retention.service.ts:98-128 | an asset stays scored if and only if its protected scan or a recent one is COMPLETED, or it is a cloud account with a scan date |
| Retention.FailedRescanUnscores | backend/src/retention/retention.service.ts:98-128 | for any other asset, an old completed scan followed by an old failed one loses the score |
| Scoring.ScoreInRange | backend/src/risk/scoring.ts:123-146 | the score is within 0 and 100 and half a point of the exact value |
| Scoring.ScoreIsThatOfTheModel | backend/src/risk/scoring.ts:22-146 | the score is 100 less the penalty of the documented model in points (25, 10, 4 and 1 by severity, times 1.5, 1.25, 1 or 0.75, up to 100, 60, 30 and 10), rounded, halves up, and not below 0 |
| Scoring.ScoreNeverRises | backend/src/risk/scoring.ts:101-146 | more findings or a more important asset never raise the score or the grade |
| Scoring.MinorFindingsNeverFail | backend/src/risk/scoring.ts:34-41 | without CRITICAL and HIGH findings the score is at least 60, grade A, B or C |
| Scoring.MinorFindingsReachSixty | backend/src/risk/scoring.ts:34-41 | and 60 is reached |
| Scoring.CriticalsAlone | backend/src/risk/scoring.ts:14-15 | how many CRITICAL findings alone give 0, for each criticality |
| Scoring.AggregateIsMean | backend/src/risk/scoring.ts:162-166 | the aggregate is the mean rounded to the nearest, halves up, and there is none without scores |
| Scoring.GradeBands | backend/src/risk/scoring.ts:63-104 | the grade of every score |
| Scoring.AggregateBetween | backend/src/risk/scoring.ts:162-166 | the rounded mean lies between any bounds of the scores |
| Scoring.AggregateMonotone | backend/src/risk/scoring.ts:162-166 | it does not fall when scores rise |
| Scoring.AggregateIgnoresOrder | backend/src/risk/scoring.ts:162-166 | it does not depend on the order |
| Scoring.EvaluateScoreAnomaly | backend/src/risk/scoring.ts:216-259 | for given statistics, the drop, the z-score, which falls are anomalies, and how grave |
| Scoring.DeeperFallsAreGraver | backend/src/risk/scoring.ts:216-259 | a deeper fall still alerts, at least as gravely |
| RiskScores.BothQueriesAgree | backend/src/risk/risk-scores.service.ts:104-152 | computeAsset and computeAllAssets agree if and only if no active finding of the asset is filed under another organization |
| RiskScores.RunKeepsFiled | backend/src/findings/findings.service.ts:286 | over every run of scan results, audits, reviews and retests, each stored with the organization of its asset, every finding is filed under its asset's organization |
| RiskScores.QueriesAgreeThroughout | backend/src/risk/risk-scores.service.ts:80-152 | so after every such run computeAsset and computeAllAssets agree |
| RiskScores.CountBySeverity | backend/src/risk/risk-scores.service.ts:138-139 | the loop counts the asset's active findings by severity in any order |
| RiskScores.ComputeAllAssets | backend/src/risk/risk-scores.service.ts:125-152 | one state for every active asset |
| RiskScores.CountsForTheScore | backend/src/risk/risk-scores.service.ts:80-152 | an asset is scored once a scan of it has completed, and a cloud account also once it has been scanned |
| RiskScores.HybridIsHalfway | backend/src/risk/risk-scores.service.ts:155-172 | with perimeter and cloud assets the score is halfway between the two means, halves up; with one kind it is the mean of that kind |
| RiskScores.SnapshotOrganization | backend/src/risk/risk-scores.service.ts:201-235 | the snapshot's score is the hybrid of the bulk states with its grade, and its counts are the active findings of the scored assets, each once, beside their number |
| RiskScores.OrganizationBetween | backend/src/risk/risk-scores.service.ts:155-185 | the organization has a score if and only if an asset is scored, and it lies between any bounds of their scores |
| RiskScores.OrganizationIgnoresOrder | backend/src/risk/risk-scores.service.ts:155-185 | it does not depend on the order of the assets |
| RiskScores.OrganizationMonotone | backend/src/risk/risk-scores.service.ts:155-185 | it does not fall when an asset improves |
| Scheduler.DueAfterNextRun | backend/src/monitoring/monitoring.scheduler.ts:24-28 | an asset is due exactly once the announced time has passed |
| Scheduler.DueMeans | backend/src/monitoring/monitoring.scheduler.ts:11-28 | a daily asset is due after more than 23 hours and 50 minutes, a weekly one after 6 days, 23 hours and 50 minutes, a new one at once |
| Scheduler.ClaimsAreSpaced | backend/src/monitoring/monitoring.scheduler.ts:124-158 | over any instances, clocks, interleavings and changes of frequency, successive claims are more than the period less the slack in force apart |
| Scheduler.ClaimsApart | backend/src/monitoring/monitoring.scheduler.ts:124-158 | in milliseconds, for daily and for weekly claims |
| Scheduler.ClaimsPerWindow | backend/src/monitoring/monitoring.scheduler.ts:124-158 | claims within a window T number at most T / (23 h 50 min) + 1 |
| Scheduler.AssetTable.TryClaim | backend/src/monitoring/monitoring.scheduler.ts:153-158 | the conditional update marks the asset if and only if it is still due |
| Scheduler.AssetTable.FindDue | backend/src/monitoring/monitoring.scheduler.ts:142-149 | the due assets, longest waiting first, all of them unless the batch is full |
| Scheduler.LongestWaitingFirst | backend/src/monitoring/monitoring.scheduler.ts:142-149 | of two due assets, the one that comes first, or is taken while the other is left out, was never scheduled or no later than the other, and between equals is the older |
| Scheduler.WinsMeans | backend/src/monitoring/monitoring.scheduler.ts:153-158 | a claim succeeds if and only if the asset still exists and is due |
| Scheduler.EachInTurn | backend/src/monitoring/monitoring.scheduler.ts:151-173 | a pass takes its assets one after the other with the others' steps in between, counts those it wins, adds the scans requested for them and the requests that failed |
| Scheduler.AssetTable.ClaimAll | backend/src/monitoring/monitoring.scheduler.ts:151-173 | asset by asset, with any steps of the others in between: a claim succeeds if and only if the asset is still due at that moment, and only then scans are requested and counted |
| Scheduler.AssetTable.RunOnce | backend/src/monitoring/monitoring.scheduler.ts:136-175 | a turn over the daily assets within the batch, then one over the weekly assets within what is left of it, whose counts add up |
| Scheduler.RunStaysWithinBatch | backend/src/monitoring/monitoring.scheduler.ts:136-175 | claimed <= due <= batch under any interference; undisturbed, all found are claimed, nothing else changes, and nothing due is left unless the batch is full |
| Scheduler.RunIsSpaced | backend/src/monitoring/monitoring.scheduler.ts:136-175 | the claims of a run with the others' steps in between lead to its final table and are a run of the system, so the spacing holds for them |
| Scheduler.QuietClaims | backend/src/monitoring/monitoring.scheduler.ts:151-158 | undisturbed, exactly the due assets are marked and all claims succeed |
| Alerts.Deliver | backend/src/alerts/alerts.service.ts:254-275 | one entry for each channel whose threshold the alert meets, in order, with its first retry time |
| Alerts.ThresholdIs | backend/src/alerts/alert-rules.ts:76-78 | an alert meets a threshold if and only if its severity comes no later in the list from the gravest to the mildest |
| Alerts.FirstDeliveryOfOne | backend/src/alerts/alerts.service.ts:254-275 | one channel alone: its one send is the first attempt, with a retry after the base time if it failed and retries are left, or there is none |
| Alerts.FirstDeliveriesInOrder | backend/src/alerts/alerts.service.ts:254-275 | more channels are served one after the other, each for itself |
| Alerts.RetryItem | backend/src/alerts/alerts.service.ts:336-389 | an entry that is FAILED, due and has attempts left is sent, with its attempts, result and next time, or skipped if its channel is gone; any other one stays; and the counters count the sends by result |
| Alerts.RetriesAre | backend/src/alerts/alerts.service.ts:336-487 | an automatic retry and one on demand, on an entry: when it is sent, what is stored, and when it is tried again |
| Alerts.CountsAreSends | backend/src/alerts/alerts.service.ts:346-389 | retried is the number of due entries whose channel exists, succeeded of those whose send succeeded |
| Alerts.RetryAlert | backend/src/alerts/alerts.service.ts:336-389 | every entry of the list is retried as specified, in place, and the counters count the sends |
| Alerts.AlertStore.SelectAlerts | backend/src/alerts/alerts.service.ts:305-326 | the newest 50 delivered alerts of active organizations in the last 48 hours, all of them if there are fewer |
| Alerts.AlertStore.RetryFailedDeliveries | backend/src/alerts/alerts.service.ts:299-408 | the lists of the selected alerts are read once; alert by alert, with any writes of others in between, the retried copy replaces the list if an entry was touched; the number retried is succeeded plus failed |
| Alerts.CountersAddUp | backend/src/alerts/alerts.service.ts:332-397 | the counters of a run are the sums over its alerts |
| Alerts.QuietPass | backend/src/alerts/alerts.service.ts:332-397 | undisturbed, the selected alerts are retried entry by entry, and all others stay |
| Alerts.LateWriteWins | backend/src/alerts/alerts.service.ts:391-396 | whatever others stored before, a touched alert ends up as the run's own copy, unless they store it again afterwards |
| Alerts.Retry | backend/src/alerts/alerts.service.ts:413-487 | the retry on demand sends, or skips, exactly the FAILED entries of the channel that is asked for, or of all, leaves the others, and fails when there are none |
| Alerts.SettledForever | backend/src/alerts/alerts.service.ts:341-344 | for retries that come one after the other, sent and skipped entries are never touched again |
| Alerts.AttemptsAreSends | backend/src/alerts/alerts.service.ts:375-377 | for retries that come one after the other, the counter is the number of sends |
| AlertRetries.FaithfulIffNoneOvertaken | backend/src/alerts/alerts.service.ts:305-487 | over every interleaving of retry runs of an alert, counters are sends and settled entries are neither changed nor sent again, all along, if and only if no run writes back an outdated entry that it would undo or has sent, or breaks after a send |
| AlertRetries.StepIsFaithful | backend/src/alerts/alerts.service.ts:391-487 | the same for one step |
| AlertRetries.UpToDateRunsAreFaithful | backend/src/alerts/alerts.service.ts:305-487 | in particular when every list written back is the one that was read |
| AlertRetries.EntriesLive | backend/src/alerts/alerts.service.ts:305-487 | in those runs each entry goes through retries one after the other, as module Alerts has them, and its sends are theirs |
| AlertRetries.RetriesWithinLimit | backend/src/alerts/alerts.service.ts:336-344 | there the sends of an entry stay within the limit, plus one for each retry on demand |
| AlertRetries.SentAgain | backend/src/alerts/alerts.service.ts:305-396 | the run in which a retry on demand succeeds while a periodic run is under way, and the SENT entry is sent again and stored as FAILED, one send short |
| Alerts.AutomaticStaysWithinLimit | backend/src/alerts/alerts.service.ts:337-343 | attempts stay within the limit, plus one for each retry on demand |
| Alerts.ExhaustedStaysExhausted | backend/src/alerts/alerts.service.ts:337-343 | an exhausted entry is never sent automatically again |
| Alerts.BackoffLadder | backend/src/alerts/alerts.service.ts:18-27 | the waiting times double: each further attempt comes no earlier than its rung |
| Alerts.AutomaticDelivery | backend/src/alerts/alerts.service.ts:265-389 | from the first delivery on, at most maxRetries attempts, the n-th at least base (2^(n-1) - 1) after the first |
| Alerts.DemandHasNoLimit | backend/src/alerts/alerts.service.ts:463-478 | n failing retries on demand leave n more attempts, for every n |
| Alerts.OldEntriesCountDifferently | backend/src/alerts/alerts.service.ts:337-463 | an entry without a counter stands for one attempt automatically and for none on demand |
| Hostnames.SubdomainsFromCt | backend/src/discovery/hostnames.ts:22-45 | the loops, the sort and the cut give the answer determined by the set of sightings |
| Hostnames.FoldEntry | backend/src/discovery/hostnames.ts:26-41 | the map holds for each name whether some sighting was a wildcard, and the latest date |
| Hostnames.SortedHosts | backend/src/discovery/hostnames.ts:43 | every name once, in order |
| Hostnames.AlphabeticalIsStrict | backend/src/discovery/hostnames.ts:43 | comparing character by character is one of the orders the results hold for |
| Hostnames.CompleteListUnique | backend/src/discovery/hostnames.ts:22-45 | there is only one such list |
| Hostnames.OrderOfCertificatesIrrelevant | backend/src/discovery/hostnames.ts:22-45 | lists with the same entries, in any order and number, give the same answer |
| Hostnames.HostsAreSubdomains | backend/src/discovery/hostnames.ts:34-44 | only valid strict subdomains, none twice, at most max, and cut if and only if a name that was seen is not listed |
| Hostnames.LabelsOf | backend/src/discovery/hostnames.ts:14 | the labels of a name hold no dot and, joined by dots, are the name |
| Hostnames.HostnameOf | backend/src/discovery/hostnames.ts:14 | what a host name is, label by label: two or more, at most 253 characters, the last of 2 to 63 letters, the others of 1 to 63 letters, digits, underscores and inner hyphens |
| Hostnames.WordsOf | backend/src/discovery/hostnames.ts:27 | an entry is cut at every white space, and nowhere else |
| Hostnames.SightOfCandidate | backend/src/discovery/hostnames.ts:28-33 | a candidate name contributes itself, with *. in front as a wildcard, in any case and with or without a final dot |
| Hostnames.SightOfOthers | backend/src/discovery/hostnames.ts:28-33 | and nothing else contributes anything |

## Left out

- Network and process I/O (Nmap, HTTP and TLS probes, DNS, webhooks, mail, cloud connectors): their results are inputs.
- Database isolation: two `claimNext`, `start` or `advancePipeline` calls at once. Each is one serialised step here.
- Deletion of scans by the retention run is not a step of the queue system; `Retention.QueueUndisturbed` covers its effect on claims.
- A scan claimed while the process shuts down is not aborted by `abortAll`; the queue model lets it run on, crash or be swept. Cancelling a PENDING scan does not notify the pipeline; the batch then advances at the next request for it.
- Failed logins: the clocks of all processes agree; purges of old rows between overlapping requests, and requests that break between a wrong guess and its write, are not steps of `OverlappingLogins`.
- StaleRecordings.StaleBoundOverTime: is reached within one lockout; over longer times no run that reaches it is given.
- `isTransientScanError` and the texts stored with errors: whether an error is transient is an input.
- Lifecycle.FindingDesk.Review: notes, the assignee and the user who reviews are not stored; only whether the assignee is a member matters.
- Findings: titles, evidence, CVSS numbers, notes and assignees; the model keeps status, severity, category, dates, account and organization.
- Pipeline.DiagnosticOrchestrator.CompleteBatch: does not model the summary it stores, beyond the final status; `PostureDiff` takes its findings and ports as inputs.
- `getPostureDiff`: score delta, web application firewall, subdomain count and texts, which compare single values.
- Base32.DecorationIgnored: upper-casing is that of ASCII; a few other characters that JavaScript upper-cases to ASCII letters, such as the dotless i, are rejected by the model and accepted by the code.
- LoginProtection.LoginAttempts.Handle: refusals of inactive users and of unverified addresses are one outcome, and the checks of the intermediate token come before it.
- `calculateScoreStats` uses floating-point square roots; `Scoring.EvaluateScoreAnomaly` takes its mean and deviation as given tenths.
- `computeHybridRisk`, the history of scores with `collapseByDay`, catalogues, compliance tables, reports, heuristic triage and attack paths: finite tables, single branches or display.
- RiskScores.SnapshotOrganization: does not model the breakdown that is stored with the score.
- Retention.Database.RunRetention: leaves out tokens, audit entries and reports, one deletion by date each, and the status of the last run.
- `Hostnames`: `localeCompare` is any strict total order on names; lower-casing is that of ASCII.
- Controllers, DTO validation, authentication tokens, password hashing, organizations and the frontend.
