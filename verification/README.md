# Verification models for the crisis-mapping backend

These Dafny files model the coordination and the arithmetic at the centre of the backend, and prove
what they are meant to guarantee over every input and every run. `dafny verify dfyconfig.toml` checks
the whole project.

## What is modelled

**The report pipeline.** A committed report has GIS and AI jobs and a Redis counter, the
pending-step gate. `PendingStepGate.dfy` is the protocol as a transition system: every Redis
command, every message, every retry, redelivery, expiry, flush and swallowed error is an atomic
step, and a run is any interleaving of them. `DuplicateDispatch.dfy` is the code that executes those
commands (the marker, the two workers' retry wrappers, the two seeding routes, the reconciliation
sweep) as a class over the shared keys and queues, with lemmas that each marker and each execution
of a job follow the protocol; `SeedingProtocol.dfy` shows the same of the two routes and of a sweep
under any faults. `Reconciliation.dfy` is the sweep's query, what its re-drives achieve and when
repeated sweeps converge;
`PipelineColumns.dfy` ties the columns that query reads to the transactions that write them.

**The report life cycle.** `Reports.dfy` gives each transaction as a function of the report table,
the building table and the audit log, and runs over them; `DatabaseService.dfy` is the same
operations statement by statement, as a class whose every call is one event of such a run, so that
the whole-run results hold of its tables at all times. The whole-run results are in `AuditTrail.dfy`
(the log replays to the live state, and counts every operation), `StatusRules.dfy` (status, merge columns, trust tier),
`BuildingSeverity.dfy` (the derived severity), `DuplicateLinks.dfy` (the graph of merge links),
`ReviewPriority.dfy` (the queue priority), `ReporterConversation.dfy` (requests to the reporter and
their answers), `MergeReview.dfy` (scoring, confirming and rejecting as one workflow) and
`PhotoRetention.dfy` (the retention sweep against storage). `RowSteps.dfy` holds the frame lemmas they share.

**The algorithmic cores.** `PerceptualHash.dfy` and `DuplicateScorer.dfy` (Hamming distance,
weighted mean, rounding, sorting, thresholds), `RateLimit.dfy` (the fixed-window limiter over time,
with concurrent callers), `RefreshTokens.dfy` (single-use rotation), `Scenario.dfy` (cluster
partition, footprint assignment and the in-place repair of the simulation plan) and
`NumericRedaction.dfy` (the numeric pass of the free-text scrubber).

## Assumptions

- A worker whose retries are exhausted reaches the branch that handles `MaxRetriesExceededError`, as
  `gis_tasks.py` and `ai_tasks.py` write it.
- `_score_report_impl` is one atomic transaction: its status guard and its UPDATE see the same row.
- Each other operation of the life cycle is one transaction that commits or rolls back as a whole; the
  AI step is three of them (read, hash, result) with anything in between. Transactions take effect one
  after another: none reads before and writes after another that touches the same columns. A merge that
  read a photo key before the retention sweep cleared it and committed afterwards, for example, would
  leave a reference to a deleted photo; such overlaps are outside the run results.
- Identifiers of reports, refresh tokens and uploaded objects are fresh; hashing is injective.
- A `score_report` message is consumed by a completed scoring, or by one that fails for good, which is a
  loss like a swallowed error; a retried scoring leaves its message where it is.
- The convergence results speak of reports whose GIS and AI steps write their columns when they end, and
  whose photo stays as it is meanwhile. What follows when a step ends without writing is stated
  separately (below). Their sweeps are free of faults, one at a time; the re-drives of one sweep may come
  at any later moment in the order of the query, with everything else in between.
- A Redis key is gone from the instant its expiry is reached. Window lengths are positive.
- Distance is a parameter: any non-negative function where that is all a result needs, a symmetric one
  for symmetry. Arithmetic is exact over the rationals; `round(x, 6)` rounds half to even.
- Perceptual hashes hold plain hexadecimal digits or are malformed; Python's signs, underscores and
  `0x` prefixes in `int(x, 16)` do not occur.
- The share of duplicates given to the scenario generator is at most one. Its random draws and its
  shuffle are arbitrary.
- Scrubbed text is ASCII.

## Where the code does less than its documentation says

The models follow the code. Each of these is proved, with the exact condition under which the promise
holds.

- A swallowed Redis or broker error strands a report until the sweep finds it
  (`ExactlyOnceIffNothingLost`, `LostMarkerStrandsReport`).
- "Exactly once" does not survive a lost gate or a reseed: each step that was outstanding then dispatches
  (`ExactlyOnceDespiteExpiryIff`, `ReseedDispatches`, `DoubleDispatchIsReached`). The photo route reseeds
  on the ground that GIS has already run; while it has not, the report is scored once more for each
  outstanding step (`SingleReseedDispatches`).
- A GIS step that ends in an integrity error or with its retries exhausted writes nothing, so its report
  stays selected after every re-drive (`MissingAtRestIff`, `FailedGisStaysMissing`), and as many such
  reports as the sweep's limit keep every younger report out until they leave the age window
  (`FailingReportsStarveYounger`).
- A building's severity goes stale when a report is re-matched away from it, and when a manual merge
  revives a rejected report (`SeverityStepIff` and its two concrete inputs).
- Merges and confirmations do not check the primary, so links can form cycles (`ForestStepIff`,
  `SelfMergeMakesACycle`, `MutualConfirmIsReached`).
- A reporter's reply that arrives between the AI worker's read and write loses its priority
  (`ReplyStepIff`, `SplitWriteBuriesReply`).
- A merge between the retention query and the delete can make a newer report rely on a photo that the
  sweep then deletes (`ListedKeyIsReliedOnIff`, `MergedPhotoIsDeleted`).
- The distance for hashes of different lengths depends on which comes first
  (`SymmetricIffSameLength`).
- A caller that stops between INCR and EXPIRE leaves a bucket that never reopens
  (`StoppedCallerClosesTheBucket`).
- An empty region does not survive a refresh as an empty region; the access token is the same
  (`PayloadRoundTrip`, `RotationKeepsClaims`).

The docstring of `merge_reports` also refers to `_apply_auto_merge`, which no longer exists, and to a
scope check that the body does not make; the model follows the body.

## Model

| member | source | states |
|---|---|---|
| `PendingStepGate.GateNeverExceedsOutstanding` | app/workers/duplicate_dispatch.py:66-81 | over every interleaving of DECR, DELETE, SET, sends, retries, redelivery, expiry and flush in which no marker, job or send is lost, a present gate never exceeds the scheduled steps not yet marked |
| `PendingStepGate.LastMarkerDispatches` | app/workers/duplicate_dispatch.py:66-81 | in any such state the DECR of the last outstanding step finds the gate spent, so that worker deletes it and goes on to dispatch |
| `PendingStepGate.QuiescentRunIsScored` | app/workers/duplicate_dispatch.py:8-29 | when the workers and the scorer have stopped after a run without losses, a `score_report` was sent and a scoring completed after the last marker: scoring has seen every terminal step |
| `PendingStepGate.SinceLastMarkMeaning` | app/workers/duplicate_dispatch.py:8-29 | what the previous row means position by position: every marker in the history is followed by a send and by a completed scoring |
| `PendingStepGate.AtMostOnceAndNotEarly` | app/workers/duplicate_dispatch.py:66-81 | after one seeding and with no crash, expiry, flush or reseed, `score_report` is sent at most once, and not before every scheduled step is terminal, for any finishing order and any number of retries |
| `PendingStepGate.ExactlyOnceIffNothingLost` | app/workers/duplicate_dispatch.py:66-90 | in such a run, once the workers have stopped, it was sent exactly once if and only if no marker, job or dispatch was lost, and otherwise not at all |
| `PendingStepGate.EveryStepMakesProgress` | app/workers/ai_tasks.py:736-793 | with at most three retries per job, every step of a worker or of the scorer lowers one measure of the report |
| `PendingStepGate.RunsAreBounded` | app/workers/gis_tasks.py:297-341 | so a run without faults is no longer than the measure of its first state |
| `PendingStepGate.StuckOnlyAtRest` | app/workers/duplicate_dispatch.py:66-81 | the protocol never blocks: a state has no fault-free step exactly when all jobs are finished and all messages consumed |
| `PendingStepGate.LostMarkerStrandsReport` | app/workers/duplicate_dispatch.py:85-90 | concrete run: one swallowed Redis error at a marker ends with the gate at 1, nothing sent and nothing running |
| `PendingStepGate.DispatchesToRest` | app/workers/duplicate_dispatch.py:66-81 | from any state, however it was reached, a run to rest that loses no marker makes or loses exactly the dispatches owed plus one for each outstanding step beyond the gate's count; if a worker stands between a spent DECR and its DELETE under a newer gate, at least those and at most one per step |
| `PendingStepGate.ExactlyOnceDespiteExpiryIff` | app/workers/duplicate_dispatch.py:67-78 | a report seeded once whose gate is then lost is dispatched once per step still outstanding, so exactly once if and only if at most one was |
| `PendingStepGate.ExpiryDispatches` | app/workers/duplicate_dispatch.py:67-78 | from any state, losing the gate makes every outstanding step dispatch besides the dispatches already owed |
| `PendingStepGate.ReseedDispatches` | app/workers/reconciliation_tasks.py:146-168 | a reseed adds one dispatch to those owed and to the steps still outstanding, however many steps it seeds for, or more when it meets a stale DELETE; it adds exactly one if and only if nothing is outstanding or owed |
| `PendingStepGate.SingleReseedDispatches` | app/api/v1/routes/reports.py:479-487 | the photo route's reseed to one step meets no stale DELETE: every step still outstanding dispatches, and one more |
| `PendingStepGate.ExpiryDispatchesTwice` | app/workers/duplicate_dispatch.py:67-78 | concrete run from any state with two steps at their markers: a gate lost before them makes both dispatch |
| `PendingStepGate.DoubleDispatchIsReached` | app/workers/duplicate_dispatch.py:67-78 | the whole run from one seeding of two steps to rest with two dispatches |
| `DuplicateDispatch.Coordinator.MarkStepDoneAndMaybeDispatch` | app/workers/duplicate_dispatch.py:52-96 | gate and queue after the marker, for an outage at each of its commands; it never raises |
| `DuplicateDispatch.MarkFollowsProtocol` | app/workers/duplicate_dispatch.py:66-90 | the marker executes exactly the protocol's commands for its job, outages included, and leaves the shared state the protocol says |
| `DuplicateDispatch.MarkLeavesOthersAlone` | app/workers/duplicate_dispatch.py:65-78 | it touches no other report's gate or messages |
| `DuplicateDispatch.Coordinator.MatchBuilding` | app/workers/gis_tasks.py:261-341 | retried exactly when the attempt raised and retries remain; completion, integrity errors and exhausted retries all mark the step |
| `DuplicateDispatch.Coordinator.ProcessReportImage` | app/workers/ai_tasks.py:744-832 | retried exactly when the attempt raised and retries remain, otherwise the step is marked |
| `DuplicateDispatch.StepFollowsProtocol` | app/workers/ai_tasks.py:770-832 | one execution of a step is one protocol retry, or its finish followed by its marker, whether or not it had already committed its columns |
| `DuplicateDispatch.Coordinator.DispatchNewReport` | app/api/v1/routes/reports.py:276-294 | the gate is seeded before publishing, to 2 with a photo and 1 without; a failed seed publishes nothing; failed publications are swallowed |
| `DuplicateDispatch.Coordinator.DispatchPhoto` | app/api/v1/routes/reports.py:479-487 | a photo added later reseeds the gate to 1 and publishes the AI job alone |
| `SeedingProtocol.NewReportFollowsProtocol` | app/api/v1/routes/reports.py:276-294 | the route for a new report executes one protocol seeding and a publication or loss per job, from any state of the report; a failed seed executes nothing |
| `SeedingProtocol.PhotoFollowsProtocol` | app/api/v1/routes/reports.py:479-487 | the photo route executes a protocol seeding for the AI job alone, whatever jobs are still in flight |
| `DuplicateDispatch.Coordinator.ReconcileRow` | app/workers/reconciliation_tasks.py:146-190 | gate, messages and counters after one row of the sweep, with a failed seed skipping the row and a failed send raising |
| `DuplicateDispatch.Coordinator.ReconcileImpl` | app/workers/reconciliation_tasks.py:106-204 | the whole sweep: it returns exactly when no send failed, and its counters are then what was put on the queues |
| `DuplicateDispatch.RedrivenRun` | app/workers/reconciliation_tasks.py:150-190 | re-driving a row is a seeding followed by its publications, or one direct dispatch |
| `DuplicateDispatch.SweepRedrivesTheSelected` | app/workers/reconciliation_tasks.py:146-190 | a fault-free sweep re-drives exactly the missing stages of a selected report |
| `DuplicateDispatch.SweepLeavesOthersAlone` | app/workers/reconciliation_tasks.py:146-190 | under any faults it leaves the gate and messages of every report of which it handled no row as they were |
| `SeedingProtocol.RowFollowsProtocol` | app/workers/reconciliation_tasks.py:146-190 | one row under a failed seed or a failing send is a protocol seeding whose unsent jobs are lost, a direct dispatch, or nothing |
| `SeedingProtocol.SweepFollowsProtocol` | app/workers/reconciliation_tasks.py:106-204 | a whole sweep under any faults executes, for each report, the protocol actions of its row if that row was handled, and otherwise nothing |
| `Reconciliation.QuerySelectsExactly` | app/workers/reconciliation_tasks.py:75-98 | a row is returned exactly when its report is pending, inside the age window, missing a stage and among the first `limit` such; it names exactly the missing stages |
| `Reconciliation.QueryFollowsTable` | app/workers/reconciliation_tasks.py:96-97 | the rows come in creation order: a selected report's row stands after exactly one row for each stuck report ahead of it |
| `Reconciliation.SweepShowsTable` | app/workers/reconciliation_tasks.py:106-190 | running the sweep's loop over its query's rows leaves gate and messages of every report of the table as the re-driven table says |
| `Reconciliation.RedriveIsReconcileRow` | app/workers/reconciliation_tasks.py:146-190 | the same row by row: one iteration of the loop, at whatever moment it comes, is one re-drive of the table |
| `Reconciliation.RedrivenHeals` | app/workers/reconciliation_tasks.py:146-190 | whatever state a report's gate, jobs and messages are in, re-driving a row that names its missing stages, among others perhaps, puts everything missing on its way |
| `Reconciliation.HealingStep` | app/workers/gis_tasks.py:297-341 | a lossless step, crash, redelivery, expiry or reseed takes no missing stage off its way, unless it is a step that ends without writing its columns |
| `Reconciliation.HealedAtRest` | app/workers/reconciliation_tasks.py:75-98 | a healing report that comes to rest is missing nothing, or is no longer pending |
| `Reconciliation.MissingAtRestIff` | app/workers/gis_tasks.py:320-341 | a re-driven report at rest after any lossless run, and still pending, has been scored and misses exactly the stages that it missed before and that no step of the run wrote |
| `Reconciliation.FailedGisStaysMissing` | app/workers/gis_tasks.py:320-326 | concrete run: a GIS step that ends in an integrity error brings a re-driven report to rest, scored and as much without GIS as before |
| `Reconciliation.FaultFreeDrain` | app/workers/reconciliation_tasks.py:106-190 | from any state a finite fault-free run brings the report to rest |
| `Reconciliation.SweepClearsSelected` | app/workers/reconciliation_tasks.py:75-190 | a report past its grace period, after one sweep and any lossless run in which its steps write and its photo stays, with submissions, decisions and anything about other reports in between: if selected it is at rest without a missing stage, and if stuck it was stuck and not selected |
| `Reconciliation.SweepsConverge` | app/workers/reconciliation_tasks.py:75-190 | of the first m reports, if their own steps write, n stuck ones are cleared by k sweeps as soon as k * limit >= n, however many reports arrive and whatever happens to younger ones |
| `Reconciliation.OlderReportsAreNotStarved` | app/workers/reconciliation_tasks.py:96-97 | in creation order a report past its grace period is no longer stuck after k sweeps as soon as k * limit reaches the number of stuck reports up to it, if the steps of those reports write: younger reports never starve it |
| `Reconciliation.FailingReportsStarveYounger` | app/workers/reconciliation_tasks.py:87-97 | while as many reports as the limit are stuck inside the age window and their steps end without writing, no sweep selects any report after them |
| `Reconciliation.TablesStaySorted` | app/workers/reconciliation_tasks.py:96-97 | the table stays in creation order through sweeps, pipelines and submissions |
| `PipelineColumns.GisCommitFinishesStage` | app/workers/gis_tasks.py:216-242 | a committed match is the protocol's finished GIS step on the columns the sweep reads; an integrity error writes nothing |
| `PipelineColumns.GisMatchOnRow` | app/workers/gis_tasks.py:216-242 | a match writes building and confidence, no match writes confidence zero and keeps an earlier building, and nothing else of the row changes |
| `PipelineColumns.AiCommitFinishesStage` | app/workers/ai_tasks.py:574-672 | every outcome of the AI step, permanent failure included, counts as finished for the sweep |
| `PipelineColumns.HashOnRow` | app/workers/ai_tasks.py:546-552 | storing a hash changes the hash alone; one that could not be computed replaces none |
| `PipelineColumns.SubmissionStartsPipeline` | app/services/submission_service.py:433-478 | in every reachable state a submission succeeds exactly on a fresh id, and starts the protocol on a pending row with no stage done and an AI stage exactly when there is a photo |
| `PipelineColumns.SubmissionOnRow` | app/services/submission_service.py:433-478 | what scorer, workers and analysts read of a new report is what was submitted, unmatched, unhashed and unlinked, critical exactly when urgent |
| `PipelineColumns.ScoringIsScoreStep` | app/workers/duplicate_tasks.py:504-613 | a scoring transaction is the protocol's scoring step on those columns |
| `PipelineColumns.PhotoIsChange` | app/services/submission_service.py:549-618 | a photo added later is, on those columns, a change of photo that reopens the AI step; everything else of the row stays |
| `PipelineColumns.PhotoFailsIff` | app/services/submission_service.py:549-618 | adding a photo fails exactly for a missing report or a stranger, each with its error |
| `PipelineColumns.TransitionIsDecide` | app/services/analyst_service.py:591-601 | an analyst's status change takes the report out of `pending` and leaves the other columns |
| `PipelineColumns.MergeIsDecideAndChange` | app/services/analyst_service.py:752-784 | one duplicate of a manual merge, seen from any report: the duplicate is no longer pending, the primary may gain a photo, no other row changes |
| `PipelineColumns.RejectIsReopen` | app/services/analyst_service.py:1099-1120 | in every reachable state a rejected merge makes pending again a report that has been scored, and leaves the other columns |
| `PipelineColumns.AuditOnlyGrows` | app/workers/reconciliation_tasks.py:66-73 | no event removes or rewrites an audit row |
| `PipelineColumns.ScoredReportIsNotRescored` | app/workers/reconciliation_tasks.py:66-98 | in every reachable state a report that was once scored or held is never dispatched to scoring directly again; it is selected again if and only if it is pending inside the age window with GIS or AI columns missing |
| `AuditTrail.AuditReplaysToLiveState` | app/services/analyst_service.py:591-640 | in every reachable state the status rows of each report start at `pending` and replay without a gap to its current status |
| `AuditTrail.ReplayIsAChain` | app/services/analyst_service.py:591-640 | what a successful replay says: each before-status is the previous after-status, the first has none, the last is the result |
| `AuditTrail.AuditCountsOperations` | app/services/analyst_service.py:591-640 | over any run the log gains, for every operation and report, exactly as many rows as the operation succeeded on it: none is lost, doubled or signed as another operation |
| `StatusRules.ReachableRowsAreGood` | app/workers/duplicate_tasks.py:356-371 | in every reachable state a held report names another existing report with score at least 0.9, a merge link implies `duplicate`, and the trust tier is within one of its start |
| `StatusRules.ConfirmNeverLacksPrimary` | app/services/analyst_service.py:1027-1040 | in every reachable state confirming succeeds exactly on held reports: the missing-primary error never fires |
| `StatusRules.DecidedStaysDecided` | app/services/analyst_service.py:140-144 | over any run `duplicate` is terminal and a decided report returns neither to pending nor to merge review |
| `StatusRules.StepEdge` | app/services/analyst_service.py:571-601 | the only status changes any event can make |
| `StatusRules.TransitionSucceedsIff` | app/services/analyst_service.py:540-590 | a transition succeeds exactly from pending to verified, rejected or duplicate, from rejected to verified and from verified to rejected, with one of five reasons for a rejection; otherwise it fails with the error given |
| `StatusRules.TransitionSparesHeldAndDuplicates` | app/services/analyst_service.py:136-143 | whatever is transitioned, held reports, duplicates and every other report stay as they are, and the report itself changes in status and tier only |
| `StatusRules.DecisionMovesTier` | app/services/analyst_service.py:603-607 | verifying moves the tier up by one and rejecting down by one, between 0 and 2; marking a duplicate leaves it |
| `StatusRules.TierStaysWithinOneIff` | app/services/analyst_service.py:603-607 | however long verify and reject alternate the tier stays within one of its start, exactly for starts from 0 to 2 |
| `StatusRules.VerdictPicksCandidate` | app/workers/duplicate_tasks.py:566-602 | a held or flagged report points at one of the candidates it was scored against, with the score its threshold asks for |
| `StatusRules.RescoringIsIdempotent` | app/workers/duplicate_tasks.py:504-613 | scoring twice against the same candidates leaves the reports as scoring once |
| `StatusRules.ScoringRespectsDecisions` | app/workers/duplicate_tasks.py:504-520 | scoring a report that is no longer pending changes nothing; scoring a pending one leaves the mark and touches no other report |
| `BuildingSeverity.WorstMeaning` | app/services/analyst_service.py:694-711 | the stored value is the greatest severity among the non-rejected reports of the building, and `none` exactly when there are none |
| `BuildingSeverity.RecomputeInPython` | app/services/analyst_service.py:694-711 | the fold over the rows, in whatever order they come, computes that value |
| `BuildingSeverity.SqlAgreesWithPython` | app/services/gis_service.py:277-303 | the first row of the descending order gives the same value, whichever of the equal rows comes first |
| `BuildingSeverity.MatchKeepsIff` | app/workers/gis_tasks.py:216-232 | a match keeps every stored severity exact unless it moves a counting report off a building whose stored value rested on it alone |
| `BuildingSeverity.MergeKeepsIff` | app/services/analyst_service.py:752-784 | a manual merge, which does not recompute, keeps them exact unless it revives a rejected report worse than what is stored |
| `BuildingSeverity.SeverityStepIff` | app/services/analyst_service.py:609-610 | per event: exact severities stay exact if and only if the event is not one of those two |
| `BuildingSeverity.SeverityAlwaysExact` | app/services/analyst_service.py:677-712 | from an empty table, over any run without those two events, every stored severity equals recomputation |
| `BuildingSeverity.CarefulCallersDoNotDisturb` | app/services/analyst_service.py:720-765 | matching each report to one building and merging no rejected report avoids both |
| `BuildingSeverity.RematchLeavesStaleSeverity` | app/workers/gis_tasks.py:217-232 | concrete input: a report matched away leaves its old building marked destroyed |
| `BuildingSeverity.MergingRejectedLeavesStaleSeverity` | app/services/analyst_service.py:752-766 | concrete input: merging a rejected destroyed report leaves its building too low |
| `DuplicateLinks.LinkKeepsForestIff` | app/services/analyst_service.py:765-766 | one link from r to p keeps the links a forest if and only if following links from p does not arrive at r |
| `DuplicateLinks.MergeKeepsForestIff` | app/services/analyst_service.py:752-784 | a manual merge of any list of duplicates keeps the forest if and only if following links from the primary arrives at none of them |
| `DuplicateLinks.ConfirmKeepsForestIff` | app/services/analyst_service.py:1027-1049 | a confirmation keeps the forest if and only if following links from the possible primary does not arrive at the confirmed report |
| `DuplicateLinks.ForestStepIff` | app/services/analyst_service.py:752-784 | per event, over all operations: the links stay a forest if and only if the event is not such a merge or confirmation |
| `DuplicateLinks.ForestUnlessClosed` | app/services/analyst_service.py:752-784 | from any state whose links are a forest, they stay one over any run without such an event |
| `DuplicateLinks.NoCycles` | app/services/analyst_service.py:765-766 | a forest has no cycle of any length |
| `DuplicateLinks.EveryChainEnds` | app/services/analyst_service.py:765-766 | in a forest the chain from any report ends at one without a link |
| `DuplicateLinks.LinksFormAForest` | app/services/analyst_service.py:1035-1040 | over any run whose merges and confirmations name a primary that is another report and not a duplicate, links have no cycle and every chain ends |
| `DuplicateLinks.SelfMergeMakesACycle` | app/services/analyst_service.py:752-766 | concrete input: the code accepts merging a report into itself |
| `DuplicateLinks.MutualConfirmMakesACycle` | app/services/analyst_service.py:1035-1040 | two reports held against each other and both confirmed point at each other, from any such state |
| `DuplicateLinks.MutualConfirmIsReached` | app/workers/duplicate_tasks.py:504-602 | a whole run from the empty database reaches that cycle: two alike reports submitted, matched, scored against each other and both confirmed |
| `ReviewPriority.UrgentStaysCritical` | app/services/submission_service.py:449-453 | an urgent report is `critical` in every reachable state, wherever other steps fall between the AI worker's read and write |
| `ReviewPriority.ReplyStepIff` | app/workers/ai_tasks.py:574-672 | per event: replies stay at least `high` if and only if no AI write meets a reply that its read did not see, with no urgent answer and metrics that ask for less than `high` |
| `ReviewPriority.BelowHighIff` | app/workers/ai_tasks.py:217-310 | the written priority is below `high` exactly for a snapshot without reply or urgent answer, usable quality, confidence of at least 0.8 and no divergence |
| `ReviewPriority.WrittenPriorityIff` | app/workers/ai_tasks.py:217-310 | which of the four priorities an AI write leaves, for every outcome and snapshot, with the thresholds as numbers, and what else of the row it writes |
| `ReviewPriority.RepliesStayHigh` | app/services/submission_service.py:752-757 | when no reply to a report falls between the read and the write of an AI step on it, whatever else does, a report with an open reply is at least `high` in every reachable state |
| `ReviewPriority.RepliesStayHighUnlessBuried` | app/workers/ai_tasks.py:495-672 | from any state in which open replies are at least `high`, they stay so over any run without a write that buries one |
| `ReviewPriority.SplitWriteBuriesReply` | app/workers/ai_tasks.py:495-672 | concrete run: a reply between read and write ends at priority `low` |
| `ReviewPriority.FloorHolds` | app/workers/ai_tasks.py:217-235 | whatever the vision result, the written priority respects the answers in the snapshot |
| `ReviewPriority.FloorIsLeast` | app/workers/ai_tasks.py:217-235 | the floor never lowers what the AI metrics ask for and adds no more than the answers do |
| `ReporterConversation.RequestSucceedsIff` | app/services/analyst_service.py:846-884 | a request succeeds exactly with a message, on an existing report that is pending or held |
| `ReporterConversation.ReplyFailsWith` | app/services/submission_service.py:735-750 | a reply succeeds exactly with text, by the owner, on a report that waits for one; each of the four failures has its error |
| `ReporterConversation.OneAnswerPerRequest` | app/services/analyst_service.py:850-912 | after a request the owner's reply succeeds, a second reply fails with no open request, and after the next request a reply succeeds again |
| `ReporterConversation.ConversationFrame` | app/services/submission_service.py:752-757 | requests and replies change nothing else, except that a reply raises a priority below `high` to `high` and never lowers one |
| `ReporterConversation.ReplyAcceptedIff` | app/services/submission_service.py:740-773 | in every reachable state, whatever came in between, the owner's reply is accepted exactly when the last of the successful requests and answers so far was a request |
| `MergeReview.CandidatesAreMutual` | app/workers/duplicate_tasks.py:175-310 | two reports that are no duplicates are candidates for each other exactly when made within three days |
| `MergeReview.CandidateListMeaning` | app/workers/duplicate_tasks.py:175-310 | what a candidate list may be: at most 500 other reports, each once, no duplicates, within three days |
| `MergeReview.ScorerReadsColumns` | app/services/duplicate_service.py:261-293 | which columns of the two reports the score compares, each against its counterpart |
| `MergeReview.ScoringWrites` | app/workers/duplicate_tasks.py:504-613 | a pending report scored at 0.6 or more names the earliest of the best candidates with its score, and is held exactly from 0.9 with building and coordinates on both sides; otherwise its row stays |
| `MergeReview.NoCandidatesNoChange` | app/workers/duplicate_tasks.py:504-613 | scoring without candidates changes no report |
| `MergeReview.RejectUndoesHold` | app/services/analyst_service.py:1072-1120 | rejecting a queued merge undoes the scoring that queued it, up to an earlier flag |
| `MergeReview.ConfirmIsMerge` | app/services/analyst_service.py:1027-1049 | confirming leaves the tables as merging the report by hand into the primary it names, except that it names no possible primary any more |
| `MergeReview.MergedRow` | app/services/analyst_service.py:752-784 | one merged duplicate is linked and keeps the rest; the primary may gain a missing photo; no other row changes |
| `MergeReview.ResolveFailsIff` | app/services/analyst_service.py:1024-1040 | when confirming and rejecting fail, and with which error |
| `MergeReview.MergeSucceedsIff` | app/services/analyst_service.py:752-793 | a manual merge succeeds exactly when the primary and all duplicates exist, whatever their status |
| `DatabaseService.Database.Guarantees` | app/services/analyst_service.py:509-640 | after any sequence of calls in any order: the audit log replays to the live status, held, linked and urgent reports are as they should be, and severities, links and replies are in order unless a call was of the kinds that disturb them |
| `DatabaseService.Database.CreateReport` | app/services/submission_service.py:433-478 | one submission event of the run the tables are kept in step with: row, creation audit row and initial priority, or an integrity error and no change |
| `DatabaseService.Database.RefusePhoto` | app/services/submission_service.py:370-391 | one event of that run: an audit row without status and nothing else |
| `DatabaseService.Database.AddPhotoToReport` | app/services/submission_service.py:549-618 | one event of that run: photo columns and audit row, or the not-found or ownership error and no change |
| `DatabaseService.Database.AddReporterFollowup` | app/services/submission_service.py:740-773 | one event of that run: reply time, raised priority and audit row exactly when the owner answers a waiting report with text, or one of its four errors and no change |
| `DatabaseService.Database.MatchBuilding` | app/workers/gis_tasks.py:216-242 | one event of that run: building, confidence and the severity recomputed in SQL order, or an integrity error and no change |
| `DatabaseService.Database.UpdateBuildingSeverity` | app/services/gis_service.py:261-303 | the UPDATE's effect on the building table, by its subquery's first row |
| `DatabaseService.Database.RecomputeBuildingSeverity` | app/services/analyst_service.py:677-712 | the analyst side's effect on the building table, by its fold |
| `DatabaseService.Database.StoreHash` | app/workers/ai_tasks.py:546-552 | one event of that run, between the read and the write of an AI step |
| `DatabaseService.Database.ReadForAi` | app/workers/ai_tasks.py:495-517 | one event of that run: the answers the AI worker takes with it are those of the row at that moment |
| `DatabaseService.Database.WriteAiResult` | app/workers/ai_tasks.py:574-672 | one event of that run: the write of the step whose earlier read took these answers, whatever has happened to the row since; it leaves `critical` and `high` exactly under the conditions of `WrittenPriorityIff` |
| `DatabaseService.Database.LoadCandidates` | app/workers/duplicate_tasks.py:175-310 | a candidate list: at most 500, distinct, no duplicates, not the report itself, inside the time window; exactly the building rows of a matched report plus the proximity rows when those are asked for |
| `DatabaseService.Database.ScoreReport` | app/workers/duplicate_tasks.py:490-613 | one scoring event of that run, with a candidate list the queries can give: the loop, sort and writes reach the verdict's row and audit row |
| `DatabaseService.Database.TransitionReportStatus` | app/services/analyst_service.py:509-640 | one event of that run: status, trust tier, severity recomputed by the fold and audit row, or the first failing check's error and no change; it succeeds exactly for the pairs of `TransitionSucceedsIff` |
| `DatabaseService.Database.MergeReports` | app/services/analyst_service.py:720-793 | one event of that run: the loop links, inherits and audits all duplicates, or none of them when any id is missing |
| `DatabaseService.Database.ConfirmPendingMerge` | app/services/analyst_service.py:992-1062 | one event of that run, which succeeds exactly on held reports: the missing-primary error never fires |
| `DatabaseService.Database.RejectPendingMerge` | app/services/analyst_service.py:1072-1120 | one event of that run: the held report is pending again without candidate or score, or an error and no change |
| `DatabaseService.Database.RequestMoreInfo` | app/services/analyst_service.py:850-912 | one event of that run: the report waits for a new answer, with an audit row, or an error and no change |
| `PerceptualHash.HammingIsDigitwise` | app/services/duplicate_service.py:212-213 | the integer XOR of two equal-length hashes of any length has as many one bits as the digits differ in, added up |
| `PerceptualHash.HammingIsMetric` | app/services/duplicate_service.py:193-213 | on equal-length hashes: symmetry, zero exactly for the same digits, triangle inequality |
| `PerceptualHash.SymmetricIffSameLength` | app/services/duplicate_service.py:204-210 | the distance is symmetric exactly when the lengths agree |
| `PerceptualHash.MismatchIsMaximum` | app/services/duplicate_service.py:200-210 | the fallback value is the largest that hashes of the first one's length can reach |
| `PerceptualHash.DistanceSignalShape` | app/services/duplicate_service.py:234-239 | in [0, 1], never rising with the distance, 1 exactly up to 10 bits and 0 exactly from 30, and a twentieth less for each bit in between |
| `PerceptualHash.ImageSignalMeaning` | app/services/duplicate_service.py:216-239 | two hashes of one length count by the bits in which their digits differ; a pair that is absent, empty or malformed counts nothing |
| `PerceptualHash.DigitValueMeaning` | app/services/duplicate_service.py:212 | the sixteen digits of a hash, in either case |
| `PerceptualHash.ImageSignalRange` | app/services/duplicate_service.py:216-239 | in [0, 1] for any pair, absent, malformed or of different lengths included |
| `DuplicateScorer.AddingASignalPullsTheMean` | app/services/duplicate_service.py:285-293 | a missing signal is neutral: making it available moves the mean towards it and never past it |
| `DuplicateScorer.CompositeInRange` | app/services/duplicate_service.py:261-293 | the pair score is in [0, 1] |
| `DuplicateScorer.CompositeIsPoints` | app/services/duplicate_service.py:242-293 | the score in closed form over the two reports' columns: the points for building, distance, photo and categories out of what both have data for; zero without building and coordinates on both sides |
| `DuplicateScorer.OneCategoryIsHalf` | app/services/duplicate_service.py:242-258 | either category alone counts as much as the other and half of what both count |
| `DuplicateScorer.CategoriesDecide` | app/services/duplicate_service.py:390-421 | a pair at one point on one building without photo hashes scores 1, 0.9375 or 0.875 by the number of categories in agreement, and is queued for merge review exactly when that is at least one |
| `DuplicateScorer.CompositeSymmetric` | app/services/duplicate_service.py:261-293 | the pair score does not depend on the order of the two reports when their hashes have one length |
| `DuplicateScorer.RoundingError` | app/services/duplicate_service.py:382 | six-digit rounding is off by at most half a unit |
| `DuplicateScorer.RoundHalfToEven` | app/services/duplicate_service.py:382 | a tie goes to the even neighbour, and a score of six digits stays as it is |
| `DuplicateScorer.RoundMonotone` | app/services/duplicate_service.py:382 | rounding keeps the order of scores |
| `DuplicateScorer.SortedIsSorted` | app/services/duplicate_service.py:390-392 | the sort is a permutation in descending order headed by the earliest best candidate |
| `DuplicateScorer.Score` | app/services/duplicate_service.py:321-421 | the loop and sort give the verdict defined without them, and the full descending list; what that verdict is follows in `VerdictMeaning` and `CompositeIsPoints` |
| `DuplicateScorer.VerdictMeaning` | app/services/duplicate_service.py:390-421 | the verdict rests on the earliest of the highest scores, which is in [0, 1]; below 0.6 is independent, a merge is queued exactly from 0.9 with building and coordinates on both sides, and the candidate is named exactly when the action is not independent |
| `DuplicateScorer.NoCandidates` | app/services/duplicate_service.py:321-421 | without candidates a report is independent with score zero |
| `DuplicateScorer.MergeReviewIsClose` | app/services/duplicate_service.py:401-411 | a queued merge shares the primary's building and lies within 50/3 m, or 40/3 m without two photo hashes, up to the rounding |
| `DuplicateScorer.MergeDistanceIsSharp` | app/services/duplicate_service.py:261-293 | both distances are exact: with all else in agreement the threshold is met if and only if the pair is that close |
| `PhotoRetention.ExpiredKeysMeaning` | app/workers/retention_tasks.py:55-63 | the grouped query's keys are those that some report refers to and no report at or after the cutoff does |
| `PhotoRetention.PhotoStore.Purge` | app/workers/retention_tasks.py:78-133 | the query's keys, longest unused first, storage and table after the loop over them, the summary's counters, no change when disabled or dry, and no photo deleted that a report at or after the cutoff points at when the query is made |
| `PhotoRetention.ExpiredByLastUse` | app/workers/retention_tasks.py:55-63 | the same as HAVING puts it: a key is expired exactly when the newest report that refers to it is older than the cutoff |
| `PhotoRetention.PurgedMeaning` | app/workers/retention_tasks.py:115-128 | row by row: exactly the references to keys that storage deleted are cleared, so a failed delete changes nothing |
| `PhotoRetention.PurgeKeepsReferencesLive` | app/workers/retention_tasks.py:115-128 | after every iteration each remaining reference points at an existing object, also for keys that a merge put on several reports |
| `PhotoRetention.ListedKeyIsReliedOnIff` | app/workers/retention_tasks.py:17-22 | a listed key is relied on by a report at or after the cutoff when it is deleted if and only if a merge or confirmation since the query handed it to such a report, which was given no other photo, whatever scorings, decisions and other changes fall in between |
| `PhotoRetention.MergedPhotoIsDeleted` | app/services/analyst_service.py:768-770 | concrete run: a merge between the query and the delete makes the sweep delete a photo that a new report relies on |
| `PhotoRetention.SweepsEmptyTheExpiredSet` | app/workers/retention_tasks.py:102-128 | k failure-free sweeps leave exactly the expired keys beyond k * limit |
| `PhotoRetention.NoDanglingReferences` | app/services/analyst_service.py:768-770 | whatever uploads, merges, confirmations and other changes to rows fall between the sweep's delete and clear, no reference dangles once no key is between the two |
| `RateLimit.WindowLetsThroughItsFirst` | app/services/auth_service.py:382-390 | with any number of callers and stops between INCR and EXPIRE, each window lets through its first `limit` calls and no other |
| `RateLimit.AtMostTwiceTheLimit` | app/services/auth_service.py:382-390 | at most 2 * limit calls are let through in any closed interval of one window length |
| `RateLimit.TwiceTheLimitIsReached` | app/services/auth_service.py:382-390 | for every positive limit and window length a run that meets that bound |
| `RateLimit.BucketReopens` | app/services/auth_service.py:382-385 | in any run, a bucket whose expiry was set begins a new window and lets calls through again one window length later at the latest |
| `RateLimit.StoppedCallerClosesTheBucket` | app/services/submission_service.py:207-220 | only a caller that stops leaves a counter without expiry, and such a bucket at its limit never lets a call through again |
| `RateLimit.RateLimiter.CheckRateLimit` | app/services/auth_service.py:361-390 | a call is let through exactly when the count it saw is within the limit, and strands the key exactly when it began the window and stopped |
| `RefreshTokens.PayloadRoundTrip` | app/services/auth_service.py:879-932 | writing a payload and reading it back returns the account, exactly when its region is not the empty string |
| `RefreshTokens.ClaimsMeaning` | app/services/auth_service.py:879-885 | what a token says of its subject, entry by entry, for each of the five roles |
| `RefreshTokens.IncompletePayload` | app/services/auth_service.py:919-924 | a payload without a tier reads back with tier 0; one without subject or role, or with an unknown role, does not read back |
| `RefreshTokens.ConsumedAtMostOnce` | app/services/auth_service.py:911-926 | under any interleaving no token is consumed twice, and presenting a consumed one changes nothing |
| `RefreshTokens.OneDescendantPerLogin` | app/services/auth_service.py:911-938 | the live tokens and unfinished rotations that descend from one login never exceed one |
| `RefreshTokens.RotationKeepsClaims` | app/services/auth_service.py:926-938 | subject, role, tier and region of every access token built by a rotation are those of the access token built at login |
| `RefreshTokens.LoginIsNeverLost` | app/services/auth_service.py:911-938 | while nothing expires and no rotation is cut off, exactly one token or unfinished rotation descends from each login |
| `RefreshTokens.TokenStore.RotateRefreshToken` | app/services/auth_service.py:888-941 | succeeds exactly on a live token, which its successor replaces with the same payload; otherwise nothing changes |
| `Scenario.PartitionClusters` | simulation/scenario.py:129-143 | the loop ends with consecutive clusters of at least two that cover the identities exactly, a lone identity making none; every cluster but the last has its drawn size |
| `Scenario.OneClusterEach` | simulation/scenario.py:131-143 | the clusters are disjoint |
| `Scenario.CoveredExactly` | simulation/scenario.py:131-143 | they cover the identities below their total size and no other |
| `Scenario.IndexClusters` | simulation/scenario.py:145-150 | the two lookup tables name exactly the clustered identities, each with its cluster and that cluster's first member |
| `Scenario.IndexInRange` | simulation/scenario.py:163-194 | with at least as many footprints as reports every footprint index is in range |
| `Scenario.PlanReports` | simulation/scenario.py:155-210 | the running index hands out the footprints after the clusters' in turn, one per report outside the clusters |
| `Scenario.SameFootprintIffSameCluster` | simulation/scenario.py:163-194 | two different reports are given the same footprint exactly when they are in the same cluster |
| `Scenario.RepairCluster` | simulation/scenario.py:222-229 | the swaps put the canonical report ahead of every other member, keep the plan a permutation with `pos` its exact inverse, and move no other report |
| `Scenario.Repair` | simulation/scenario.py:219-229 | after the nested loops the same holds for every cluster at once, and reports outside the clusters are where the shuffle put them |
| `Scenario.CompleteIsTruthful` | simulation/scenario.py:163-210 | in a finished plan each cluster has exactly one canonical report, which all members name and none precedes; members carry their cluster and show its footprint, other reports carry none, are not canonical, and show theirs exactly when they have GPS |
| `Scenario.Generate` | simulation/scenario.py:109-234 | fails exactly when footprints are short; otherwise every identity is planned once, as drafted, numbered by arrival, with the ground truth of `CompleteIsTruthful`, and every duplicate arrives after its canonical report, shuffled or not |
| `NumericRedaction.MatchIsLongest` | app/services/export_service.py:123 | the scanner finds a match exactly when the pattern has one, and the longest |
| `NumericRedaction.ScrubbedIsClean` | app/services/export_service.py:133-152 | in the scrubbed text no run of digits and separators holds seven digits |
| `NumericRedaction.ScrubChangesOnlyLongRuns` | app/services/export_service.py:133-152 | the pass changes a text exactly when some run in it holds seven digits |
| `NumericRedaction.ScrubIsIdempotent` | app/services/export_service.py:140-152 | the numeric pass is idempotent |
| `NumericRedaction.ScrubSplits` | app/services/export_service.py:151 | around a character that is no digit, separator or plus sign the two sides are scrubbed as if they stood alone |
| `NumericRedaction.LongRunIsRedacted` | app/services/export_service.py:133-137 | a run with seven digits or more keeps its outer separators and has everything from first to last digit replaced by `[redacted-number]` |
| `NumericRedaction.PlusIsRedacted` | app/services/export_service.py:123 | a plus sign in front of such a run goes with it |
| `NumericRedaction.RunCharacters` | app/services/export_service.py:123 | the ASCII characters a run may consist of |
| `NumericRedaction.FreeTextLeavesClean` | app/services/export_service.py:140-152 | free text leaves the numeric pass clean, clean text unchanged, and no text as none |

## Left out

- `_write_audit_log` payloads other than the status, analyst notes, AI feedback rows and the texts of requests and replies: no rule depends on them.
- `set_severity_override`, accuracy metrics, statistics caches, heatmaps and alert digests: queries and short arithmetic over the same tables.
- Vision, moderation, storage, geocoding and notification clients: their outcomes are parameters or separate events.
- The rate-limit check inside `create_report`: modelled on its own in `RateLimit.dfy`.
- PostGIS geometry, candidate search radius and match probabilities: the rows a query returns are a parameter constrained by its filters.
- Gate and token expiry as durations: expiry is a step that may happen at any time. Only the limiter measures time.
- The non-atomic GETDEL fallback for old Redis clients, JWT signing, the denylist and logout.
- A stored refresh payload that is not valid JSON: every stored payload is one the service wrote.
- `building_score`, `gps_score`, `image_score` and `category_score` of a scored candidate: reported, not used.
- A failed retry-exhausted update in `process_report_image`: the write event may simply not happen.
- Images, language, crisis type and coordinates of planned reports: drawn, never compared.
- The email and URL passes of `scrub_free_text`: only the numeric pass has the properties above; the three passes together are not claimed idempotent.
- CSV, GeoJSON and Shapefile export, routes other than the two that seed the gate, middleware, migrations and configuration: plumbing.
- DatabaseService.Database.CreateReport: moderation and storage outcomes reach it as a photo key or its absence, because they are foreign calls.
- DuplicateDispatch.Coordinator.ReconcileImpl: takes the query's rows as an argument; `StuckQuery` is the query.
