# Formal model of the ThreadPilot back end and client algorithms

ThreadPilot schedules posts for Threads accounts, publishes them, follows their metrics and learns from
them. Most of its code is workers and services that meet in one PostgreSQL database, and most of what can
go wrong lies between their statements. This project models that code in Dafny and proves what it keeps in
every interleaving, together with the calendar, text and rule algorithms that have an exact specification.

How the model is built:

* **Protocols.** Each SQL statement or transaction is one atomic step on a shared state. What a worker or
  caller has read stays with it as local state until its next step. Workers may crash between any two
  steps, clocks are free to advance, and a run is any sequence of enabled steps. Clock readings of the
  application and of the database are separate parameters of the steps.
* **Imperative code.** Classes and loops of the source are classes and loops here. Each method is proved
  against a function or a protocol step, and the theorems are about those.
* **Answers from outside** (the platform, the queue, queries whose text is not modelled, drawn ids and
  tokens) are parameters. Tokens and ids are fresh when drawn.

| files | what they model |
|---|---|
| `AnalyticsTables`, `ObservationProtocol`, `ObservationSafety`, `ObservationRetry`, `AnalyticsStore` | metric observations: leases, heartbeats, fenced captures, retries, the sweeper |
| `AnalyticsPipeline`, `AnalyticsPipelineSafety`, `AnalyticsPipelineTheorems`, `AggregationLoops` | the chain from captures through aggregation runs to insights and profile learning |
| `ScheduleStatus`, `PublishingTables`, `PublishingProtocol`, `PublishingSteps`, `PublishingSafety`, `PublishingRuns`, `PublishingTwice`, `PublishingAge`, `PublishingRecords`, `PublishingGuard`, `PublishingOutcomes`, `PublishingServices`, `PublishingWitnesses`, `ContentService` | scheduling, publishing workers, cancelling, resolving, reconnecting, deleting, the stale-lease sweep, the import of posts |
| `Quarantine` | the clean-up script before the scheduling migration |
| `RefreshTokens`, `SingleFlight` | rotation of refresh tokens, and their use in the browser client |
| `Proposals` | applying profile adaptation proposals |
| `ReplyIngest`, `ReplyIngestSafety`, `ReplyIngestLoop` | ingestion of replies and the scan of its stale leases |
| `Calendar`, `IsoWeek`, `WallClock`, `SseSplitter`, `RuleConditions` | week labels, wall-clock conversion, stream splitting, rule conditions |

## What the proofs found

These are places where the code does less than its comments or names suggest. Each has a lemma with the
exact condition or a concrete run.

* **A draft can be sent to the platform twice.** One schedule is sent at most once
  (`PublishingSafety.AtMostOneCall`), a draft and account need not be. As long as the draft is not published
  to the account, another schedule can always follow one that was sent, and even after that a scheduling
  call past its checks or a blocked schedule can (`PublishingTwice.SecondCallIff`). Four ways are shown: the
  first schedule ends in AUTH_REQUIRED, which the partial unique index does not cover; an operator takes it
  for unpublished; a scheduling call checked before the publication and inserts after it; and a reconnect
  puts a blocked schedule back whose replacement has been published
  (`PublishingWitnesses.OpenAfterLostAuthorization`, `OpenAfterCancellation`, `OpenAfterPublication`,
  `OpenAfterReplacement`).
* **A schedule sent and then in AUTH_REQUIRED is stuck**: nothing changes it any more, and deleting its draft
  is all that removes it (`PublishingSafety.TracedAuthIsStuck`).
* **Deleting a draft can lose a post.** The deletion checks the schedules before its transaction and deletes
  them whatever they have become. It takes a schedule from its worker exactly when it had found it blocked
  without a trace and nothing else refers to the draft (`PublishingSafety.DeletedUnderExecutionIff`); a
  schedule already sent can go that way (`PublishingWitnesses.SentScheduleCanBeDeleted`). Its draft then never
  has a post (`PublishingSafety.DeletedIsNeverPosted`); ingestion may import the post under a draft of its own.
* **Importing a post can keep its schedule from ever being published.** Ingestion registers posts it finds on
  the platform; the unique index on the post then refuses the worker's last transaction and an operator's
  confirmation alike (`PublishingRecords.CanBeRecordedIff`, `PublishingWitnesses.PostCanBeImportedFirst`).
* **A crash skips the guard against late first executions.** The guard asks whether the claim came from
  SCHEDULED; after a crash in between the next claim comes from CLAIMED, and only the limit of a day is left
  (`PublishingWitnesses.LateGuardCanBeSkipped`, `PublishingAge.FurtherCallInDay`). With the clocks in step a
  late schedule is sent in no other way than after such a stop or an exception at the guard
  (`PublishingGuard.LateIsSentOnlyAfterStop`); where the guard is reached it holds
  (`PublishingGuard.LateFirstExecutionIsStopped`).
* **Reconnecting can fail as a whole.** Its last update violates the partial unique index exactly when a
  blocked schedule competes with another one of its draft (`PublishingSafety.ReconnectFailsIff`,
  `PublishingWitnesses.ReconnectCanFail`), and then the OAuth transaction is rolled back.
* **A recovery can be silent.** The sweeper's retry key uses the attempt count it read earlier, so two
  sweepers can leave an observation FAILED without a new retry row (`ObservationRetry.RecoveryIsFreshIff`,
  `ObservationRetry.RecoveryCanBeSilent`).
* **A 429 with a retry-after of zero or less ends an observation as MISSED** although its window is open
  (`ObservationRetry.RateLimitRetriesIff`, `ObservationRetry.ZeroHeaderMisses`).
* **Insight keys have no bucket date**, so two months of one dimension value share a row and the reported
  count exceeds the rows written (`AnalyticsPipelineTheorems.CountIsOfRowsIff`,
  `AnalyticsPipelineTheorems.CountCanExceedRows`).
* **The profile version does not see learning cycles**: an apply call overwrites what a cycle has computed
  since the proposal was read (`Proposals.LearningGoesUnnoticed`, `Proposals.LearningCanBeOverwritten`), through
  the API as through the worker, which commit alike. A rejection read before a commit can follow it
  (`Proposals.RejectionCanFollowCommit`, `Proposals.CommittedAndRejected`).
* **A classification can be lost** when a worker stops between creating an interaction and queueing it
  (`ReplyIngestSafety.CanBeQueuedIff`, `ReplyIngestSafety.RepliesGetLost`), and **the reply watermark can go
  back**, because it is read before the lease (`ReplyIngestSafety.WatermarkGoesBackIff`,
  `ReplyIngestSafety.WatermarkCanGoBack`). The stale-lease scan can clear a live lease that was acquired after
  its read, and the holder's release is then lost (`ReplyIngestSafety.LiveLeaseCanBeLostIff`,
  `ReplyIngestSafety.ScanCanLoseRelease`).
* **Week labels of years 1 to 99** are those of 1901 to 1999 (`IsoWeek.EarlyYearsAreShifted`).
* **The wall-clock loop** fails exactly in spring-forward gaps when there is one offset change nearby, and
  may miss an existing instant when there are two (`WallClock.OneChangeConverges`, `WallClock.TwoChangesCanMiss`).
* **An empty `and` is false**, so De Morgan's laws and flattening fail for it and only for it
  (`RuleConditions.DeMorgan`, `RuleConditions.FlattenAnd`).

## Model

| member | source | states |
|---|---|---|
| `ObservationSafety.OneMetricPerCapture` | apps/worker/src/processors/analytics-sync.processor.ts:321-386 | in every run an observation has one metric if it is CAPTURED and none otherwise, captured before its window closed |
| `ObservationSafety.GenerationCountsMetrics` | apps/worker/src/processors/analytics-sync.processor.ts:453-465 | in every run the ingestion generation of an account is the number of its metrics |
| `ObservationSafety.StepKeepsInv` | apps/worker/src/processors/analytics-sync.processor.ts:119-197 | every step of workers and sweeper keeps the invariants on leases, attempts, metrics, windows, generations, triggers and retry keys |
| `ObservationSafety.StatusFollowsTable` | apps/worker/src/services/observation-fsm.service.ts:10-43 | every status change any statement makes is one of the transition table, and a terminal row is never written again |
| `ObservationSafety.TerminalForever` | apps/worker/src/services/observation-fsm.service.ts:10-43 | captured, missed, deleted and unavailable observations stay so through every run |
| `ObservationSafety.StaleWorkerIsFenced` | apps/worker/src/processors/analytics-sync.processor.ts:171-197 | once a row no longer carries a worker's token, no later step of that worker changes an observation, metric, generation or outbox row, whatever ran in between |
| `ObservationSafety.ReclaimFences` | apps/worker/src/processors/analytics-sync.processor.ts:119-142 | a claim that takes a row over leaves the former attempt fenced |
| `ObservationSafety.OneHolder` | apps/worker/src/processors/analytics-sync.processor.ts:119-142 | at most one attempt can change the row of an observation at a time |
| `ObservationProtocol.RowSteps` | apps/worker/src/processors/analytics-sync.processor.ts:321-364 | each step changes a row only by a claim, a renewal, a capture or a release of its holder, or by the sweeper on an expired one |
| `ObservationProtocol.StepKeepsTriggers` | apps/worker/src/processors/analytics-sync.processor.ts:453-485 | every metric has an aggregation trigger of its generation, and no trigger runs ahead of the counter |
| `ObservationRetry.RateLimitRetriesIff` | apps/worker/src/processors/analytics-sync.processor.ts:577-646 | the exact condition on the header, the window left at the first clock reading and the time until the second one, under which a 429 leads to a retry instead of MISSED |
| `ObservationRetry.ZeroHeaderMisses` | apps/worker/src/processors/analytics-sync.processor.ts:577-646 | a run in which a retry-after of zero or less ends an observation as MISSED more than an hour before its window closes |
| `ObservationRetry.BackoffBounds` | apps/worker/src/processors/analytics-sync.processor.ts:648-710 | the backoff doubles from 15 s, is capped at 300 s and carries less than 2 s of jitter |
| `ObservationRetry.WorkerRetryIsFresh` | apps/worker/src/processors/analytics-sync.processor.ts:577-710 | every move of a worker to FAILED or RATE_LIMITED inserts a retry row under a key never used before, due strictly before the window closes |
| `ObservationRetry.WorkerMove` | apps/worker/src/processors/analytics-sync.processor.ts:577-710 | only the two failure reports move a row to a retry, and only for the attempt that holds it |
| `ObservationRetry.RecoveryIsFreshIff` | apps/worker/src/services/expired-observation-sweeper.service.ts:53-95 | a recovery inserts a fresh retry row exactly when no earlier recovery committed from the same read of the row |
| `ObservationRetry.RecoveryCanBeSilent` | apps/worker/src/services/expired-observation-sweeper.service.ts:53-95 | a concrete run in which a recovery leaves an observation FAILED and inserts nothing |
| `ObservationRetry.StepUsesWindow` | apps/worker/src/processors/analytics-sync.processor.ts:577-710 | if retries run no earlier than due, no step gives back window time and every retry uses at least a second of it |
| `ObservationRetry.RetriesFitTheWindow` | apps/worker/src/processors/analytics-sync.processor.ts:577-710 | such a run has at most one retry per second of the window |
| `ObservationRetry.SweepEndsObservation` | apps/worker/src/services/expired-observation-sweeper.service.ts:29-41 | a sweep after the window has closed ends every observation without a live lease, for good |
| `ObservationRetry.LateAttemptEnds` | apps/worker/src/processors/analytics-sync.processor.ts:149-164 | for an attempt that finds the window closed, the check and, by a database clock that is not behind, the capture's own guard both end its observation as MISSED |
| `ObservationRetry.FiveWindows` | apps/worker/src/services/observation-scheduler.service.ts:15-36 | a post is observed after 1, 6 and 24 hours, 7 and 30 days, in windows of 1, 2, 6, 24 and 48 hours, each with an outbox row due at its opening, unless the row is there already |
| `ObservationRetry.SweepMissesIff` | apps/worker/src/services/expired-observation-sweeper.service.ts:29-41 | the closing update ends as MISSED exactly the rows that wait or whose lease has run out, with their window closed |
| `ObservationRetry.RecoveryRevivesIff` | apps/worker/src/services/expired-observation-sweeper.service.ts:53-95 | a recovery takes effect exactly on a row still abandoned with its window open: FAILED, one more attempt counted, a retry due at once |
| `AnalyticsStore.Store.ClaimLease` | apps/worker/src/processors/analytics-sync.processor.ts:119-142 | the compare-and-set lease as a method: its count and its effect are those of the claim step |
| `AnalyticsStore.Store.CommitCapture` | apps/worker/src/processors/analytics-sync.processor.ts:321-485 | the capture transaction: fenced update, metric, generation and outbox row together, or nothing but the release |
| `AnalyticsStore.Store.HandleRateLimit` | apps/worker/src/processors/analytics-sync.processor.ts:577-646 | the 429 path as one step of the protocol |
| `AnalyticsStore.Store.HandleGeneralFailure` | apps/worker/src/processors/analytics-sync.processor.ts:648-710 | the failure path as one step of the protocol |
| `AnalyticsStore.Store.ProcessAttempt` | apps/worker/src/processors/analytics-sync.processor.ts:119-570 | what an undisturbed attempt comes to, answer by answer and column by column: metrics before the cutoff give CAPTURED, one more metric, the next generation and its trigger; a 404 gives DELETED, a missing permission UNAVAILABLE, a closed window MISSED, a 429 or another error a retry under the stated arithmetic and MISSED otherwise; nothing else changes |
| `AnalyticsStore.FailureDecides` | apps/worker/src/processors/analytics-sync.processor.ts:648-710 | a failure ends the observation as MISSED at the last attempt allowed or if its retry would not be due before the window closes; an earlier one is retried at 15 s, doubled per attempt up to five minutes, plus jitter |
| `AnalyticsStore.RateLimitDecides` | apps/worker/src/processors/analytics-sync.processor.ts:577-646 | after a 429 the row ends RATE_LIMITED with a retry due after the header's seconds, cut to an hour and to the whole seconds left, if that is a second at least and before the window closes; otherwise MISSED |
| `AnalyticsStore.CaptureDecides` | apps/worker/src/processors/analytics-sync.processor.ts:321-485 | a capture of the holder before the window closes writes status, metric, generation and trigger; at or after it the observation ends as MISSED if the application's clock agrees |
| `AnalyticsStore.Store.Reconcile` | apps/worker/src/services/expired-observation-sweeper.service.ts:27-104 | the sweep as a method: a run of the protocol for any rows its query returns and any clock readings, and the number of recoveries that committed |
| `AnalyticsStore.SweptRows` | apps/worker/src/services/expired-observation-sweeper.service.ts:27-104 | rows the query did not return are as the closing update left them, the others are recovered exactly if they still qualify at the clock of their own transaction |
| `AnalyticsPipelineTheorems.CommitCoversMetrics` | apps/worker/src/processors/analytics-aggregate.processor.ts:299-346 | when a run commits, each metric of its account and slot was within its snapshot and seen by every query, or has an outbox trigger of a later generation; if the generation moved, one of the generation read at commit |
| `AnalyticsPipelineTheorems.RowsCountTheSnapshot` | apps/worker/src/processors/analytics-aggregate.processor.ts:300-314 | each committed row bears the run's account, slot and revision, and its sample lies between the cohort at the snapshot and the cohort at commit |
| `AnalyticsPipelineTheorems.CohortCountIs` | apps/worker/src/processors/analytics-aggregate.processor.ts:149-261 | a sample is the number of metrics of the account and slot whose post is in the cohort |
| `AnalyticsPipelineTheorems.CommitWrites` | apps/worker/src/processors/analytics-aggregate.processor.ts:286-371 | table by table what a run's commit writes: revision, time, the follow-up trigger if the generation moved, the insights trigger, its rows with their counts and families |
| `AnalyticsPipelineTheorems.CommitsFollowRevisions` | apps/worker/src/processors/analytics-aggregate.processor.ts:286-371 | commits of aggregation, insights and learning follow revision order, and two runs never commit one revision |
| `AnalyticsPipelineTheorems.RevisionsAreConsecutive` | apps/worker/src/processors/analytics-aggregate.processor.ts:317-324 | the runs of an account committed exactly the revisions 1 to the current one, once each |
| `AnalyticsPipelineTheorems.OneRunPerRevision` | apps/worker/src/processors/analytics-aggregate.processor.ts:317-324 | a revision determines the run that committed it |
| `AnalyticsPipelineTheorems.TargetIsCommitted` | apps/worker/src/processors/analytics-aggregate.processor.ts:300-324 | the revision a run stamps on its rows at the start is the one its commit assigns |
| `AnalyticsPipelineTheorems.OneRunAtATime` | apps/worker/src/processors/analytics-aggregate.processor.ts:290-297 | two runs of one account are never open together |
| `AnalyticsPipelineTheorems.OneInsightsTrigger` | apps/worker/src/processors/analytics-aggregate.processor.ts:348-366 | each run leaves exactly one insights trigger of its revision, with its slot and its asOf |
| `AnalyticsPipelineTheorems.AsOfTravelsUnchanged` | apps/worker/src/processors/analytics-insights.processor.ts:235-253 | the insights, learning and recommendations triggers of a revision carry the asOf of the one run with that revision |
| `AnalyticsPipelineTheorems.InsightsReadTheirRevision` | apps/worker/src/processors/analytics-insights.processor.ts:98-187 | insights commit only while their revision is current, from exactly the monthly rows of the account, revision and slot as they still are, and leave one learning trigger, due at once |
| `AnalyticsPipelineTheorems.LearningKeepsToItsRevision` | apps/worker/src/processors/analytics-learning.processor.ts:27-62 | profile learning commits only while its revision is current, and leaves one recommendations trigger, due at once |
| `AnalyticsPipelineTheorems.InsightRowsPerKey` | apps/worker/src/processors/analytics-insights.processor.ts:189-233 | an insight commit leaves the old rows as they were and one new row for each account, revision, dimension, value and slot among its candidates, with the columns and evidence of the first such candidate |
| `AnalyticsPipelineTheorems.OneRowIff` | apps/worker/src/processors/analytics-insights.processor.ts:191 | two candidates of a job leave one row if and only if they agree in account, revision, dimension, value and slot |
| `AnalyticsPipelineTheorems.CountIsOfRowsIff` | apps/worker/src/processors/analytics-insights.processor.ts:189-233 | the returned count is the number of rows created exactly if no two candidates agree in account, revision, dimension, value and slot and none is stored yet, and larger otherwise |
| `AnalyticsPipelineTheorems.CountExceedsRows` | apps/worker/src/processors/analytics-insights.processor.ts:189-233 | two candidates of one dimension value in two months leave one row, of the first |
| `AnalyticsPipelineTheorems.CountCanExceedRows` | apps/worker/src/processors/analytics-insights.processor.ts:189-233 | a reachable state of the pipeline in which an insight job counts more than it creates |
| `AnalyticsPipelineTheorems.InsightReplayIsIdempotent` | apps/worker/src/processors/analytics-insights.processor.ts:189-233 | committing the same candidates again changes no insight row |
| `AggregationLoops.GroupByBucket` | apps/worker/src/processors/analytics-aggregate.processor.ts:131-143 | the grouping loop: its buckets in order, and the values of each, are those of two functions on the rows |
| `AggregationLoops.BucketsAre` | apps/worker/src/processors/analytics-aggregate.processor.ts:131-143 | the buckets are exactly the bucket dates of the rows, once each |
| `AggregationLoops.ValuesAre` | apps/worker/src/processors/analytics-aggregate.processor.ts:131-143 | the values of a bucket are exactly those its rows hold, once each, without the empty one |
| `AggregationLoops.BucketsInOrder` | apps/worker/src/processors/analytics-aggregate.processor.ts:131-143 | a bucket earlier in the order was first seen in an earlier row |
| `AggregationLoops.AggregateTable.ExecuteQueries` | apps/worker/src/processors/analytics-aggregate.processor.ts:99-261 | the nested write loops: the rows of the target revision are exactly the candidates the queries returned, each with its own statistics |
| `AggregationLoops.InsightTable.PersistInsights` | apps/worker/src/processors/analytics-insights.processor.ts:124-233 | the candidate filter and the upsert loop: what is stored comes from rows graded DIRECTIONAL or HIGH_SIGNAL, every such row finds its insight stored, and the count is that of the new rows exactly if no two support one insight and none was stored |
| `PublishingSafety.AtMostOneCall` | apps/worker/src/processors/publishing.processor.ts:476-574 | over all runs the platform is asked at most once to publish a schedule, and only after the request is on record |
| `PublishingSafety.AtMostOneDecision` | apps/api/src/content/content.service.ts:757-772 | at most one cancellation or resolution takes effect per schedule, which stays as it leaves it or is deleted so |
| `PublishingSafety.OneActiveSchedule` | packages/database/prisma/migrations/0006_scheduled_publishing_fsm/migration.sql:151-154 | at most one active schedule per draft and account |
| `PublishingServices.MadeOnlyAfter` | apps/api/src/content/content.service.ts:530-560 | what is asked before a schedule is made: by a call, that the draft is there, unpublished to the account and without an active schedule for it; by the autonomous operator, that no post and no schedule in four states exists, which leave out five active ones |
| `PublishingServices.SlotsAreUnique` | packages/database/prisma/migrations/0009_autonomous_operator/migration.sql:88-92 | in every run no two schedules share an account and a time, or a workspace and an idempotency key |
| `PublishingSteps.StepKeepsActive` | packages/database/prisma/migrations/0006_scheduled_publishing_fsm/migration.sql:151-154 | only insertions and reconnects can meet the partial index; every other statement keeps it by itself |
| `PublishingSafety.PostsAreOfPublished` | apps/worker/src/processors/publishing.processor.ts:673-702 | each PUBLISHED schedule has a post of its own, with the scheduled version; the post of a draft and account is that of a published schedule exactly if there ever was a schedule for them, and imported otherwise |
| `PublishingSafety.PostWithPublished` | apps/worker/src/processors/ingestion.processor.ts:401-437 | a step inserts a post if and only if it sets a schedule to PUBLISHED, or ingestion found a post on the platform that no row of the account has |
| `PublishingRecords.CanBeRecordedIff` | apps/api/src/content/content.service.ts:899-932 | a schedule that was sent can still become PUBLISHED with its post if and only if it is in the table and not settled, its draft not published to the account, and no row of the account has that post |
| `PublishingRecords.ReachablePostsDiffer` | apps/worker/src/processors/ingestion.processor.ts:401-437 | the posts of an account are different posts of the platform, whoever inserted them |
| `PublishingWitnesses.PostCanBeImportedFirst` | apps/worker/src/processors/ingestion.processor.ts:333-337 | a reachable state in which a worker is about to record the post it has published, and an import of that post rules it out for good |
| `PublishingSafety.FinalForever` | apps/api/src/content/content.service.ts:331-411 | published schedules stay for good; cancelled, expired and failed ones never change again, and one that is gone was deleted as it was |
| `PublishingSafety.CancellationHolds` | apps/api/src/content/content.service.ts:1001-1011 | a schedule cancelled without a resolution is never sent to the platform afterwards, in the table or deleted |
| `PublishingServices.CancelledIff` | apps/api/src/content/content.service.ts:1001-1011 | over all steps, a schedule becomes CANCELLED exactly by its own workspace's call in one of four states without a trace, or by a resolution of RECOVERY_REQUIRED |
| `PublishingServices.OtherWorkspacesHaveNoSay` | apps/api/src/content/content.service.ts:1001-1011 | a call for another workspace cancels nothing and resolves nothing |
| `PublishingSafety.TracesAreRespected` | apps/api/src/content/content.service.ts:1001-1011 | a schedule with a publish request or detected ambiguity is cancelled only by resolving RECOVERY_REQUIRED, never put back to SCHEDULED, never failed or expired; a deletion takes it as it is |
| `PublishingSafety.AttemptsAreBounded` | apps/worker/src/processors/publishing.processor.ts:286-330 | a schedule is executed as often as its counter says, at most five times without such a trace, and at most three containers are asked for |
| `PublishingSteps.StepKeepsCounts` | apps/worker/src/processors/publishing.processor.ts:286-330 | the attempt and container counters of a schedule are the numbers of executions begun and containers asked for |
| `PublishingSafety.RetryWaits` | apps/worker/src/processors/publishing.processor.ts:953-954 | the wait before a retry doubles from 30 s per execution and is capped at 15 min |
| `PublishingOutcomes.StepOutcome` | apps/worker/src/processors/publishing.processor.ts:189-970 | what a step of a worker with a running lease makes of its schedule, in columns: exactly when it ends EXPIRED, FAILED_PERMANENT, FAILED_RETRYABLE with which wait, RECOVERY_REQUIRED, AUTH_REQUIRED or QUOTA_BLOCKED, and what the other steps record |
| `PublishingOutcomes.AnswersLeadOn` | apps/worker/src/processors/publishing.processor.ts:351-475 | a worker that knows of no possible publication goes on to publish or fails, one that does goes on to look for the post, until its deadline |
| `PublishingOutcomes.ReportIsPosted` | apps/worker/src/processors/publishing.processor.ts:673-702 | the post inserted bears the identifier the platform reported and the version scheduled, whatever the others do in between; without the lease nothing changes, and where the unique indexes leave no room the schedule is not published |
| `PublishingOutcomes.CanBePublished` | apps/worker/src/processors/publishing.processor.ts:130-702 | a schedule that is fit, due and in time can be published, as any post for which there is room, with the clocks in step |
| `PublishingOutcomes.AsksFiveTimes` | apps/worker/src/processors/publishing.processor.ts:351-475 | from its claim on, a worker asks for the state of its container five times at most, in any run |
| `PublishingSafety.LostTokenIsHarmless` | apps/worker/src/processors/publishing.processor.ts:223-236 | a worker whose schedule bears another token or is gone changes no schedule and no post; it may still make the one call it had put on record |
| `PublishingServices.LiveLeaseProtects` | apps/worker/src/processors/publishing.processor.ts:130-167 | while a lease is running nobody but its holder changes the schedule; a deletion that had found it may take it away |
| `PublishingServices.WaitsUntilDue` | apps/worker/src/processors/publishing.processor.ts:146-148 | in any run up to the time of its retry, all that happens to a schedule that waits for one is a cancellation or a deletion |
| `PublishingServices.ComesUpIff` | apps/worker/src/processors/publishing.processor.ts:138-155 | left alone, a schedule comes up for a worker exactly unless it is settled, in RECOVERY_REQUIRED or AUTH_REQUIRED, or out of executions without a trace and not blocked by the quota |
| `PublishingServices.TraceTimesStay` | apps/worker/src/processors/publishing.processor.ts:476-574 | the times of the publish request and of the first suspicion, once written, stay so in every run |
| `PublishingSteps.ActKeepsRow` | apps/worker/src/processors/publishing.processor.ts:836-970 | every fenced statement of a worker keeps the schedule sound, in particular none fails a schedule that bears a trace |
| `PublishingSteps.ActKeepsKnowledge` | apps/worker/src/processors/publishing.processor.ts:183-190 | what a worker knows of the schedule it holds stays right from its read to its end |
| `PublishingSteps.HopelessStays` | apps/worker/src/services/publishing-reconciliation.service.ts:298-325 | between the read and the write of a stale-lease sweep no worker can take the schedule back |
| `PublishingServices.SweepFailsIff` | apps/worker/src/services/publishing-reconciliation.service.ts:298-325 | which schedules the stale-lease sweep begins with, and that it fails exactly those that are still so at its write |
| `PublishingSteps.StepKeepsInv` | apps/worker/src/processors/publishing.processor.ts:130-167 | every step of workers, services, sweeps and deletions keeps all invariants |
| `PublishingSafety.ReconnectFailsIff` | apps/api/src/threads-auth/threads-auth.service.ts:136-150 | a reconnect violates the partial index exactly when a schedule it would unblock competes with another of its draft |
| `PublishingServices.ReconnectDoes` | apps/api/src/threads-auth/threads-auth.service.ts:136-150 | a reconnect puts back exactly the account's schedules in AUTH_REQUIRED without a trace, or none if one of them clashes with another active or returning one of its draft |
| `PublishingWitnesses.ReconnectCanFail` | apps/api/src/threads-auth/threads-auth.service.ts:136-150 | a reachable state in which it does |
| `PublishingSafety.TracedAuthIsStuck` | apps/api/src/content/content.service.ts:357-369 | a schedule in AUTH_REQUIRED with a trace is never changed again by anything; all that can happen to it is to be deleted as it is |
| `PublishingSafety.DeletedIff` | apps/api/src/content/content.service.ts:331-411 | a schedule leaves the table exactly when a deletion that found it commits while its draft has no post and no other schedule; it is then as it was found, or was found in AUTH_REQUIRED without a trace, and is not PUBLISHED |
| `PublishingSafety.DeletedUnderExecutionIff` | apps/api/src/content/content.service.ts:394-408 | a deletion takes a schedule from the worker executing it exactly when it had found it in AUTH_REQUIRED without a trace and nothing else refers to the draft |
| `PublishingSafety.DeletedIsNeverPosted` | apps/api/src/content/content.service.ts:394-408 | a deleted schedule never comes back and its draft never has a post, in any run |
| `PublishingWitnesses.SentScheduleCanBeDeleted` | apps/api/src/content/content.service.ts:331-411 | a reachable state in which the next step deletes a schedule that was sent and whose worker holds its lease |
| `PublishingTwice.FurtherCallIff` | apps/api/src/content/content.service.ts:530-541 | from any reachable state a further call for a draft and account can follow if and only if the draft is there and not published to it, or a scheduling call past its checks can still insert, or a schedule that can still be sent is left, or a call is on record and not made |
| `PublishingTwice.SecondCallIff` | packages/database/prisma/migrations/0006_scheduled_publishing_fsm/migration.sql:151-154 | the same after one call: unless the schedule called for is deleted or its draft published, another call can follow whatever became of it |
| `PublishingTwice.OpenBefore` | packages/database/prisma/migrations/0006_scheduled_publishing_fsm/migration.sql:151-154 | no step opens a draft and account for calls that were closed to them |
| `PublishingAge.FurtherCallInDay` | apps/worker/src/processors/publishing.processor.ts:189-209 | with the application's clock in step with the database's, what a further call takes and what is enough for one: a pending insertion or a schedule left must be within a day of its time |
| `PublishingAge.SecondCallInStepIff` | apps/worker/src/processors/publishing.processor.ts:189-209 | so, with nothing pending or left that is younger than a day, the exact condition for a second call |
| `PublishingGuard.GuardIff` | apps/worker/src/processors/publishing.processor.ts:193-236 | what passes the guard: a schedule perhaps published, or one neither late nor aged nor out of executions; otherwise the worker ends and a schedule it holds is EXPIRED or FAILED_PERMANENT |
| `PublishingGuard.LateFirstExecutionIsStopped` | apps/worker/src/processors/publishing.processor.ts:178-236 | over runs: a worker whose claim found the schedule waiting for its first execution and whose guard reads a clock more than 15 minutes past its time never asks the platform to publish; with its lease running the schedule is EXPIRED for good and never sent |
| `PublishingGuard.LateIsSentOnlyAfterStop` | apps/worker/src/processors/publishing.processor.ts:178-236 | with the clocks in step, a new schedule more than 15 minutes late is sent only in runs in which a worker stopped between its claim and the guard's write: its claim is taken over, or it fails at the guard |
| `PublishingWitnesses.LateGuardCanBeSkipped` | apps/worker/src/processors/publishing.processor.ts:178-209 | a run, clocks in step, that sends a schedule still new more than 15 minutes after its time: its first worker crashed between the claim and the guard, as `PublishingGuard.LateIsSentOnlyAfterStop` says it must have |
| `PublishingWitnesses.OpenAfterLostAuthorization` | apps/worker/src/processors/publishing.processor.ts:904-932 | a reachable state with a schedule sent and in AUTH_REQUIRED from which another call follows |
| `PublishingWitnesses.OpenAfterCancellation` | apps/api/src/content/content.service.ts:756-783 | one with a schedule sent and cancelled on an operator's word |
| `PublishingWitnesses.OpenAfterPublication` | apps/api/src/content/content.service.ts:530-541 | one with a schedule published, through a scheduling call that made its checks before |
| `PublishingWitnesses.OpenAfterReplacement` | apps/api/src/threads-auth/threads-auth.service.ts:136-150 | one with a schedule published, through a reconnect that puts back the blocked schedule it replaced |
| `PublishingWitnesses.OneDraftCanBeCalledForTwice` | apps/worker/src/processors/publishing.processor.ts:904-932 | a reachable state in which two schedules of one draft and account were sent |
| `ContentService.Store.InsertSchedule` | apps/api/src/content/content.service.ts:589-651 | the insertion and its answer to a violation: created, the earlier schedule of the same request, a conflict, or no draft |
| `ContentService.Store.CancelSchedule` | apps/api/src/content/content.service.ts:1001-1017 | the guarded cancellation is the protocol step, and its count says whether it took effect |
| `ContentService.Store.ConfirmNotPublished` | apps/api/src/content/content.service.ts:756-783 | the transaction of CONFIRM_NOT_PUBLISHED is the protocol step |
| `ContentService.Store.ConfirmPublished` | apps/api/src/content/content.service.ts:899-990 | the transaction of CONFIRM_PUBLISHED: update, post with the identifier confirmed, archived draft and event together, or nothing |
| `ContentService.Store.UnblockSchedules` | apps/api/src/threads-auth/threads-auth.service.ts:136-150 | the unblocking update takes effect on all blocked schedules of the account or on none |
| `ContentService.Store.CheckDeletion` | apps/api/src/content/content.service.ts:331-372 | the checks of a deletion in their order: it goes on exactly without a post and with every schedule in one of four states, and with the schedules found |
| `ContentService.Store.DeleteDraft` | apps/api/src/content/content.service.ts:394-408 | the deleting transaction is the protocol step: all schedules of the draft go, or nothing changes |
| `ContentService.Store.RegisterPost` | apps/worker/src/processors/ingestion.processor.ts:401-437 | the registering transaction of ingestion is the protocol step: draft and post, or nothing |
| `Quarantine.SortIsRedundant` | packages/database/scripts/pre-migration-quarantine.ts:83-86 | sorting a group again changes nothing, as the query has ordered the rows |
| `Quarantine.Database.GroupByDraft` | packages/database/scripts/pre-migration-quarantine.ts:48-54 | the grouping loop against the map of groups and its keys in order of first appearance |
| `Quarantine.Database.KeepOldest` | packages/database/scripts/pre-migration-quarantine.ts:80-99 | the cancelling loop: all rows of a group but the first, and the count |
| `Quarantine.Database.CleanUp` | packages/database/scripts/pre-migration-quarantine.ts:30-116 | the transaction and the exit code |
| `Quarantine.OldestIsKept` | packages/database/scripts/pre-migration-quarantine.ts:80-99 | without a row in RECOVERY_REQUIRED a draft keeps exactly the first of its active rows by creation time and id, as it was; the others are CANCELLED and name it |
| `Quarantine.OthersAreLeft` | packages/database/scripts/pre-migration-quarantine.ts:59-79 | rows of a draft in recovery and inactive rows are left as they were |
| `Quarantine.ConflictsAreCopied` | packages/database/scripts/pre-migration-quarantine.ts:61-79 | exactly the active rows of crowded drafts in recovery are copied, column by column, and the count is that of the copies |
| `Quarantine.ActiveIsConserved` | packages/database/scripts/pre-migration-quarantine.ts:30-101 | active rows before are active rows after plus cancelled ones |
| `Quarantine.CrowdedAfter` | packages/database/scripts/pre-migration-quarantine.ts:56-101 | a draft is left with two active rows exactly if it had them and a row in recovery |
| `Quarantine.SuccessMeansUncrowded` | packages/database/scripts/pre-migration-quarantine.ts:105-116 | the script reports success exactly when no draft is left with two active rows |
| `Quarantine.SecondRunChangesNothing` | packages/database/scripts/pre-migration-quarantine.ts:30-101 | a second run changes no schedule |
| `RefreshTokens.Service.RotateToken` | apps/api/src/auth/refresh-token.service.ts:41-118 | the checks in their order, the family-wide revocation and the rotation against one function |
| `RefreshTokens.ComposeParse` | apps/api/src/auth/refresh-token.service.ts:41-49 | a composite token is read back as its id and secret, whatever the secret holds |
| `RefreshTokens.RotatesIff` | apps/api/src/auth/refresh-token.service.ts:41-86 | a rotation succeeds exactly for a known id with its secret, unused, unrevoked and unexpired |
| `RefreshTokens.FamiliesAreChains` | apps/api/src/auth/refresh-token.service.ts:88-110 | every family is one replacedById chain whose tokens but the last are used, revoked as a whole or not at all |
| `RefreshTokens.OneLiveToken` | apps/api/src/auth/refresh-token.service.ts:88-110 | a family has at most one unused token |
| `RefreshTokens.ReuseKillsFamily` | apps/api/src/auth/refresh-token.service.ts:68-82 | a used token of an unrevoked family presented with its secret revokes the whole family |
| `RefreshTokens.DeadForever` | apps/api/src/auth/refresh-token.service.ts:64-66 | no token of a revoked family ever rotates again, in any run |
| `RefreshTokens.SuccessorWorks` | apps/api/src/auth/refresh-token.service.ts:88-118 | the returned token rotates next, and presenting the old one again then ends both |
| `RefreshTokens.RotatesForItsUser` | apps/api/src/auth/refresh-token.service.ts:88-118 | in every run a rotation returns the user for whom its family was created |
| `RefreshTokens.LivesThirtyDays` | apps/api/src/auth/refresh-token.service.ts:134-150 | a rotated token that is left alone rotates until thirty days after its issue and not later |
| `RefreshTokens.RefusedFor` | apps/api/src/auth/refresh-token.service.ts:41-86 | which refusal a known token gets, in the order of the checks |
| `RefreshTokens.RevokeUserEnds` | apps/api/src/auth/refresh-token.service.ts:127-132 | revoking a user's tokens ends every one of them and leaves the others as they were |
| `RefreshTokens.ParseCuts` | apps/api/src/auth/refresh-token.service.ts:41-49 | a composite token is malformed exactly without a dot, and is cut at its first one |
| `SingleFlight.OneRefreshAtATime` | apps/web/src/lib/api-client.ts:54-87 | at every suspension at most one refresh is under way, and the queue is empty when none is |
| `SingleFlight.CalledOnceWithItsOutcome` | apps/web/src/lib/api-client.ts:14-18 | no caller is called twice, and a queued one gets the outcome of the very refresh it waited for |
| `SingleFlight.NobodyIsForgotten` | apps/web/src/lib/api-client.ts:69-86 | on the success, HTTP-error and network-error paths every queued caller is called, and none waits on |
| `SingleFlight.TokenAfterRefresh` | apps/web/src/lib/api-client.ts:69-86 | after a successful refresh the client holds the new access token and after a failed one none, and every caller called then is told just that |
| `SingleFlight.ApiClient.OnRefreshed` | apps/web/src/lib/api-client.ts:14-18 | the queue is emptied and each of its callers called once, in order |
| `SingleFlight.ApiClient.RefreshToken` | apps/web/src/lib/api-client.ts:54-62 | a caller leads exactly if no refresh is under way |
| `SingleFlight.ApiClient.AfterBody` | apps/web/src/lib/api-client.ts:69-74 | the success path |
| `SingleFlight.ApiClient.AfterError` | apps/web/src/lib/api-client.ts:82-86 | the catch path |
| `Proposals.FieldsAreOfTheLastWrite` | apps/api/src/governance/governance.service.ts:520-549 | in any interleaving each field of a profile is that of the last commit of its dimension or of a later learning cycle, and the version counts the commits |
| `Proposals.WeightsAddUp` | apps/api/src/governance/governance.service.ts:552-585 | in any interleaving a weight is the last one committed or learned, and its evidence is what the last learning cycle counted plus that of every commit since |
| `Proposals.FieldOverRun` | apps/api/src/governance/governance.service.ts:520-549 | over the events of any run a field is as it was if none writes it, and otherwise what the last commit or learning cycle that wrote it has written |
| `Proposals.EvidenceOverRun` | apps/api/src/governance/governance.service.ts:552-585 | over any run without a learning cycle for a weight, its evidence grows by exactly what the effective commits bring to it |
| `Proposals.CommitTakesEffectIff` | apps/worker/src/services/profile-adaptation.service.ts:119-170 | a call that has read a proposal takes effect exactly if the profile had its version at the read and no commit was made since; learning cycles do not count |
| `Proposals.CommitsFollowVersions` | apps/api/src/governance/governance.service.ts:537-549 | commits on one profile are in the order of their source versions, no two with the same |
| `Proposals.CommittedOnce` | apps/api/src/governance/governance.service.ts:508-549 | the effects of a proposal are committed at most once |
| `Proposals.VersionCountsCommits` | apps/api/src/governance/governance.service.ts:520-549 | a commit takes effect exactly if the version is the source version, and moves it by one; nothing else moves it |
| `Proposals.LearningGoesUnnoticed` | apps/worker/src/services/learning-profile.service.ts:274-300 | in each dimension with a profile field, a commit replaces what was learned since the read exactly if something was, the version matched at the read, and no commit came in between |
| `Proposals.LearnedWeightIsReplaced` | apps/worker/src/services/profile-adaptation.service.ts:173-205 | in every dimension, a weight learned since the read is replaced under the same condition while its evidence is added to, and kept otherwise |
| `Proposals.LearningCanBeOverwritten` | apps/worker/src/services/profile-adaptation.service.ts:119-170 | a reachable state in which it happens, in each of these dimensions |
| `Proposals.RejectionCanFollowCommit` | apps/api/src/governance/governance.service.ts:598-633 | a rejection that was read can end a committed proposal as REJECTED exactly if the commit was made or can still be: the version is the proposal's and a call has read it or it is still reviewable |
| `Proposals.CommittedAndRejected` | apps/api/src/governance/governance.service.ts:598-633 | a reachable state with a proposal committed and REJECTED |
| `Proposals.ProposalAfter` | apps/api/src/governance/governance.service.ts:520-634 | what a step makes of a proposal: APPLIED exactly by a commit that finds the source version, REJECTED by a rejection, otherwise as it was |
| `Proposals.ReviewedByItsWorkspace` | apps/api/src/governance/governance.service.ts:508-618 | only the workspace of a proposal can apply or reject it, and only while it is pending |
| `Proposals.Service.ApplyProposal` | apps/api/src/governance/governance.service.ts:520-595 | the transaction as a method that builds its update by dimension |
| `ReplyIngestSafety.OneJobPerReply` | apps/worker/src/processors/engagement-ingest.processor.ts:335-445 | over any pages and takeovers ingestion queues each reply at most once, own replies never |
| `ReplyIngestSafety.LoopBreakerOverRuns` | apps/worker/src/processors/engagement-ingest.processor.ts:342-445 | over runs and field by field: an unknown reply with the flag, the account's user name or its external id is stored as own and never queued; one with none of these is stored as foreign and its worker's next step can queue it |
| `ReplyIngestSafety.CanBeQueuedIff` | apps/worker/src/processors/engagement-ingest.processor.ts:395-445 | a stored reply that is not queued can still be if and only if a worker is about to, whose next step does it |
| `ReplyIngestSafety.RepliesGetLost` | apps/worker/src/processors/engagement-ingest.processor.ts:395-445 | a reachable state with a foreign reply stored that no run ever queues: its worker crashed in between |
| `ReplyIngestSafety.OnlyTheHolderWrites` | apps/worker/src/processors/engagement-ingest.processor.ts:233-480 | what every step makes of a sync row, in columns: release and failure of the lease's holder, the acquiring of a row that is idle, failed or past its lease, for three minutes, and the stale-lease scan; nothing else changes it, and watermark and cursor change only by a release |
| `ReplyIngestSafety.WrittenByRelease` | apps/worker/src/processors/engagement-ingest.processor.ts:447-465 | over any run, a watermark or cursor that has changed was written by a release of a holder in that run |
| `ReplyIngestSafety.LiveLeaseCanBeLostIff` | apps/worker/src/services/engagement-reconciliation.service.ts:504-527 | a worker that holds a live lease can lose it before its end if and only if a scan has read the row and not yet written |
| `ReplyIngestSafety.ScanClearsLaterLease` | apps/worker/src/services/engagement-reconciliation.service.ts:504-527 | a scan clears a live lease exactly if the row bears a token other than the one it has seen, and is not free |
| `ReplyIngestSafety.ScanCanLoseRelease` | apps/worker/src/services/engagement-reconciliation.service.ts:504-527 | a reachable state in which a live holder's release would write, and after the scan's write does not |
| `ReplyIngestSafety.SupersededNeverWrites` | apps/worker/src/processors/engagement-ingest.processor.ts:447-480 | a worker whose lease was taken over or cleared never writes a sync row again |
| `ReplyIngestSafety.WatermarkIsMaximum` | apps/worker/src/processors/engagement-ingest.processor.ts:336-339 | a release writes the latest of the watermark read and the page's timestamps |
| `ReplyIngestSafety.WatermarkGoesBackIff` | apps/worker/src/processors/engagement-ingest.processor.ts:209-291 | a release puts the watermark back exactly if the latest of the one read at the start and of the page is older than the row's |
| `ReplyIngestSafety.WatermarkCanGoBack` | apps/worker/src/processors/engagement-ingest.processor.ts:209-291 | a reachable state and a run from it that ends with an older watermark |
| `ReplyIngestLoop.Store.ProcessReplies` | apps/worker/src/processors/engagement-ingest.processor.ts:334-445 | the loop over a page, ownership test included, against a fold of its replies |
| `ReplyIngestLoop.Store.SyncRootPost` | apps/worker/src/processors/engagement-ingest.processor.ts:256-480 | lease, page and release of one undisturbed synchronisation, with its failure path |
| `ReplyIngestLoop.OverlapAddsNothing` | apps/worker/src/processors/engagement-ingest.processor.ts:276-380 | two overlapping pages do what one page without the repetition does |
| `ReplyIngestLoop.PageEffect` | apps/worker/src/processors/engagement-ingest.processor.ts:355-445 | exactly the unknown replies are stored, and exactly those whose first appearance bears neither flag nor name nor id of the account are queued, once |
| `ReplyIngestLoop.LoopBreaker` | apps/worker/src/processors/engagement-ingest.processor.ts:342-445 | of each unknown reply of a page, field by field: stored as own and not queued exactly if it bears the flag, the user name or the external id, with its parent linked exactly if known by then |
| `Calendar.DaysBeforeYearIs` | packages/types/src/quotas.ts:37 | the day count of a year in closed form |
| `Calendar.CivilDateRoundTrip` | packages/types/src/quotas.ts:37-44 | civil dates and day numbers determine each other |
| `IsoWeek.GetIsoWeekWindow` | packages/types/src/quotas.ts:23-50 | the date mutations yield the ISO 8601 year and week of the date, after the century rule of Date.UTC |
| `IsoWeek.FirstThursday` | packages/types/src/quotas.ts:42-45 | the week of 4 January is the week of the first Thursday |
| `IsoWeek.SameLabelSameWeek` | packages/types/src/quotas.ts:46-49 | two days share a label exactly when they share a Monday-to-Sunday week |
| `IsoWeek.NextWeek` | packages/types/src/quotas.ts:46-49 | from week to week the number goes up by one, or to 1 of the next year after the last week |
| `IsoWeek.LabelsFollowTime` | packages/types/src/quotas.ts:46-49 | year and week order weeks as time does |
| `IsoWeek.WeekNumberBounds` | packages/types/src/quotas.ts:46 | week numbers lie between 1 and the number of weeks of their year, at most 53 |
| `IsoWeek.LongYears` | packages/types/src/quotas.ts:46 | a year has 53 weeks exactly if it begins on a Thursday, or on a Wednesday and is a leap year |
| `IsoWeek.CeilIsExact` | packages/types/src/quotas.ts:46 | the rounding always acts on a whole number of weeks |
| `IsoWeek.LabelIs` | packages/types/src/quotas.ts:48-49 | the text of the label: year, dash, W and two digits |
| `IsoWeek.EarlyYearsAreShifted` | packages/types/src/quotas.ts:37 | the label is that of the date itself exactly from year 100 on |
| `WallClock.LocalDateTimeToUtc` | apps/web/src/lib/schedule-utils.ts:117-130 | the loop returns the third correction of the target, which is the last one made |
| `WallClock.OneChangeConverges` | apps/web/src/lib/schedule-utils.ts:117-130 | with one offset change nearby, two corrections find an instant if there is one; the loop fails exactly in the gap, and then is off by its size |
| `WallClock.OverlapChoice` | apps/web/src/lib/schedule-utils.ts:117-130 | a time shown twice resolves to the first showing exactly when the target read as UTC precedes the change |
| `WallClock.RoundTrip` | apps/web/src/lib/schedule-utils.ts:117-130 | an instant comes back from its wall-clock time, unless that time is shown twice |
| `WallClock.TwoChangesCanMiss` | apps/web/src/lib/schedule-utils.ts:117-130 | with two changes nearby the loop can miss an instant |
| `SseSplitter.SplitReads` | apps/web/src/lib/sse.ts:50 | splitting a text yields pieces that make it up, each ended by its own leftmost break |
| `SseSplitter.SplitIsUnique` | apps/web/src/lib/sse.ts:50 | and it is the only such reading |
| `SseSplitter.CarryOver` | apps/web/src/lib/sse.ts:49-51 | appending text leaves finished blocks alone and continues in the carried rest |
| `SseSplitter.Subscription.Run` | apps/web/src/lib/sse.ts:41-77 | for every chunking the callbacks see what the whole text gives: events up to the first terminal one, one completion or one error at most; the buffer never holds a break |
| `SseSplitter.Subscription.DeliverAll` | apps/web/src/lib/sse.ts:53-70 | the block loop delivers up to the first terminal event and completes once |
| `SseSplitter.EndsAre` | apps/web/src/lib/sse.ts:41-77 | a terminal event completes the subscription; without one the end of the stream completes it, a read error fails it and an abort does neither |
| `SseSplitter.TerminalIs` | apps/web/src/lib/sse.ts:63-67 | an event is terminal exactly for its status or a progress of 100 |
| `SseSplitter.DataOfIs` | apps/web/src/lib/sse.ts:53-60 | a frame's data are those of its first data line without leading spaces, whatever lines come before it |
| `SseSplitter.FramesRoundTrip` | apps/web/src/lib/sse.ts:50-59 | frames of one-line payloads are read back as exactly those payloads |
| `RuleConditions.EvalIsMeaning` | packages/types/src/rules.ts:166-205 | without an empty `and` a condition means what logic says |
| `RuleConditions.DeMorgan` | packages/types/src/rules.ts:167-177 | De Morgan's laws hold exactly for non-empty lists |
| `RuleConditions.FlattenAnd` | packages/types/src/rules.ts:167-170 | an inner `and` can be merged into an outer one unless it is empty and the rest is true |
| `RuleConditions.FlattenOr` | packages/types/src/rules.ts:171-174 | an inner `or` can always be merged into an outer one |
| `RuleConditions.NegatedOrder` | packages/types/src/rules.ts:182-202 | the negation of an order comparison is the opposite one exactly between numbers, of `in` exactly for a list |
| `RuleConditions.NumbersAreOrdered` | packages/types/src/rules.ts:182-194 | between numbers exactly one of <, == and > holds, and >= and <= are what they say |
| `RuleConditions.ComparisonsAreMonotone` | packages/types/src/rules.ts:187-194 | raising a field keeps > and >= true, lowering it keeps < and <= true, and the larger value satisfies > against the smaller |
| `RuleConditions.MembershipIsEquality` | packages/types/src/rules.ts:195-198 | membership in a list is equality with one of its members, and its negation differs from all |
| `RuleConditions.ContainsIsCutting` | packages/types/src/rules.ts:199-200 | a text contains another exactly if it can be cut around it |
| `RuleConditions.PropertyIs` | packages/types/src/rules.ts:208-215 | own properties go before inherited ones, elements of an array are found under the decimal text of their index, and nothing is found in other values |
| `RuleConditions.NnfPreserves` | packages/types/src/rules.ts:142-205 | on what the schema admits, pushing negations to the comparisons keeps every result and stays admitted |
| `RuleConditions.DependsOnNamedFields` | packages/types/src/rules.ts:178-180 | a result depends only on the values at the fields the condition names |
| `RuleConditions.PathsCompose` | packages/types/src/rules.ts:208-215 | the value of "p.q" is the value of "q" within that of "p" |

## Left out

- AnalyticsPipelineTheorems.CommitCoversMetrics: says that the follow-up row exists, not that it is processed later; a row under an existing key is not inserted again, and the attempts of a job are bounded.
- AnalyticsStore.Store.ProcessAttempt: the heartbeat beside the request is a step of the protocol and not of this method.
- AnalyticsStore.Store.Reconcile: which rows the query returns is a parameter, any that qualify at its reading; the limit of 50 is not modelled.
- AggregationLoops.AggregateTable.ExecuteQueries: the evaluation of the family of each bucket, whose results are parameters, is left out.
- AggregationLoops.InsightTable.PersistInsights: the revision check under the lock and the learning trigger are part of the protocol step CommitInsights instead.
- ReplyIngestLoop.Store.ProcessReplies: for a reply that is known the source also refreshes its time of last sight, hide status and link, columns the model does not have.
- ReplyIngestLoop.Store.SyncRootPost: one undisturbed synchronisation; interleavings are the protocol of `ReplyIngest`. The tier and cadence checks before the lease are not modelled, nor is the time bound of the query.
- ContentService.Store.DeleteDraft: content versions and dispatch rows go with the draft and are not modelled; neither are the columns of other tables that lose their reference to it.
- PublishingTwice.FurtherCallIff: the application's clock may read anything, as it is another machine's; with the clocks in step `PublishingAge.FurtherCallInDay` bounds the condition from both sides, between which lie the waiting times of leases, retries and blocked slots. A draft and an account exist unless deleted, and accounts are not deleted.
- PublishingSafety.PostsAreOfPublished: the backfill of the analytics service inserts posts as ingestion does and is the same step.
- ReplyIngestSafety.LiveLeaseCanBeLostIff: the scan reads the database's clock here; with a clock of its own that runs ahead it can clear a live lease at once.
- IsoWeek.GetIsoWeekWindow: starts from the civil date that the time-zone formatter yields; time-zone data are not modelled.
- IsoWeek.UtcDate: holds the day of a UTC midnight instead of its milliseconds, which follow from it.
- RuleConditions.PathsCompose: a property inherited from a prototype is an opaque value, and nothing is found below it, although `__proto__` has properties of its own. Numbers are reals, so NaN is left out.
- SingleFlight.OneRefreshAtATime: callbacks neither throw nor call back into the client while they are being called.
- Proposals.FieldsAreOfTheLastWrite: a learning cycle is its result on the profile and on the weights it recomputes.
- HTTP, queue delivery, Redis, controllers, React code, prompts, logging and notifications: fetches are answers, deliveries are steps that may happen.
- A statement whose outcome is lost: a statement that throws has not taken effect.
- The services behind the modelled steps (Welch and Benjamini-Hochberg evidence, recommendations, the safety gate, the operator's planning).
- SQL text and statistics: query results and family statistics are parameters; the family query has no revision filter, which the model does not use.
- The linkage of captures and publications to experiments, exposures and thread posts, and the audit log.
- Deduplication keys of the outbox are structured values instead of their text, and the hashed lock key is the account itself.
- Cryptography: token hashes determine their secrets; drawn ids and tokens are fresh.
- The platform checks of a resolution (owner, text hash, time proximity, container status) decide which resolution is attempted; the model allows any.
- Feed recovery after an ambiguous publication is an answer of the platform: found, not found or several. Its 45-second deadline may pass at any time.
- The reconciliation scans that only enqueue jobs, the timestamp backfill, and the reclaiming of the event outbox.
- Concurrent rotations of one refresh token: the record is read outside the transaction and its use is not compared on write, so calls run one at a time.
- SseSplitter.Subscription.Run: follows the code, which ends a block only at two line feeds and reads only its first data line; the event stream format of section 9.2.6 of the WHATWG HTML standard also allows other line ends and several data lines.
- UTF-8 and JSON decoding of the progress stream, and callbacks that throw.
- `computeDerivedRates`, `validateThreadText`, status filters and the exposure table: single expressions.
- The backfill of observation schedules for posts that are registered, and purges: administrative steps.
- Scheduling by automation rules (`rules-engine.service.ts`, AUTO_SCHEDULE): inserts without any check, and fails unless its trigger brings the content hash, which no trigger in the repository does. The autonomous operator's choice of a draft is the step PlanRead; its quota, lease and safety audit are not modelled.
- The scan that queues replies stuck in CLASSIFYING again: classification starts after ingestion has queued them.

