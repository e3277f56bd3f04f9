# Dafny model of the DevLens backend

The backend copies GitHub data into PostgreSQL, by resumable sync jobs and by webhooks, rolls it up into metrics and
raises insights. This project models its protocols and algorithms and proves what they keep. `dafny verify
dfyconfig.toml` checks everything.

| files | part of the backend |
|---|---|
| `Sql`, `Upserts`, `StampedRows`, `EventTables`, `OutcomeTables` | the upsert statements and what any order of events leaves behind |
| `PagedSync`, `RemoteItems`, `JobResume`, `CollectedLists`, `PullRequestReviews` | the paging loops, their checkpoints, crash and resume |
| `SyncedRows` | which items a sync includes and what its rows say, in the fields of the listed items; and what a webhook stores |
| `SharedTables` | a sync and webhooks writing the same tables |
| `SyncJobs`, `SyncRun` | the job row and one run of a job, with Cancel landing anywhere |
| `WebhookDeliveries` | dedup, retries and dead letters |
| `RateLimiter` | the fixed-window limiter with pruning |
| `DayMeans`, `DailyMetrics`, `MetricsSummary`, `StoredMetrics`, `RawScan`, `IntervalTrend`, `TrendScan`, `DeploymentPaths`, `DataCoverage` | the daily roll-up and the metrics made from it |
| `Sorting`, `Grouping`, `Hotspots` | file hotspots |
| `Insights` | deduplication, stored statuses, reopening |
| `Sessions`, `OwnerGuard` | refresh-token rotation, the last-owner guard |
| `Text`, `InstallationState` | the installation state string |

How things are modelled. Objects and tables that change in place are classes; an SQL statement is a function of the stored
row and the new values, with NULL as `None`: LEAST and GREATEST skip it, and a CASE condition that is NULL falls through.
GitHub is a fixed listing; failing calls, clock readings and Cancel calls are arbitrary inputs (or `*`). Every statement or
transaction is one atomic step, which is what is assumed of the database; interleavings are sequences of such steps. Times
and counts are unbounded integers, averages, weights and scores are reals. Fresh ids and tokens come from counters, and a
token stands for its hash. The paging loops appear twice: in `PagedSync`, `CollectedLists` and `PullRequestReviews` one at a
time under a plan of faults, in `SyncRun` nested as they run, with the calls they make.

Where the code does not do what one might expect, a lemma says exactly when it does:

- `WorkflowOutcomeIff`: an unfinished workflow event without a start, or with one not before the stored completion,
  overwrites the outcome of a completed run.
- `ResumedIsWholeIff`, `ResumedReviewsWholeIff`: after a crash behind a page of files the file set is replaced by the later
  pages only; reviews on the pages before are not stored.
- `PairOrderIff`, `PullRequestReplayIff`: pull request events that are not well-formed can depend on their order, and on being
  replayed.
- `RevivesIff` and `ConcurrentRetryRevives`: a retry that overlaps the fifth failure brings a dead letter back.
- `PathsAgreeIff`: a status spelled `Success` counts on the raw deployment path and not in the roll-up.
- `LosesLastOwnerIff`: a request that has read a member before its promotion can remove the last owner.
- `PruningInvisibleIff`: pruning is invisible exactly while clock readings lag by at most one tick more than a window.
- `AcceptedIff`: one colon in an organization makes the state, printed without a user, acceptable for another organization and user.
- `CanceledIsNotSticky`: a run that has not noticed a Cancel overwrites it.
- `IntervalBound`, `IntervalBoundReached`: an interval one window long admits up to 2 * requests - 1 calls, never 2 * requests.
- `PullRequestPathsAgreeIff` and its siblings: the sync stores missing or padded values as they are, the webhook fills them in.

## Model

| member | source | states |
|---|---|---|
| `JobResume.JobResumesClean` | backend/internal/syncjob/service.go:285-408 | For a fixed remote and cutoff: whatever stages and pages earlier attempts of a job failed in (also if one had walked everything), an attempt that gets through all four stages leaves the pull request, commit, workflow run and deployment rows of one uninterrupted job |
| `JobResume.JobStaysRecoverable` | backend/internal/syncjob/service.go:285-408 | Every attempt, failing anywhere, keeps all four tables recoverable: walking on from the stored checkpoints would give the clean rows |
| `SyncedRows.JobStores` | backend/internal/syncjob/service.go:949-990 | What a clean job, and so a completed one, has stored: with cutoff c the added keys are exactly those of the listed pull requests with update time >= c, commits with author date >= c, workflow runs and deployments with update time (else creation time) >= c, these only with a status; without a cutoff those of all |
| `SyncedRows.CommitsStored` | backend/internal/syncjob/service.go:963-968 | For commits: a hash is stored iff it was before or a commit with this trimmed hash and a date in the cutoff is listed |
| `SyncedRows.PullsStored` | backend/internal/syncjob/service.go:949-954 | For pull requests: by the update time they are listed with; the id is the fetched one, else the listed one |
| `SyncedRows.WorkflowRunsStored` | backend/internal/syncjob/service.go:970-979 | For workflow runs: by update time, falling back to creation time |
| `SyncedRows.DeploymentsStored` | backend/internal/syncjob/service.go:981-990 | For deployments: the same, and only those with a status |
| `SyncedRows.ReviewsStored` | backend/internal/syncjob/service.go:956-961 | For the reviews of a pull request: unsubmitted ones and those submitted at or after the cutoff |
| `SyncedRows.ReviewsCollected` | backend/internal/syncjob/service.go:634-639 | Collecting keeps the listing order and drops exactly the reviews submitted before the cutoff |
| `SyncedRows.CommitRowIs` | backend/internal/syncjob/service.go:1092-1104 | After a clean walk a commit row holds author name (else login), email, message and date of the last included listing of its hash, whatever was stored before |
| `SyncedRows.PullRowIs` | backend/internal/syncjob/service.go:1008-1054 | A pull request row has number, title, author, sizes and draft flag of its last included listing, fetched values before listed ones; if it was not stored and not listed before, also its state and times |
| `SyncedRows.ReviewRowIs` | backend/internal/syncjob/service.go:1056-1074 | A collected review that was not stored gets its reviewer, state and submission, no request time, and as its first review the least submission of all that were collected with it |
| `SyncedRows.WorkflowRowIs` | backend/internal/syncjob/service.go:1106-1145 | A workflow run row has the name of its last included listing; if not stored and not listed before, also its outcome and times, completed at the update time iff there is a conclusion |
| `SyncedRows.DeploymentRowIs` | backend/internal/syncjob/service.go:1117-1135 | A deployment row has the environment of its last included listing; if not stored and not listed before, the state of a status with the greatest time, deployed at the first of the four times that is set |
| `JobResume.PullRequestsAbsorb` | backend/internal/postgres/sqlcgen/pull_requests.sql.go:46-62 | Replaying well-formed pull requests, in the same order, on the row they produced changes nothing; EventTables.PullRequestReplayIff has the exact condition for all others |
| `PagedSync.ResumedEqualsClean` | backend/internal/syncjob/service.go:653-698 | Any sequence of attempts failing at arbitrary calls, followed by one that finishes, leaves the rows of a single clean walk and a completed checkpoint |
| `PagedSync.WalkStaysRecoverable` | backend/internal/syncjob/service.go:653-698 | The invariant linking checkpoint, rows and remote: an attempt that starts recoverable ends recoverable, and a finished one ends with the clean rows |
| `PagedSync.AlwaysCovered` | backend/internal/syncjob/service.go:653-698 | At every point, whatever failed so far, all included items of the pages before the checkpoint are stored |
| `PagedSync.FinishesIff` | backend/internal/syncjob/service.go:653-698 | An attempt finishes if and only if nothing fails from the resumed page to the last |
| `PagedSync.CleanStores` | backend/internal/syncjob/service.go:673-685 | A clean walk adds exactly the keys of the included items of all pages |
| `PagedSync.CheckpointRoundTrip` | backend/internal/syncjob/service.go:836-859 | A stored next page is read back as that page, a completed checkpoint as page 1, through decimal print and parse |
| `PagedSync.ResumesAtFirst` | backend/internal/syncjob/service.go:836-850 | A missing, empty, malformed or non-positive checkpoint resumes at page 1, any other at its number |
| `PagedSync.Table.SyncPages` | backend/internal/syncjob/service.go:653-698 | The sync loop under any plan of faults has the effect of the specified walk, and a finished one reports how many upserts it made |
| `PagedSync.Table.ExecBatch` | backend/internal/syncjob/repository.go:554-566 | A batch applies its upserts in order |
| `RemoteItems.CommitsResume` | backend/internal/syncjob/service.go:653-698 | Resumed equals clean for commits |
| `RemoteItems.WorkflowRunsResume` | backend/internal/syncjob/service.go:700-745 | Resumed equals clean for workflow runs |
| `RemoteItems.DeploymentsResume` | backend/internal/syncjob/service.go:747-806 | Resumed equals clean for deployments, with their latest status |
| `RemoteItems.LatestDeploymentStatus` | backend/internal/syncjob/service.go:1147-1163 | The loop finds the latest status (see LatestStatusIs) |
| `RemoteItems.LatestStatusIs` | backend/internal/syncjob/service.go:1147-1163 | It is the first of the statuses with the greatest time, updated_at falling back to created_at |
| `RemoteItems.PullRequestPathsAgreeIff` | backend/internal/githubwebhook/repository.go:240-280 | A sync and a webhook write the same values for a pull request if and only if title, author and state are trimmed and not empty and the creation time is set |
| `RemoteItems.CommitPathsAgreeIff` | backend/internal/githubwebhook/repository.go:320-360 | For a commit: if and only if it has a hash, a message, a date, and an author name or login |
| `RemoteItems.WorkflowPathsAgreeIff` | backend/internal/githubwebhook/repository.go:362-402 | For a workflow run: if and only if name and status are trimmed and not empty and the conclusion is not made of spaces only (or there is no update time) |
| `RemoteItems.DeploymentPathsAgreeIff` | backend/internal/githubwebhook/repository.go:404-456 | For a deployment: if and only if state and environment are trimmed and not empty and one of the four times is set |
| `SyncedRows.WebhookPull` | backend/internal/githubwebhook/repository.go:240-280 | What a webhook stores for a pull request: texts trimmed and never empty, with their replacements, an unset creation time replaced by now, everything else as given |
| `SyncedRows.WebhookCommit` | backend/internal/githubwebhook/repository.go:320-360 | For a pushed commit: the author name, else the login, else unknown; the hash for a missing message |
| `SyncedRows.WebhookRun` | backend/internal/githubwebhook/repository.go:362-402 | For a workflow run: completed at the update time iff it has a conclusion |
| `SyncedRows.WebhookDeployment` | backend/internal/githubwebhook/repository.go:404-456 | For a deployment: the state, else the action, else pending; deployed at the first of the four times that is set, else now |
| `SyncedRows.WebhookReview` | backend/internal/githubwebhook/repository.go:282-318 | For a review: its own submission is its first review |
| `PullRequestReviews.ReviewPathsAgreeIff` | backend/internal/githubwebhook/repository.go:282-318 | For a review: if and only if user and state are trimmed and not empty and no collected review of the pull request was submitted earlier |
| `PullRequestReviews.EarliestSubmittedAt` | backend/internal/syncjob/service.go:1165-1178 | The loop computes the earliest submission |
| `PullRequestReviews.EarliestIsLeast` | backend/internal/syncjob/service.go:1165-1178 | It is the least of the submission times, NULL if there is none |
| `PullRequestReviews.BuildReviewInputs` | backend/internal/syncjob/service.go:1056-1074 | Every review gets the earliest submission of the list as its first review |
| `PullRequestReviews.ReviewSync.SyncReviews` | backend/internal/syncjob/service.go:610-651 | A finished collection holds the included reviews from the checkpoint on, and no earlier one |
| `PullRequestReviews.ReviewSync.StoreReviews` | backend/internal/syncjob/repository.go:382-395 | The collected reviews are merged into the table |
| `PullRequestReviews.ResumedReviewsWholeIff` | backend/internal/syncjob/service.go:610-651 | For a table without the pull request's reviews, a resumed bundle leaves the rows of a clean one iff no page before the checkpoint holds an included review |
| `SharedTables.SettledByTheSameEvents` | backend/internal/syncjob/service.go:653-698 | Statements, checkpoints and deaths of attempts interleaved with webhook upserts: once an attempt has finished, each row is the fold of a sequence with exactly the events of a clean sync and the webhooks |
| `SharedTables.PullRequestsSettle` | backend/internal/postgres/sqlcgen/pull_requests.sql.go:46-62 | So pull requests end up as after a clean sync followed by the webhooks |
| `SharedTables.DeploymentsSettle` | backend/internal/syncjob/repository.go:536-542 | So do deployments, when equal times carry equal statuses |
| `SharedTables.WorkflowRunsSettle` | backend/internal/syncjob/repository.go:491-509 | So do workflow runs once completed, when their events are orderly |
| `SharedTables.BeginsAtCheckpoint` | backend/internal/syncjob/service.go:653-660 | An attempt begins at the page of the stored checkpoint |
| `SharedTables.UndisturbedPage` | backend/internal/syncjob/service.go:653-698 | The single steps of one page, undisturbed, are a page of the walk in PagedSync: rows, checkpoint and next page |
| `CollectedLists.Collector.Collect` | backend/internal/syncjob/service.go:572-608 | A finished collection of a pull request's files holds the pages from the checkpoint on, and no earlier one |
| `CollectedLists.CollectsIff` | backend/internal/syncjob/service.go:572-651 | A collection finishes iff nothing fails from the resumed page to the last; else it stops at the first failing page, and the next one starts behind it if its checkpoint was written, at it if an earlier one was, and otherwise where this one did |
| `CollectedLists.Collector.SyncFiles` | backend/internal/syncjob/repository.go:407-447 | The stored file set is replaced by what was collected, exactly when the collection finishes |
| `CollectedLists.ResumedIsWholeIff` | backend/internal/syncjob/service.go:572-608 | A resumed collection is the whole list if and only if every page before the checkpoint is empty |
| `SyncRun.Run.Execute` | backend/internal/syncjob/service.go:285-408 | A run in which no call fails and no Cancel lands ends completed; without a Cancel it ends failed as soon as a call fails; only a failing statement on its own row can leave it unended. Whatever happens, after a Cancel at most one more resource is written and the tables can be resumed; and completed means: the rows of one clean job in all four tables, completed page checkpoints, and every publisher having accepted an event whose To is the stored last_synced_at |
| `SyncRun.Run.ExecuteWithRetries` | backend/internal/syncjob/service.go:181-199 | However many failed attempts and retries it takes, a completed job leaves the tables of one uninterrupted run, and a last attempt without a failing call or a Cancel completes it |
| `SyncRun.Run.SyncPullRequests` | backend/internal/syncjob/service.go:504-570 | The nested loops end well unless a call fails or a Cancel lands, keep the table resumable, and when they end well leave the rows of a clean walk, a completed checkpoint and the number of included pull requests |
| `SyncRun.Run.SyncBatches` | backend/internal/syncjob/service.go:653-806 | So do the batch loops |
| `SyncRun.Run.CollectPages` | backend/internal/syncjob/service.go:572-651 | The review and file loops write no resource; done, they leave a completed checkpoint and a fresh cancellation check |
| `SyncRun.Run.SyncPullRequest` | backend/internal/syncjob/service.go:529-556 | An included pull request gets its bundle, then its files, after its review and file lists have been collected to the end; others get nothing |
| `SyncRun.Run.EnsureNotCanceled` | backend/internal/syncjob/service.go:913-922 | A check that passes is fresh: no resource has been written under a Cancel |
| `SyncRun.Run.Publish` | backend/internal/syncjob/service.go:86-96 | All publishers have accepted the event, or the first failure is reported |
| `SyncRun.Run.Finish` | backend/internal/syncjob/service.go:379-407 | Publishing comes before completion; when no call fails the job ends completed, even if a Cancel has landed, and completion stamps job and repository with the published time |
| `SyncJobs.AlwaysConsistent` | backend/internal/postgres/sqlcgen/sync_jobs.sql.go:346-495 | Under every interleaving of the unguarded updates finished_at is set iff the status is terminal, error_message iff it is failed, and a running job has a start |
| `SyncJobs.StartedAtIs` | backend/internal/postgres/sqlcgen/sync_jobs.sql.go:485-493 | started_at is the time of the first start since the last retry |
| `SyncJobs.LastDecides` | backend/internal/postgres/sqlcgen/sync_jobs.sql.go:346-495 | Status, error message and finished_at are those of the last update that is not about progress |
| `SyncJobs.ProgressIs` | backend/internal/postgres/sqlcgen/sync_jobs.sql.go:346-495 | Progress is what the last start or progress update said, 100 after a completion, 0 after a retry |
| `SyncJobs.CanceledIsNotSticky` | backend/internal/postgres/sqlcgen/sync_jobs.sql.go:346-493 | Exactly the progress update and another Cancel leave a canceled job canceled |
| `EventTables.PullRequestSettles` | backend/internal/postgres/sqlcgen/pull_requests.sql.go:46-62 | After any well-formed events: closed iff some event was closed, earliest creation, latest merge and close time, details of the last event; the row is itself well-formed |
| `EventTables.PullRequestsConverge` | backend/internal/postgres/sqlcgen/pull_requests.sql.go:46-62 | State and times depend only on the set of events, not their order or repetition |
| `EventTables.MergedStaysClosed` | backend/internal/postgres/sqlcgen/pull_requests.sql.go:46-62 | A merged pull request stays merged and closed whatever well-formed events arrive |
| `EventTables.PairOrderIff` | backend/internal/postgres/sqlcgen/pull_requests.sql.go:50-54 | For any two events, well-formed or not, the order does not matter to the state iff they carry the same state or exactly one of them is refused by a row with the times of the other |
| `EventTables.OrderMattersWithoutClosedAt` | backend/internal/postgres/sqlcgen/pull_requests.sql.go:50-54 | So a closed event without times and an open one without times never converge |
| `EventTables.PullRequestReplayIff` | backend/internal/postgres/sqlcgen/pull_requests.sql.go:46-62 | Replaying any events, well-formed or not, on the row they produced changes nothing iff the row refuses them all or the last one it takes has its state |
| `EventTables.PullRequestTables.UpsertPullRequestBundle` | backend/internal/syncjob/repository.go:357-405 | One transaction upserts the pull request and its reviews in order |
| `OutcomeTables.WorkflowOutcomeIff` | backend/internal/syncjob/repository.go:493-509 | The last-arriving completion with the greatest completed_at decides status and conclusion if and only if every unfinished event after it has a start, and one before that completion |
| `OutcomeTables.WorkflowAuthorWrites` | backend/internal/syncjob/repository.go:493-506 | Status and conclusion of the row are those of the one event chosen as their author |
| `OutcomeTables.LaterEventOverwritesIff` | backend/internal/syncjob/repository.go:493-509 | Which later events overwrite that completion: the unfinished ones with no start, or none before it |
| `OutcomeTables.NewestCompletionWins` | backend/internal/syncjob/repository.go:493-509 | When every unfinished event starts before every completion, that completion decides wherever the unfinished events fall |
| `OutcomeTables.WorkflowTimesSettle` | backend/internal/syncjob/repository.go:507-508 | The row keeps the earliest start and the latest completion of all events |
| `OutcomeTables.WorkflowRunsConverge` | backend/internal/syncjob/repository.go:491-509 | Status, conclusion and times depend only on the set of such events, if equal completion times carry equal outcomes |
| `OutcomeTables.ReviewStateIs` | backend/internal/postgres/sqlcgen/pull_requests.sql.go:125-136 | A review's state is that of the greatest submission time, the latest arrival on ties; of the first arrival if none is submitted |
| `OutcomeTables.ReviewTimesSettle` | backend/internal/postgres/sqlcgen/pull_requests.sql.go:126-130 | The row keeps the earliest request and first review and the latest submission |
| `OutcomeTables.ReviewsConverge` | backend/internal/postgres/sqlcgen/pull_requests.sql.go:125-136 | Once some event is submitted, state and submission time are order-independent when equal times carry equal states |
| `OutcomeTables.DeploymentStatusIs` | backend/internal/syncjob/repository.go:536-542 | A deployment's status is that of the greatest deployed_at, the latest arrival on ties |
| `OutcomeTables.DeploymentsConverge` | backend/internal/syncjob/repository.go:536-542 | Status and time are order-independent when equal times carry equal statuses |
| `OutcomeTables.EventTablesAbsorb` | backend/internal/syncjob/repository.go:449-552 | Replaying a sequence of commits, workflow runs or deployments on the rows it produced changes nothing, for every stored row |
| `OutcomeTables.LastEventDescribes` | backend/internal/syncjob/repository.go:449-552 | Any upserts leave the last commit as the row, and the last name, environment, reviewer and pull request details, whatever was stored |
| `OutcomeTables.ReviewsAbsorb` | backend/internal/postgres/sqlcgen/pull_requests.sql.go:125-136 | The same for reviews |
| `StampedRows.CellAbsorbs` | backend/internal/syncjob/repository.go:491-509 | The same for every table that merges by competing time stamps |
| `StampedRows.NewestIsChosenIff` | backend/internal/syncjob/repository.go:493-509 | The event with the greatest stamp provides the payload iff nothing after it is accepted against that stamp |
| `Upserts.ReplayAfterPrefix` | backend/internal/syncjob/repository.go:554-566 | A batch cut short after any prefix and replayed in full has the effect of one full batch |
| `Upserts.ApplyPerKey` | backend/internal/syncjob/repository.go:449-552 | A table after a batch is, row by row, the fold of the statements that hit the row |
| `WebhookDeliveries.EveryRun` | backend/internal/githubwebhook/service.go:64-177 | In every run of atomic deliveries and retries: failed iff a next retry is set, then after 1 to 4 failures and with the delay of that number; processed iff processed or ignored; retry_count counts failures; the fifth failure, and nothing else, makes a dead letter |
| `WebhookDeliveries.NewDeliveryBecomes` | backend/internal/githubwebhook/service.go:96-113 | The row of a new delivery: enqueued with its own job for a supported event of a repository, processed for an installation event its handler accepted, else ignored; an error makes it failed, with one retry counted and due in 30 seconds |
| `WebhookDeliveries.FailedDeliveryBecomes` | backend/internal/githubwebhook/service.go:131-177 | The row of a failed delivery after a retry: enqueued or processed; on another error due in 60, 120 or 240 seconds, and a dead letter after the fifth |
| `WebhookDeliveries.EveryStatusFits` | backend/internal/githubwebhook/service.go:219-232 | In every run only installation events are processed, only supported events of a repository are enqueued, and unknown events are always ignored |
| `WebhookDeliveries.DelayIs` | backend/internal/githubwebhook/service.go:326-341 | 30, 60, 120, 240, 480, then 900 seconds |
| `WebhookDeliveries.DeadLetterStays` | backend/internal/githubwebhook/service.go:131-177 | A dead letter is never left, and a redelivery changes nothing |
| `WebhookDeliveries.OneJobEach` | backend/internal/githubwebhook/repository.go:62-196 | Each delivery owns at most one sync job |
| `WebhookDeliveries.RetryableIff` | backend/internal/githubwebhook/repository.go:575-605 | The retry conditions hold of exactly the failed deliveries whose delay has passed |
| `WebhookDeliveries.Webhooks.ListRetryableDeliveryIDs` | backend/internal/githubwebhook/repository.go:575-605 | The listing is the first `limit` of them by next retry, then receipt, ties in any order |
| `WebhookDeliveries.EveryCallKeepsGood` | backend/internal/githubwebhook/service.go:64-177 | The row properties hold under every interleaving of requests at their database calls, wherever they die |
| `WebhookDeliveries.UndisturbedHandle` | backend/internal/githubwebhook/service.go:64-129 | The interleaved calls of one Handle, undisturbed, are the atomic step |
| `WebhookDeliveries.UndisturbedRetry` | backend/internal/githubwebhook/service.go:131-177 | And those of one Retry |
| `WebhookDeliveries.RevivesIff` | backend/internal/githubwebhook/service.go:131-177 | A dead letter is left if and only if a request already under way records a success, or a failure after fewer than four it knows of |
| `WebhookDeliveries.SerialKeepsDeadLetters` | backend/internal/githubwebhook/service.go:131-177 | It is never left when no retry starts on a delivery being worked on |
| `WebhookDeliveries.ConcurrentRetryRevives` | backend/internal/githubwebhook/service.go:131-177 | Two retries that read the same delivery: the first makes it a dead letter, the second revives it |
| `WebhookDeliveries.RetryDelayForAttempt` | backend/internal/githubwebhook/service.go:326-341 | The doubling loop computes min(30 s * 2^(n-1), 15 min) |
| `WebhookDeliveries.Webhooks.EnqueueWebhookSync` | backend/internal/githubwebhook/repository.go:62-196 | A new delivery is recorded, with a job if one is wanted and there is a repository; a known one rolls the job back |
| `WebhookDeliveries.Webhooks.Handle` | backend/internal/githubwebhook/service.go:64-129 | The new state and the result: nothing for a payload that does not parse, and a failed call is recorded as the first failure |
| `WebhookDeliveries.Webhooks.Retry` | backend/internal/githubwebhook/service.go:131-177 | The new state, and which error is returned exactly when; a payload that does not parse changes nothing and is not counted |
| `WebhookDeliveries.Webhooks.ScheduleRetryFailure` | backend/internal/githubwebhook/service.go:315-324 | The fifth failure makes a dead letter, an earlier one schedules the next retry |
| `WebhookDeliveries.Webhooks.MarkDeliveryStatus` | backend/internal/githubwebhook/repository.go:474-496 | The status update and its derived columns |
| `WebhookDeliveries.Webhooks.ProcessPersistedDelivery` | backend/internal/githubwebhook/service.go:219-232 | Which status an event without a job gets, and whose error is returned |
| `RateLimiter.Limiter.Allow` | backend/internal/httpapi/middleware/rate_limit.go:37-65 | Decision and new entries are those of a limiter looking at the pruned entries; with no positive limits everything passes |
| `RateLimiter.Limiter.Prune` | backend/internal/httpapi/middleware/rate_limit.go:67-73 | The loop deletes exactly the entries more than a window past their reset |
| `RateLimiter.PruningInvisible` | backend/internal/httpapi/middleware/rate_limit.go:37-73 | With pruning the last call of a run gets the decision and reset time it would get without, as long as clock readings lag by at most one tick more than a window |
| `RateLimiter.PruningInvisibleIff` | backend/internal/httpapi/middleware/rate_limit.go:37-73 | For all limits: every call of every run with clock readings lagging by at most L gets the same decision with and without pruning iff L <= window + 1 |
| `RateLimiter.PruningVisibleBeyondLag` | backend/internal/httpapi/middleware/rate_limit.go:37-73 | For all limits, a run with a lag of window + 2 in which pruning admits a call that would be refused |
| `RateLimiter.WindowBound` | backend/internal/httpapi/middleware/rate_limit.go:48-64 | A fixed window admits at most the configured requests |
| `RateLimiter.RefusedIffFull` | backend/internal/httpapi/middleware/rate_limit.go:48-64 | A call is refused if and only if exactly that many were already admitted in its window |
| `RateLimiter.IntervalBound` | backend/internal/httpapi/middleware/rate_limit.go:48-64 | With a monotone clock any half-open interval one window long admits at most 2 * requests - 1 calls of a key |
| `RateLimiter.IntervalBoundReached` | backend/internal/httpapi/middleware/rate_limit.go:48-64 | That bound is reached |
| `MetricsSummary.SummaryIsDirect` | backend/internal/metrics/clickhouse.go:525-572 | The dashboard summary computed from daily averages and counts equals the means and counts of the selected samples, over the reals, for every set of rows and range; RawScan says what is selected |
| `MetricsSummary.AveragesAreDirect` | backend/internal/metrics/clickhouse.go:574-661 | So do the average size and review-time figures |
| `RawScan.SummaryFromRaw` | backend/internal/postgres/sqlcgen/metrics.sql.go:58-72 | The dashboard figures in fields of the raw rows: average minutes from creation to merge over the non-draft pull requests merged in the range, from request to first review over human reviews of those created in it, successes per day, failures among deployments, reviewed among created ones |
| `RawScan.StoredSummaryFromRaw` | backend/internal/metrics/clickhouse.go:399-475 | The same from records stored by any roll-ups that cover the range |
| `RawScan.AveragesFromRaw` | backend/internal/postgres/sqlcgen/metrics.sql.go:106-130 | So are the average files, additions and deletions of the created pull requests and the review time from request to submission |
| `RawScan.RangeTakesIn` | backend/internal/metrics/service.go:695-721 | A requested range covers exactly the instants from the beginning of its first day to the end of its last, and is refused if an end is missing or it ends on an earlier day |
| `RawScan.RowFromRaw` | backend/internal/metrics/service.go:843-930 | Each daily record holds the counts and averages of its own day, every measure its own |
| `StoredMetrics.AdjacentRanges` | backend/internal/metrics/service.go:843-930 | The records of adjacent ranges are together those of the union |
| `StoredMetrics.StoredSummaryIsDirect` | backend/internal/metrics/clickhouse.go:399-475 | Whatever ranges the roll-ups had, as long as they cover the requested one: the stored records are those of a single roll-up and their summary is the direct scan (RawScan.StoredSummaryFromRaw has it in raw fields) |
| `StoredMetrics.MetricsTable.Refresh` | backend/internal/metrics/service.go:106-148 | A roll-up upserts one record for each day of its range |
| `MetricsSummary.AggregateSummary` | backend/internal/metrics/clickhouse.go:525-572 | The loops compute the recombination of the columns |
| `MetricsSummary.DayCount` | backend/internal/metrics/service.go:782-795 | Calendar or business days of the range |
| `MetricsSummary.WeekHasFive` | backend/internal/metrics/service.go:782-795 | Any seven further days add five business days |
| `MetricsSummary.WeekendIs` | backend/internal/metrics/service.go:782-795 | Exactly Saturdays and Sundays count nothing |
| `DayMeans.RecombinedIsMean` | backend/internal/postgres/sqlcgen/metrics.sql.go:58-72 | Group averages weighted by group counts recombine to the average of all samples |
| `DailyMetrics.BuildDailyMetrics` | backend/internal/metrics/service.go:843-930 | The loops over the four grouped queries fill one record a day with that day's share of every measure |
| `DailyMetrics.AssignRows` | backend/internal/metrics/service.go:850-915 | Assigning the rows a query has equals assigning every day |
| `IntervalTrend.GroupMetricsByInterval` | backend/internal/metrics/clickhouse.go:758-790 | Labels are distinct, ascending, one for every day and no other, each with the sums of its rows |
| `IntervalTrend.TrendIsUnique` | backend/internal/metrics/clickhouse.go:758-790 | There is one such trend, in whatever order the map is iterated |
| `IntervalTrend.TrendConserves` | backend/internal/metrics/clickhouse.go:758-790 | The totals of the intervals add up to those of the rows |
| `TrendScan.TrendFromRaw` | backend/internal/metrics/clickhouse.go:758-790 | The totals of each interval are the counts and minutes of the raw pull requests, reviews and deployments whose day has its label |
| `DeploymentPaths.PathsAgreeIff` | backend/internal/metrics/clickhouse.go:663-724 | On the same deployments the raw and the rolled-up path give the same result if and only if no status is another spelling of success, nor of failed unless nothing succeeded and something failed as "failed" |
| `DeploymentPaths.FoldsToWord` | backend/internal/metrics/clickhouse.go:714-719 | Which spellings the raw path takes for success and for failed |
| `DeploymentPaths.LowerCaseHasNoVariant` | backend/internal/metrics/clickhouse.go:714-719 | Lower-case statuses have no such spellings |
| `DeploymentPaths.StoredRowsHaveCounts` | backend/internal/postgres/sqlcgen/metrics.sql.go:14-24 | The stored roll-up counts the exact statuses of each day |
| `DeploymentPaths.TrendSumsToCount` | backend/internal/metrics/clickhouse.go:663-695 | The trend values sum to the deployment count, for every interval |
| `DeploymentPaths.AggregateDeploymentMetrics` | backend/internal/metrics/clickhouse.go:663-695 | Count, frequency, failure rate and trend of the records |
| `TrendScan.RolledFromRaw` | backend/internal/metrics/clickhouse.go:663-695 | Count, frequency and failure rate in terms of the raw deployments with status exactly success or failed, and each trend point the successful ones of its label |
| `TrendScan.FoldedFromRaw` | backend/internal/metrics/clickhouse.go:697-724 | On the raw path: of those that spell success or failed in any case |
| `DeploymentPaths.DailyFromRaw` | backend/internal/metrics/clickhouse.go:697-724 | The raw path counts each day's statuses under case folding |
| `DataCoverage.Measure` | backend/internal/metrics/clickhouse.go:804-844 | Covered days, oldest and newest |
| `DataCoverage.PartialIffMissing` | backend/internal/metrics/clickhouse.go:804-844 | The coverage is partial iff some day of the range has no record |
| `Hotspots.RankingIsUnique` | backend/internal/metrics/service.go:314-323 | The ranking is the same for every order of input rows and map iteration |
| `Hotspots.RankedByScore` | backend/internal/metrics/service.go:314-323 | It holds the files by falling score, or rising, and equal scores by path |
| `Hotspots.FileIs` | backend/internal/metrics/clickhouse.go:726-747 | Each file carries the totals of the rows of its path, each weighted by its own weight |
| `Hotspots.RowsInRange` | backend/internal/postgres/sqlcgen/metrics.sql.go:332-339 | A file change is left out iff its pull request was created after the range, or created and merged before it |
| `Hotspots.TotalsConserved` | backend/internal/metrics/clickhouse.go:726-747 | Additions, deletions and commits of the files add up to those of the rows |
| `Hotspots.PagesPartition` | backend/internal/metrics/service.go:325-336 | The first n pages are the first n * size files of the ranking |
| `Hotspots.AggregateHotspots` | backend/internal/metrics/clickhouse.go:726-747 | One file for each path, with its totals and the weighted score of those totals |
| `Hotspots.GetHotspots` | backend/internal/metrics/service.go:278-337 | Which requests are refused; the others get their page of the ranking of the file changes in range, and the number of files |
| `Sorting.AscendingIsUnique` | backend/internal/metrics/service.go:315-323 | A strict order leaves one sorted arrangement |
| `Insights.KeptIsFirstGreatest` | backend/internal/insights/service.go:303-327 | The insight kept for a fingerprint is at least as severe as every other, among equally severe ones the latest detected, and the first of those |
| `Insights.FirstOccurrenceOrder` | backend/internal/insights/service.go:303-327 | The kept insights are in the order of first occurrence |
| `Insights.DeduplicatedTwice` | backend/internal/insights/service.go:303-327 | Deduplication is idempotent |
| `Insights.DeduplicateInsights` | backend/internal/insights/service.go:303-327 | The loop computes that list; disabled or below two insights nothing changes |
| `Insights.ReopensIff` | backend/internal/insights/service.go:329-351 | A service-written row reopens iff the rules allow it and the detection is strictly later than every recorded time |
| `Insights.LoadedRowIs` | backend/internal/insights/service.go:154-215 | Loading reopens the rows of exactly the due insights, keeping the reviewer and dropping the dismissal, and leaves the others |
| `Insights.ShownIsStored` | backend/internal/insights/service.go:154-215 | What is shown of an insight is its stored row, or an open one without times |
| `Insights.RefreshedRowIs` | backend/internal/insights/service.go:108-152 | After a refresh every insight shown open is stored as shown, and the other rows are as loading left them |
| `Insights.EveryRowTimed` | backend/internal/insights/service.go:108-277 | In every run of the service's operations each reviewed or dismissed row carries its time |
| `Insights.LoadingTwiceWritesOnce` | backend/internal/insights/service.go:154-215 | Loading the same generated insights again writes no status |
| `Insights.Store.LoadInsights` | backend/internal/insights/service.go:154-215 | What is shown, which rows are rewritten and in which order |
| `Insights.Store.Refresh` | backend/internal/insights/service.go:108-152 | Loading, then storing every open insight |
| `Sessions.SpentAtMostOnce` | backend/internal/auth/repository.go:200-229 | Each refresh token is consumed by at most one rotation, under every interleaving of reads, rotations, logins and revocations |
| `Sessions.RotationSpends` | backend/internal/auth/service.go:94-143 | When a reader reaches its rotation without a revocation the token is consumed, by that reader if nobody was first |
| `Sessions.RevokedIsFinal` | backend/internal/auth/repository.go:231-241 | After a revocation the session never changes again and its token is never consumed |
| `Sessions.RotatedAccessDies` | backend/internal/auth/service.go:152-172 | A rotated-away access token authenticates nobody from then on |
| `Sessions.RotationGrants` | backend/internal/auth/service.go:94-143 | The winning rotation issues two new tokens, good until the two ends it was given, and touches no other session |
| `Sessions.LoginWorks` | backend/internal/auth/repository.go:107-138 | So does a login for a new session |
| `Sessions.ReadRemembers` | backend/internal/auth/service.go:103-110 | A reader passes iff the token is the current one of a live session, and remembers both |
| `Sessions.Store.Refresh` | backend/internal/auth/service.go:94-143 | Undisturbed, a refresh succeeds iff the token is the current one of a live session |
| `Sessions.Store.RotateSession` | backend/internal/auth/repository.go:200-229 | The compare-and-swap |
| `Sessions.Store.RevokeSession` | backend/internal/auth/repository.go:231-241 | The guarded revocation |
| `OwnerGuard.AlwaysAnOwner` | backend/internal/organizationmember/service.go:50-82 | An organization with an owner always keeps one, under every interleaving, if nobody is promoted to owner between another request's read of that member and its commit |
| `OwnerGuard.LosesLastOwnerIff` | backend/internal/organizationmember/repository.go:114-184 | A commit takes the last owner away iff it removes the only owner for a request that has read another role |
| `OwnerGuard.OvertakenRemovalLosesOwner` | backend/internal/organizationmember/service.go:50-82 | A run in which that happens |
| `OwnerGuard.Store.Update` | backend/internal/organizationmember/service.go:50-68 | Undisturbed, a role change never takes the last owner away: it is refused iff the sole owner would step down, and otherwise changes just this role |
| `OwnerGuard.Store.Delete` | backend/internal/organizationmember/service.go:70-82 | So is a removal: refused iff the member is the sole owner, otherwise just this member goes |
| `OwnerGuard.Store.UpdateRoleWithOwnerGuard` | backend/internal/organizationmember/repository.go:114-148 | The transaction of a role change |
| `OwnerGuard.Store.DeleteWithOwnerGuard` | backend/internal/organizationmember/repository.go:153-184 | The transaction of a removal |
| `InstallationState.AcceptedIff` | backend/internal/githubconnection/service.go:179-206 | For arbitrary names, a state printed at second t is accepted at time now iff now is in [t - 5 min, t + 30 min] and either the names are colon-free and match (any user if none was printed), or no user was printed and the organization is the accepting organization and user with one colon between them |
| `InstallationState.ColonFreeAcceptedIff` | backend/internal/githubconnection/service.go:97-116 | The first of the two cases: print, join, split and parse give back the names and the time |
| `InstallationState.ColonNeverAccepted` | backend/internal/githubconnection/service.go:179-206 | With a colon in its own organization, or in the user of a colon-free one, a state is never accepted in that organization, or anywhere |
| `InstallationState.StartInstallation` | backend/internal/githubconnection/service.go:105-110 | The printed state |
| `Text.SplitJoin` | backend/internal/githubconnection/service.go:179-181 | Splitting undoes joining iff no part holds the separator |
| `Text.ParseFormat` | backend/internal/githubconnection/service.go:195-198 | Parsing undoes printing for every int64 |

## Left out

- `main` programs, HTTP handlers, routing, tracing, configuration and the audit log: plumbing.
- The GitHub client, ClickHouse, NATS and pgx: inputs or atomic steps. Database isolation is assumed, not proved.
- HMAC, SHA and JWT: hashes are taken as injective, generated ids and tokens as fresh.
- Which reviewer names belong to bots: an input (`byHuman`).
- Columns that only hold ids, `repository_id`, `created_at` or `updated_at`, and the optional fields of insights.
- 64-bit overflow, except for page numbers and the seconds of the installation state, which are parsed as int64.
- `RemoteItems.CommitsResume`: the remote and the cutoff are fixed during a job; the code looks the cutoff up again in each attempt, and an incremental sync does not cover every update since the last one. The same holds for the other resume lemmas.
- `JobResume.JobResumesClean`: does not speak about reviews and files, which a resumed job can leave incomplete: `ResumedReviewsWholeIff` and `ResumedIsWholeIff` say when.
- `SharedTables.SettledByTheSameEvents`: gives no common row for commits, where the last write wins (`LastEventDescribes`).
- `PullRequestReviews.ResumedReviewsWholeIff`: a listing names each review once.
- `JobResume.PullRequestsAbsorb`: for pull requests as GitHub reports them, open or closed with closed_at set exactly when closed; so are the results on resumed jobs.
- `SyncRun.Run.Execute`: one run per job; a resource write that has nothing to write is counted like any other.
- Enqueue, Retry and Cancel of the job service: checks followed by the unguarded updates of `SyncJobs`.
- At most one active job per repository: it is a check followed by an insert, and the webhook path inserts without the check.
- `WebhookDeliveries.EveryRun`: status writes succeed; the interleaved model lets a request die between any two of them.
- `MetricsSummary.SummaryIsDirect`: reals instead of float64, so rounding is not modelled.
- `IntervalTrend.GroupMetricsByInterval`: the label of a day is a parameter; ISO weeks and month names are not computed.
- `StoredMetrics.StoredSummaryIsDirect`: the raw rows do not change between the roll-ups.
- `Insights.Store.LoadInsights`: one clock reading per load; the rules that generate insights, and filtering and paging of the list, are inputs or left out.
- `InstallationState.AcceptedIff`: instants are unbounded nanoseconds, where Go's time wraps for seconds near the int64 limits.
- Rule-settings overlay, list validators and role lookup: decided branch by branch.
