# Verified model of the Nexora operation lifecycle

Nexora accepts AI operations from tenants, queues them in Redis, lets worker processes run them
against Service 2 (operations), retries failures with backoff, and bills and announces outcomes
through Service 3 (usage and webhooks). This Dafny project models that lifecycle and proves what
it guarantees. `dafny verify dfyconfig.toml` checks everything.

## How the model is laid out

- **The protocol** (`Protocol.dfy`): one transition system holding the operation and attempt rows,
  the main list, the delayed set, the concurrency counters, the usage ledger, the emitted events, the
  clock, the scheduler's range read, and one phase per worker and per request in flight. One action is
  one SQL statement or transaction, one Redis command or MULTI, or one local decision; actions of
  different threads interleave freely.
- **Two fault levels.** `F0`: every call succeeds and returns. `F1` adds `Drop` (a crash, a dropped or
  malformed job, a failed call, a lost message), `GiveUp` (a caller times out while its request lives
  on and may still execute), `ReReport` (a success report times out, so the worker also reports a
  transient failure, while the success may still land later), `DropScan`, and failed INCR, DECR or SET. A
  request executes at most once. Every theorem names its level; a `level` parameter means both.
- **The invariants.** `Carrier.Inv` (both levels): an operation has at most one *carrier*, a place from
  which a further attempt of it can come: a queued, delayed or popped job, a start in flight, a live
  attempt, or a failure report not yet rescheduled. `FaultFree.Inv0` adds for `F0` that outcomes match
  the attempt history, that nothing is orphaned, and that billing follows outcomes. Nothing in the code
  locks an operation; these invariants are what makes the unguarded `StartAttempt` safe.
- **The source's own form.** `Postgres.Repository`, `Redis.Queue`, `Handlers.Handler`,
  `Handlers.Notifier`, `Workers.Worker`, `Usage.UsageRepository`, `Dispatch.WebhookRepository`,
  `Dispatch.Dispatcher` and `RateLimit.RateLimiter` are classes whose methods change their fields step
  by step. Each is proved against the same statement functions (`Store`, `JobQueue`, `Flows`,
  `Webhooks`, `RateLimit`) the transition systems use; `Traces` and `WorkerTraces` show that a
  handler, `process_job` and the polling loop, run without interruption, are runs of the protocol.
- **Where values come from.** The contracts of the handlers, the worker, the dispatcher and the rate
  limiter spell out every column and destination, beside the statement functions they share with the
  transition systems. `Provenance` and `Receipts` say the same of whole runs: each stored value, bill
  and announcement goes back to the request, start, report or cancel that supplied it.
- **Webhook deliveries** (`Webhooks.dfy`, `WebhookDeadlines.dfy`): the inline first attempt and the
  retry sweep on one row, in any interleaving, with the inline mark late or lost.
- **Arithmetic**: the int64 backoff (`Backoff.dfy`) and the expiring-counter rate limiter
  (`RateLimit.dfy`).

Generated identifiers, clock readings, jitter, provider results, the success of each call and the
replies of queries whose order the database chooses are parameters. Within one handler step there is
one clock reading. The jitter fraction is a whole number of thousandths. There is one scheduler, as
deployed (`services/operations/cmd/main.go:44`, `docker-compose.yml:40-54`).

## Where the code departs from its own documentation

`README.md:65-79` of the repository promises more than the code keeps. The model follows the code:

- No statement ever moves RETRYING to QUEUED; a promoted job is started from RETRYING
  (`Lifecycle.ExactTransition`).
- The enqueue precedes the QUEUED mark, so a row can go PENDING to RUNNING: `Cancellation.UnqueuedRun`
  is such a run, and `QueuedMark.StartSkipsQueuedIff` says exactly when a first start finds its row
  PENDING.
- CANCELLED is not final: a start whose fetch preceded the cancel makes the operation RUNNING again.
  `Cancellation.RevivedRun` is such a run; `Cancellation.CancelSticksIffNoStartInFlight` says exactly
  when a cancel is final.
- A cancelled operation whose attempt was running can still be billed and announced.
  `Billing.CancelledBilledRun` is a fault-free run that ends so; `Billing.CancelledUnbilledIff` and
  `Billing.CancelledUntoldIff` say exactly when a cancelled operation stays unbilled or unannounced.
- The backoff product wraps from attempt 33 on. Eight later attempts (36, 40, 41, 44, 46, 49, 50, 52)
  wrap to a positive value above the cap and get the scheduled delay all the same; the others up to 53
  get a negative delay that the cap does not catch, and from 54 on the delay is zero
  (`Backoff.BaseDelayOfEveryAttempt`, with jitter `Backoff.DelayOfEveryAttempt`). A negative delay can
  put a job below the scores the scheduler reads, where it stays for good
  (`Stranding.StrandedIffScoreNegative`). The service's three retries stay far below
  (`Promotion.ScheduledDelay`).
- A webhook delivery can be sent up to seven times, not five. Five sends are all if the inline mark
  lands less than 70 s after the creation, and not if it may land then or later; from 150 s on it can
  be seven (`WebhookDeadlines.SufficeIffMarkedInTime`). DELIVERED and FAILED are not final while the
  inline attempt or a sweep is still under way (`Webhooks.ReopenedRun`, `Webhooks.ClosedIsFinalIff`).

## Model

| member | source | states |
|---|---|---|
| Lifecycle.SingleCarrier | services/operations/internal/handler/handler.go:197-253 | in every F0 and F1 run, jobs queued, delayed or popped, starts in flight, live attempts and failure reports owed never exceed one per operation, even when a success and a failure are both reported for one attempt |
| Lifecycle.NoTwoWorkers | worker/app/main.py:40-95 | no two workers are ever between pop and report on the same operation |
| CarrierSteps.StepKeepsInv | services/operations/internal/handler/handler.go:61-253 | every action of either level keeps the carrier invariant, numbering and key uniqueness included |
| Release.FreeStays | services/operations/internal/queue/queue.go:37-80 | an operation without a carrier never gets one again, so it can never be started again |
| Lifecycle.ExactTransition | services/operations/internal/repository/postgres.go:218-327 | status changes are exactly PENDING to QUEUED, {PENDING, QUEUED, RETRYING, CANCELLED} to RUNNING, RUNNING to an outcome or RETRYING, non-terminal to CANCELLED; the attempt count moves by one, exactly with a start; RUNNING is never started again |
| Lifecycle.SettledStep | services/operations/internal/repository/postgres.go:225-312 | no step touches the row of a SUCCEEDED, FAILED or DEAD_LETTERED operation although the start statement has no guard |
| Lifecycle.SettledForever | services/operations/internal/repository/postgres.go:225-312 | along any path of either level the whole row is frozen from then on |
| Lifecycle.LateReportKeepsRow | services/operations/internal/repository/postgres.go:251-312 | while an operation waits for its next start, a report that lands late changes no row |
| Lifecycle.AttemptAccounting | worker/app/main.py:56-58 | attempts are numbered 1..attempt_count without gap or repeat and number at most max(1, max_retries), although the worker computes the number from an earlier read |
| Lifecycle.RetryDecisionCurrent | services/operations/internal/handler/handler.go:205-229 | the retry decision taken from the row read before the transaction is the one the current row gives |
| Rows.ColumnsTell | services/operations/internal/repository/postgres.go:218-327 | at both levels an operation has an output iff SUCCEEDED, a start time iff attempted, an error message when failed or retrying, an end time not before its start when ended; attempt rows are open or carry what their outcome calls for |
| Provenance.RowEvolves | services/operations/internal/repository/postgres.go:218-327 | what every action writes, column by column: a row changes by exactly its statement or not at all, and its tenant, key, type, input, retries and creation time never |
| Provenance.RowAppears | services/operations/internal/repository/postgres.go:45-50 | a new row carries the tenant, key, type, input and retries of the request inserted, PENDING, with nothing else set |
| Provenance.RowTellsHistory | services/operations/internal/repository/postgres.go:218-327 | in every run of both levels: the output is that of a committed success report and the end its time; the error that of a committed failure report of the category the status calls for; the start time that of attempt number 1, however many followed; a CANCELLED row ended when its own tenant cancelled it; the rest is the request inserted |
| Provenance.AttemptTellsHistory | services/operations/internal/repository/postgres.go:225-295 | every attempt carries the operation, number, worker and time of its start; verdict and end of one report on it; provider and latency of one success report, category and detail of one failure report |
| Provenance.CreatorsAgree | services/operations/internal/handler/handler.go:79-107 | a row and the handler that inserted it agree on tenant, key, type, input and retries |
| Receipts.NothingWithoutReport | services/operations/internal/sideeffects/notify.go:33-44 | at both levels every usage row, event and goroutine goes back to a committed report on the operation that calls for it (success; permanent failure; other failure), under the operation's own tenant; a usage row is one unit dated by its record |
| Cancellation.CancelSticksIffNoStartInFlight | services/operations/internal/repository/postgres.go:232-235 | a CANCELLED operation stays CANCELLED in every continuation iff no start request for it is in flight |
| Cancellation.CancelledPath | services/operations/internal/repository/postgres.go:314-327 | cancelled with no start in flight, the row never changes again |
| Cancellation.RevivedRun | worker/app/main.py:49-58 | a fault-free run PENDING, CANCELLED, RUNNING |
| Cancellation.UnqueuedRun | services/operations/internal/handler/handler.go:99-103 | a fault-free run from PENDING to RUNNING without QUEUED |
| QueuedMark.QueuedIffAcknowledged | services/operations/internal/handler/handler.go:92-109 | at both levels an operation is PENDING iff it was neither started nor cancelled and its create has not executed the mark and answered, QUEUED iff it was neither and its create has |
| QueuedMark.StartSkipsQueuedIff | services/operations/internal/handler/handler.go:99-103 | a start in flight finds its row PENDING iff it is the first, nobody cancelled and the create, which has pushed the job, has not answered; in F0 iff its mark is still in flight |
| Billing.CancelledBilledRun | services/operations/internal/handler/handler.go:218-226 | a fault-free run that ends with a CANCELLED operation in the ledger and announced |
| Billing.CancelledUnbilledIff | services/operations/internal/handler/handler.go:205-226 | at both levels a cancelled unbilled operation stays unbilled in every continuation iff no worker has a start or attempt of it under way, no success report for it is under way and no goroutine meters it |
| Billing.CancelledUntoldIff | services/operations/internal/handler/handler.go:218-250 | a cancelled unannounced operation stays unannounced in every continuation iff, besides, no report that would end it is under way and no goroutine announces it |
| FaultFreeRuns.RunInv0 | services/operations/internal/handler/handler.go:61-253 | every state of an F0 run meets the fault-free invariant: clean histories, free finished operations, matching side effects, no orphan |
| FaultFreeRuns.NoOperationOrphaned | services/operations/internal/handler/handler.go:79-107 | in F0 every non-terminal operation has exactly one carrier, the insert-to-enqueue window of create counted |
| FaultFreeRuns.QuiescentMeansTerminal | services/operations/internal/handler/handler.go:228-250 | with both queues empty and nothing active every operation is terminal and every success is billed |
| FaultFreeRuns.HistoryDecidesOutcome | services/operations/internal/repository/postgres.go:280-311 | SUCCEEDED: last attempt succeeded; FAILED: last failed permanently; DEAD_LETTERED: last failed transiently with no retries left; all earlier attempts failed transiently |
| FaultFreeRuns.BillingAgrees | services/operations/internal/sideeffects/notify.go:33-44 | at most one terminal event per operation; events and ledger rows match the status or CANCELLED; every success is ledgered or has its record pending |
| FaultFreeEnds.FreeRowFixed | services/operations/internal/repository/postgres.go:266-312 | a terminal row without a carrier, CANCELLED included, is final |
| Termination.EveryActionRunsDown | services/operations/internal/handler/handler.go:228-247 | every F0 action but ticks and new requests lowers the measure or changes nothing, although a cancelled operation can be revived and cancelled again |
| Termination.BoundedWork | services/operations/internal/queue/queue.go:61-80 | without new requests an F0 run makes at most as many effective steps as the initial measure |
| Progress.OpenMeansProgress | services/operations/internal/queue/queue.go:61-80 | while an operation is non-terminal, a measure-lowering step other than a cancel or a new row is enabled now or once the clock passes a delayed score, unless its own delayed job has a negative score |
| Completion.AllCanFinish | services/operations/internal/handler/handler.go:228-250 | from every reachable F0 state with a worker and rows asking for at most 33 retries, some continuation without new requests, new rows and cancels ends with every operation terminal |
| Completion.EveryRunFinishes | services/operations/internal/handler/handler.go:228-250 | in whatever order an F0 run with a worker goes on, the actions after its last request that change anything number at most the measure, and once no action can change anything now or later every operation is terminal, save those beyond 33 retries whose delayed job has a negative score |
| Stranding.StrandedIffScoreNegative | services/operations/internal/queue/queue.go:62-65 | a delayed job stays in the delayed set in every continuation iff its score is negative |
| Stranding.StrandedOnlyIfWrapped | services/operations/internal/queue/queue.go:49-55 | only an attempt number whose backoff wraps negative can give such a score |
| Stranding.AttemptThirtyFourStrands | services/operations/internal/queue/queue.go:49-55 | and attempt 34 does, at any time before 2050 |
| Occupancy.CounterGuarantees | services/operations/internal/queue/queue.go:111-128 | in F0 each tenant's counter is the number of its attempts between INCR and DECR, the clamp is never due, the total is at most the number of workers, and all are zero at quiescence |
| Occupancy.DecrFindsPositive | services/operations/internal/handler/handler.go:214-216 | every DECR of an F0 run finds a counter of at least one |
| Idempotency.RepliesAgree | services/operations/internal/repository/postgres.go:31-67 | at both levels all replies for a (tenant, key) name one row holding that key, and at most one says it created it |
| Idempotency.PutIfAbsent | services/operations/internal/handler/handler.go:79-103 | in F0, when the handlers of a (tenant, key) are done, one row holds the key, exactly one reply says existed = false and exactly one job was pushed |
| Idempotency.PushedAtMostOnce | services/operations/internal/handler/handler.go:92-99 | the first job of an operation is pushed at most once, at either level |
| Idempotency.PushedBeforeReply | services/operations/internal/handler/handler.go:92-109 | a reply existed = false comes after its job was pushed |
| Idempotency.KeysPerTenant | db/migrations/001_init.sql:45-46 | equal keys of different tenants never meet |
| Isolation.StepProjects | services/operations/internal/repository/postgres.go:69-144 | each F0 step is, for each tenant, a step of that tenant's part of the system or invisible to it |
| Isolation.ProjectedRun | services/operations/internal/queue/queue.go:61-128 | the projection of any multi-tenant F0 run to one tenant is a run of the same system |
| Isolation.OthersUnseen | services/operations/internal/repository/postgres.go:314-327 | another tenant's step changes no answer of this tenant's get, list or cancel |
| Isolation.SeesAsIfAlone | services/operations/internal/repository/postgres.go:77-144 | at every point a tenant sees what it would see at the end of a run in which it is alone |
| Listing.PageFacts | services/operations/internal/repository/postgres.go:112-144 | a page holds distinct rows of the caller's tenant in the status asked for, any status when none is, newest first, and is full unless those rows run out |
| Listing.OrderingLists | services/operations/internal/repository/postgres.go:114-122 | the rows listed are exactly the tenant's, restricted to a status only when one is given |
| Listing.PageRank | services/operations/internal/repository/postgres.go:119-123 | row i of a page has rank offset + i among those rows, newest first |
| Listing.LookupFinds | services/operations/internal/repository/postgres.go:77-87 | a row is found exactly by its own tenant |
| Promotion.PoppedInPushOrder | worker/app/main.py:85-95 | over any run, jobs popped so far followed by jobs waiting are the jobs ever pushed, in push order |
| Promotion.PromotedConsumedInOrder | services/operations/internal/queue/queue.go:73-78 | a promoted batch is consumed after everything pushed before it, in ascending ready-at order |
| Promotion.JobsConserved | services/operations/internal/queue/queue.go:38-80 | no step loses or duplicates a job: only enqueue and schedule add one copy, only a pop removes one |
| Promotion.PromotionMovesExactlyTheDue | services/operations/internal/queue/queue.go:61-80 | whatever runs between its range read and its MULTI, a promotion moves exactly the jobs due at the read and leaves every other delayed job alone |
| Promotion.PromotedNotEarly | services/operations/internal/queue/queue.go:49-65 | a promoted job was scheduled by an earlier step and less than one second of its delay is missing |
| Promotion.ReadyIsRead | services/operations/internal/queue/queue.go:61-65 | nor late: once the backoff is over, every range read returns the job, unless its score is negative |
| Promotion.ScheduledDelay | services/operations/internal/handler/handler.go:236-244 | every backoff exponent in a run lies in 1..max_retries - 1; up to 33 retries none wraps, and with 3 the delay is in [4 s, 9.6 s) |
| JobQueue.LPushAllReverses | services/operations/internal/queue/queue.go:73-77 | a pushed batch lies reversed at the head of the list |
| JobQueue.DueReplyExists | services/operations/internal/queue/queue.go:63-65 | the range read always has an answer: the due members, ascending |
| Backoff.NoWrapUpTo32 | services/operations/internal/queue/queue.go:84-90 | up to attempt 32 the int64 computation gives the ideal capped schedule |
| Backoff.DelayWindow | services/operations/internal/queue/queue.go:84-93 | the delay lies in [ideal, 1.2 ideal) |
| Backoff.JitterAdds | services/operations/internal/queue/queue.go:91-101 | on schedule, jitter adds its fraction of a fifth of the delay, rounded down |
| Backoff.MoreJitterLonger | services/operations/internal/queue/queue.go:91-93 | on schedule, more jitter always means a longer delay |
| Backoff.IdealTable | services/operations/internal/queue/queue.go:85-90 | the schedule is 2, 4, 8, 16, 32 and then 60 seconds |
| Backoff.IncreasesIff | services/operations/internal/queue/queue.go:84-93 | for every attempt number, the next delay is longer whatever the two jitters iff the attempt is -1 to 4 or one of 35, 39, 43, 45, 51, from which a wrapped product leaves the negative numbers |
| Backoff.BaseDelayOfEveryAttempt | services/operations/internal/queue/queue.go:84-90 | for every attempt, the base delay is the scheduled one iff the attempt is at most 32 or one of eight named ones, negative for the others from 33 to 53, zero from 54 on and for negative attempts |
| Backoff.DelayOfEveryAttempt | services/operations/internal/queue/queue.go:84-93 | for every attempt and jitter, the delay is in [ideal, 1.2 ideal) exactly on schedule; otherwise zero, negative, or above twice the cap where jitter wraps a negative delay once more |
| Backoff.FirstWrapIs33 | services/operations/internal/queue/queue.go:87-90 | all attempts up to a number are on schedule iff the number is below 33 |
| Usage.UsageRepository.RecordUsage | services/usage-webhooks/internal/repository/postgres.go:25-31 | the first record of an operation is kept, later ones change nothing |
| Usage.UsageRepository.GetUsageSummary | services/usage-webhooks/internal/repository/postgres.go:33-51 | remaining quota is zero iff the quota is used up, and otherwise complements consumption |
| Usage.BillCountsOperations | db/migrations/001_init.sql:70 | whatever records arrive, in whatever order and however often, the month's units are the number of the tenant's distinct operations first recorded in it |
| Usage.DeliveryOrderIrrelevant | services/usage-webhooks/internal/repository/postgres.go:22-31 | within a month two deliveries that mention the same operations bill the same, however duplicated and shuffled |
| Usage.RunBill | services/usage-webhooks/internal/repository/postgres.go:33-40 | in F0 the bill counts ledgered operations, all succeeded or cancelled, and at quiescence covers every success |
| Postgres.Repository.CreateOperation | services/operations/internal/repository/postgres.go:31-67 | inserts iff no row holds the key when the INSERT runs, whatever happened since the lookup, and the new row is the request's, column by column; otherwise returns a row holding the key; the unique index is kept |
| Postgres.Repository.GetByIdempotencyKey | services/operations/internal/repository/postgres.go:69-75 | finds a row holding the key iff there is one |
| Postgres.Repository.GetOperation | services/operations/internal/repository/postgres.go:77-87 | answers a row only to its own tenant |
| Postgres.Repository.ListOperations | services/operations/internal/repository/postgres.go:112-144 | the scanned records are the page's rows, in order, all selected by the filter |
| Postgres.Repository.TransitionToQueued | services/operations/internal/repository/postgres.go:218-222 | guarded PENDING to QUEUED |
| Postgres.Repository.StartAttempt | services/operations/internal/repository/postgres.go:225-248 | row and attempt change together, or neither when the operation is unknown; a start time already there is kept |
| Postgres.Repository.CompleteAttemptSuccess | services/operations/internal/repository/postgres.go:251-274 | the attempt is closed in any case with the provider and latency reported; a RUNNING row becomes SUCCEEDED with the output reported, no other row does |
| Postgres.Repository.CompleteAttemptFailure | services/operations/internal/repository/postgres.go:280-312 | next status by category and retry decision; category and detail go to the attempt, the detail to the row if it is RUNNING, the end time only if no retry follows |
| Postgres.Repository.CancelOperation | services/operations/internal/repository/postgres.go:314-327 | succeeds iff the tenant's operation is not terminal, which is then CANCELLED as of now |
| Redis.Queue.PromoteDueRetries | services/operations/internal/queue/queue.go:61-80 | the loop of LPUSH and ZREM has the effect of pushing and removing the whole reply on the state the MULTI meets |
| Redis.Queue.DecrConcurrency | services/operations/internal/queue/queue.go:119-128 | one less, or zero written over whatever the counters are by then if that was negative; a failed DECR changes nothing and is reported, a failed SET leaves the counters as they are unreported |
| Redis.Queue.BrPop | worker/app/main.py:86-89 | takes the tail, or nothing from an empty list |
| Handlers.Handler.CreateOperation | services/operations/internal/handler/handler.go:61-110 | every reply of create with its effect on the stores: missing tenant, bad body, duplicate exactly for a key the tenant has used, failed enqueue or mark, and accepted with the row, the 202 body and the job spelled out |
| Handlers.Handler.ListOperations | services/operations/internal/handler/handler.go:122-140 | the tenant's rows in the status asked for, at most 100, and as many as the limit (25 unless 1 to 100) and the offset leave of them |
| Handlers.Handler.GetOperation | services/operations/internal/handler/handler.go:112-120 | the row to its own tenant, 404 to everyone else |
| Handlers.Handler.CancelOperation | services/operations/internal/handler/handler.go:142-149 | 204 iff the tenant's operation was not terminal, and then it is CANCELLED as of now; else 409 and nothing changes |
| Handlers.Handler.StartAttempt | services/operations/internal/handler/handler.go:156-182 | unknown operation: nothing changes; else the row, the attempt and, if Redis answers, the counter of its tenant, column by column |
| Handlers.Handler.CompleteAttempt | services/operations/internal/handler/handler.go:197-253 | row, attempt row, counter, retry job with its score, reply and goroutine after a report, column by column, for every combination of failing Redis calls |
| Handlers.Notifier.NotifySuccess | services/operations/internal/sideeffects/notify.go:33-36 | one usage record of one unit, then one operation.succeeded notice that carries the output |
| Handlers.Notifier.NotifyTerminalFailure | services/operations/internal/sideeffects/notify.go:38-44 | one notice, operation.failed or operation.dead_lettered as the status calls for, without data |
| Traces.CreateLeads | services/operations/internal/handler/handler.go:79-110 | a create without duplicate is a definite run of protocol actions with exactly the handler's effect, failures included |
| Traces.RepeatLeads | services/operations/internal/handler/handler.go:85-90 | a repeated create is lookup and reply, nothing else |
| Traces.BeginLeads | services/operations/internal/handler/handler.go:156-182 | startAttempt likewise |
| Traces.CompleteLeads | services/operations/internal/handler/handler.go:197-253 | completeAttempt likewise, clamp, retry and goroutine included |
| Traces.NotifyLeads | services/operations/internal/sideeffects/notify.go:33-44 | the Notifier's calls are the protocol's record and emit steps |
| Workers.Worker.ProcessJob | worker/app/main.py:40-77 | for every fate of its calls: skipped jobs change nothing; otherwise one attempt with this worker and the next number, and row, attempt row and retry job are those of the provider's own report (category, detail, output, provider, latency), of the worker's exception where the success never arrives, or still open; and when it dies |
| Workers.Worker.Poll | worker/app/main.py:80-95 | the polling loop refines its turn-by-turn specification, stopping when the worker dies |
| Workers.PollConcludes | worker/app/main.py:85-95 | when every call is answered, each turn ends the attempt of the oldest job with its own report, and no other row changes |
| Workers.PollDrains | worker/app/main.py:86-94 | every turn takes one job off the list, malformed ones included |
| WorkerTraces.ProcessLeads | worker/app/main.py:40-77 | process_job is a protocol run with exactly its effect on the stores, at F0 if no call fails and at F1 for lost, late and double reports |
| WorkerTraces.PollLeads | worker/app/main.py:85-95 | any number of turns of the loop is a protocol run with the loop's effect |
| Traces.LeadsIsPath | services/operations/internal/handler/handler.go:61-253 | the traces of handlers and workers are paths of the transition system |
| WorkerTraces.PollExtendsRun | worker/app/main.py:85-95 | a run continued by any number of turns of one worker's loop is a run, so every theorem about runs holds of the stores the loop leaves |
| WorkerTraces.PollKeepsInv | worker/app/main.py:85-95 | so the loop keeps the carrier invariant and never touches a settled operation |
| Workers.LateAnswerHarmless | worker/app/main.py:66-77 | a success whose answer is lost, followed by the worker's transient failure, leaves the rows as the success alone; the spurious retry job is skipped |
| Workers.TerminalSkipped | worker/app/main.py:49-54 | a job whose operation is terminal changes nothing, whatever the network does |
| Webhooks.SendBound | services/usage-webhooks/internal/dispatcher/webhook.go:63-115 | in any interleaving at most 7 sends, 6 if the inline mark is lost or came after four selections of the sweep, 5 if after three or fewer |
| Webhooks.LateMarkRun | services/usage-webhooks/internal/repository/postgres.go:118-149 | runs that attain 6 and 7 sends |
| WebhookDeadlines.SufficeIffMarkedInTime | services/usage-webhooks/internal/dispatcher/webhook.go:108-114 | n sends are all a delivery gets in every run whose inline mark lands less than a given time after the creation iff n is at least 5 for a time up to 70 s, 6 up to 150 s, 7 beyond |
| Webhooks.ClosedIsFinalIff | services/usage-webhooks/internal/repository/postgres.go:127-149 | a DELIVERED or FAILED delivery can never become PENDING again iff the inline attempt has been made and has no failure left to mark, and no sweep under way can still report a failure before attempt 5 |
| Webhooks.ReopenedAtMostOnce | services/usage-webhooks/internal/repository/postgres.go:135-141 | in any run a delivery is reopened at most once |
| Webhooks.ReopenedRun | services/usage-webhooks/internal/dispatcher/webhook.go:98-114 | a run in which a DELIVERED delivery becomes PENDING |
| Webhooks.SettledForGood | services/usage-webhooks/internal/repository/postgres.go:127-149 | a closed delivery with the inline attempt over and no sweep under way keeps its whole row and is never sent again |
| Webhooks.OrderlyRowTellsHistory | services/usage-webhooks/internal/dispatcher/webhook.go:76-115 | without overlap: count = sends, PENDING iff fewer than five all failed, DELIVERED iff the last succeeded, FAILED iff five failed |
| Webhooks.OrderlySpacing | services/usage-webhooks/internal/dispatcher/webhook.go:113-114 | without overlap send k+1 follows send k by at least 5 k^2 s, the fifth the first by at least 150 s |
| Webhooks.SweepTurn | services/usage-webhooks/internal/dispatcher/webhook.go:81-83 | an undisturbed sweep of a row is one attempt with the number its own count gives |
| Dispatch.Dispatcher.AttemptDelivery | services/usage-webhooks/internal/dispatcher/webhook.go:87-115 | one POST to the given URL unless no request can be built; the row is counted, dated, and closed or rescheduled by 5 s times the square of the attempt; no other row changes |
| Dispatch.Dispatcher.Dispatch | services/usage-webhooks/internal/dispatcher/webhook.go:45-70 | every active endpoint of the tenant whose insert succeeds gets one delivery of the notice and one first attempt at its own URL under its own secret, in order; a failed insert blocks no other; no other row changes |
| Dispatch.DispatchedRow | services/usage-webhooks/internal/dispatcher/webhook.go:51-68 | each such delivery holds endpoint, operation, event, its own payload and the outcome of attempt 1 |
| Dispatch.Dispatcher.RetryDue | services/usage-webhooks/internal/dispatcher/webhook.go:76-85 | at most 50 due rows, none due longer left out; one POST per row whose attempt gets an answer, in order, with the row's stored payload to the current URL of its own endpoint under that endpoint's secret; each row updated once by its own count, no other row changed |
| Dispatch.AllSent | services/usage-webhooks/internal/dispatcher/webhook.go:81-83 | when every attempt gets an answer, the k-th POST is for the k-th row |
| Dispatch.SweptOnce | services/usage-webhooks/internal/dispatcher/webhook.go:81-83 | each row of a batch is updated exactly once |
| Dispatch.SweptElsewhere | services/usage-webhooks/internal/repository/postgres.go:189-210 | no other row changes |
| Dispatch.BatchReady | services/usage-webhooks/internal/repository/postgres.go:189-210 | the due query yields distinct rows with their stored payloads and counts |
| RateLimit.RateLimiter.Admit | gateway/src/middleware/rateLimit.ts:13-33 | admits iff the counter it reads is within the limit; INCR and EXPIRE change the counter as specified |
| RateLimit.CountIsRank | gateway/src/middleware/rateLimit.ts:17-20 | expiry never resets a counter within its own minute: the count read is the request's rank in its tenant's minute |
| RateLimit.AdmitsExactly | gateway/src/middleware/rateLimit.ts:22-32 | exactly min(arrivals, max(rpm, 0)) requests are admitted per tenant and minute |
| RateLimit.IntervalBound | gateway/src/middleware/rateLimit.ts:36-38 | any half-open interval of L ms admits at most rpm (ceil(L/60000) + 1), a minute at most 2 rpm |
| RateLimit.DoubleBurst | gateway/src/middleware/rateLimit.ts:36-38 | the bound 2 rpm is attained within two milliseconds |

## Left out

- HTTP, JSON and routing: a request is its decoded body; status codes are the constructors of `Handlers.Reply`.
- pgx and go-redis internals, connection retries: each statement, transaction, command or MULTI is one atomic step; a lost connection is a dropped thread.
- Enforcement by the gateway's concurrency and quota guards: both only read at admission, so no bound on running operations or on consumption follows and none is claimed.
- Byte-for-byte identical webhook resends: the payload column is JSONB; the model stores and resends the payload's fields.
- HMAC signing and API keys: foreign cryptography; a POST carries the secret its signature is computed from.
- AI providers and their fallback: a nondeterministic success, transient or permanent failure. Other failure categories are handled by `Handlers.Handler.CompleteAttempt` but no worker of the protocol sends them.
- Floating-point rounding of the jitter, several operations-service replicas, tenant deletion, admin views, the dashboards and the seed script.
- Redis.Queue.PromoteDueRetries: the two lists its MULTI meets are parameters; that the reply is still part of the delayed set then is proved in the protocol (`Promotion.PromotionMovesExactlyTheDue`), not required of the method.
- Handlers.Handler.CompleteAttempt: like every handler method it runs its statements one after the other; what may come between them is in the protocol, which `Traces.CompleteLeads` ties it to.
- Dispatch.Dispatcher.RetryDue: no other update interleaves with the method's batch; overlap with the inline attempt is proved per delivery in `Webhooks`.
- Workers.Worker.Poll: the endless loop is cut off after any given number of turns; the BRPOP timeout is an empty turn.
- Completion.AllCanFinish: needs at least one worker, and rows that ask for at most 33 retries (the service writes 3), because a wrapped delay can strand a job as `Stranding` describes.
- Webhooks.SendBound: one delivery row; the sweep's LIMIT of 50 and its order are in `Dispatch`. Sweeps are sequential and their marks land, as the single retry loop gives when the database answers.
- Usage.BillCountsOperations: every record carries one unit, as the notifier sends it.
