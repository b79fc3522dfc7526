# The DM pipeline, verified

A comment on a post may match rules; for every matching rule the commenting user gets one
direct message, at most ten requests a minute, through a provider that accepts first and
delivers or fails later. Webhooks arrive more than once and in any order, responses get lost,
the process crashes and restarts, comments are deleted while their messages wait. This Dafny
project models that pipeline and proves what holds all the same.

The core is one transition system (`Pipeline`): the database, the memory of the event worker,
of the single DM worker, of the reconciler and of the rate limiter, the requests in the
network, and the provider. Each of its 24 actions is one committed transaction or one step
between two awaits, so any two actors may interleave between them; a request that has left may
reach the provider late, more than once, or never be heard of again. The main theorems are about
`Exec(cfg, INIT, run)` for every sequence of actions `run`.

| file | contents |
|---|---|
| `Models.dfy` | rows, statuses, settings, the idempotency key |
| `Backoff.dfy` | exponential backoff with jitter |
| `JobLifecycle.dfy` | what a send response or a delivery status does to a job; the two budgets as functions of its trace; the row object `DMJob` |
| `JobTable.dfy` | the job table: unique index, claim order, requeue, cancellation, polling query, statistics |
| `EventProcessing.dfy` | ingestion, matching, creation, counters; conservation; order independence |
| `RateLimiter.dfy` | the rolling-window limiter, its log, warm start; the limiter object |
| `PseudoGram.dfy` | the provider and why the limiter is never answered 429 |
| `Pipeline.dfy` | state, actions, runs |
| `Invariants.dfy` | what every action keeps |
| `Theorems.dfy` | safety over whole runs |
| `Origins.dfy` | why each job, cancellation and DM exists, on the columns |
| `Schedule.dfy` | retries wait until they are due |
| `Accounting.dfy` | counters and statistics as numbers of webhooks and rows |
| `Deletion.dfy` | what deleting a comment guarantees, and exactly when a cancelled job is harmless |
| `Revival.dfy` | exactly when the worker sends for a cancelled job again or writes it alive |
| `Pairs.dfy` | exactly when a (rule, user) pair can get two DMs |
| `Witnesses.dfy` | runs that show which provisos are needed |
| `Rotation.dfy` | every accepted job is polled in a bounded number of cycles, some failing calls included |
| `Ordering.dfy` | exactly when the order in which events are processed matters |
| `Progress.dfy` | recovery, a way to delivery from every reachable state, exactly which jobs can be delivered |
| `Starvation.dfy` | with too many failing calls there is no such bound |
| `Comeback.dfy` | exactly when a cancelled job comes back, whoever acts |
| `EventSafety.dfy` | no event is lost, whatever raises |
| `Database.dfy` | the database object and its statements, in place |
| `Rounds.dfy` | one undisturbed round of each worker as a run of the pipeline |
| `Workers.dfy` | the DM worker, the reconciliation service and the worker manager as objects |

Assumptions. A committed transaction is atomic, a savepoint rollback undoes only its insert, and
a unique index is checked at flush. One process, one DM worker, one reconciler. The clock never
goes back; times are reals, and a sleep lasts at least as long as asked. A grant and its log row
are one step and never fail. The provider gives fresh DM ids, answers an accepted request with
the DM its key stands for, reports `delivered` or `failed` only of a DM that is, and remembers
idempotency keys for ever; FAILURES.md:36-42 doubts the last, and a request sent again under a
forgotten key would make a second DM. Settings are sensible: budgets, `maxCalls` and the batch
size are at least 1, the window is positive, the rest not negative (`Settings.Sensible`). Whether
a keyword occurs in a text is an abstract relation.

Where the code and its documentation differ the model follows the code:

- README.md:275 and app/models.py:145 call `attempts` the number of send requests. It grows on
  delivery failures and not on 429 or 401/403 (`Theorems.BudgetsFollowTrace`), and the bound of
  README.md:276 holds for counted results, not for requests (`Witnesses.SendsUnbounded`);
  `Theorems.RequestsAccounted` says exactly how far apart the two are.
- README.md:640 says a cancelled job keeps its slot; the partial index releases it.
- FAILURES.md:55-58 expects inflated `duplicates_blocked` after a crash; with atomic transactions
  the count is exact (`Theorems.StatsAddUp`).
- app/models.py:118-120 says a cancelled job never sent anything. It may have, when its response
  was lost (`Witnesses.TwoLiveDmsForOnePair`); `Deletion.CancelledMayOwnDmIff`,
  `Pairs.TwoDmsIffTwoOpen` and `Comeback.ComesBackIff` say exactly when that does harm.

## Model

| member | source | states |
|---|---|---|
| Theorems.NeverTwoLiveDmsPerJob | app/models.py:163-173 | In every reachable state a job has at most one provider DM that has not failed, over lost responses, crashes, requeues and late landings; the key of a later cycle was sent only after the DM of every earlier cycle existed, failed, and was read as failed |
| Origins.EveryDmWasAskedFor | app/services/events.py:153-178 | In every reachable state every DM the provider ever made is addressed to a user who has a processed comment that the rule of the DM's job matches |
| Origins.JobHasItsComment | app/services/events.py:153-178 | In every reachable state every job is for a stored rule and has a processed comment.created event of its user and comment id whose text that rule matches |
| Origins.MatchingRulesAnswered | app/services/events.py:171-177 | Once a comment that was not deleted is handled, every stored rule that matches its text has a job for its user in every later state |
| Origins.RowsMatch | app/services/jobs.py:48-88 | Every row an event appends is a fresh queued job, all columns given, for the event's user and comment and a stored rule that matches its text |
| Origins.MatchesServed | app/services/matching.py:29-33 | After an event that is not ignored every stored rule that matches its text has a live row for its user |
| Origins.WantsExactly | app/services/matching.py:29-33 | The pairs `OrderMattersIff` and `ProcessSlots` speak of are the stored matching rules with the event's user, in columns |
| Theorems.NeverTwoLiveDmsPerPair | app/models.py:115-129 | In every reachable state a (rule, user) pair has at most one DM that has not failed, unless a job of the pair was cancelled although a request of its current cycle had left (`Pairs.TwoDmsIffTwoOpen` is the exact condition) |
| Pairs.TwoDmsIffTwoOpen | app/models.py:115-129 | The exact condition, in every reachable state: a (rule, user) pair can come to have two DMs that have not failed, with only time passing and requests landing, if and only if two different jobs of the pair have a request of their current cycle out whose DM is not known to have failed |
| Pairs.OneOfTwoIsOrphaned | app/models.py:118-122 | Of two such jobs of one pair at least one was cancelled although its request had left |
| Witnesses.TwoLiveDmsForOnePair | app/services/jobs.py:91-114 | That case happens: for all sensible settings and any rule, user and comments there is a run that ends with two different live DMs for one pair |
| Deletion.CancelledMayOwnDmIff | app/models.py:118-122 | A cancelled job can come to own a DM that does not fail without leaving `cancelled` if and only if a request of its current cycle was sent, or is about to be, and its DM is not known to have failed |
| Theorems.OneLiveJobPerPair | app/models.py:122-129 | In every reachable state at most one non-cancelled job exists per (rule, user), however a stale requeue, a deletion, a new comment and a late response interleave |
| Theorems.ResponseMeetsOpenJob | app/workers/dm_worker.py:53-66 | Whenever a send response is applied the job is sending, requeued or cancelled, and the write succeeds if and only if the job is not cancelled with its slot taken again |
| Theorems.VerdictMeetsItsDm | app/services/reconciliation.py:47-52 | Whenever a delivery status is applied the job still is accepted with the very dm_id the status was read for, the write is never rolled back, and a delivered or failed verdict is true of that DM |
| Theorems.BudgetsFollowTrace | app/services/jobs.py:199-295 | In every reachable state `send_cycle`, `transient_failures` and `attempts` are what the job's trace says; it is failed if and only if some prefix of the trace used a budget up; counted results never exceed the product of the budgets |
| Theorems.RequestsAccounted | app/workers/dm_worker.py:69-114 | In every reachable state the requests that left for a job are exactly its counted results, its applied 429, 401 and 403 responses, the requests whose response never reached the row, and the one in flight; so the documented product bounds them up to the last three, and requests equal counted results if and only if those are zero |
| Theorems.RetriesOnSchedule | app/services/jobs.py:234-287 | In every reachable state a job in retry_wait is due exactly as long after its last write as its trace says: Retry-After or the window on 429, the pause on 401, else a wait in the jitter band the settings give for the number of consecutive or delivery failures; accepted, delivered and failed jobs are not due |
| Schedule.NoRequestBeforeDue | app/services/jobs.py:117-147 | However a run goes on, no request for a job in retry_wait leaves before the wait its trace asks for is over, counted from its last write |
| Schedule.ClaimedWhenDue | app/services/jobs.py:123-132 | The worker claims a job only if it is queued, or in retry_wait with a due time that has come |
| Theorems.EventsExactlyOnce | app/services/events.py:36-69 | Over any run and any continuation each event id is stored in one row, and an event once processed or ignored is never touched again |
| EventSafety.NoEventLost | app/services/events.py:199-232 | Whatever raised, crashed or was abandoned: from every reachable state an unsettled comment that was not deleted can be processed with the number of rules it matches, each of them served |
| EventSafety.SettledOnlyByHandling | app/services/events.py:199-219 | An event becomes processed or ignored only as the head of the batch in a handling that does not raise; no other action changes its columns |
| EventSafety.RaisedIsKept | app/services/events.py:208-218 | An event whose handling raised is received again with all its columns, and nothing else of the database changed |
| EventSafety.OldestTaken | app/services/events.py:111-132 | A batch takes received events only, oldest first: one left out is younger than all taken and the batch is full, so the oldest received event is always taken |
| Theorems.StatsNeverDecrease | app/services/jobs.py:347-358 | No continuation of any run changes a delivered or failed job in any column, so `sent` and `failed` never decrease |
| Theorems.StatsAddUp | app/services/jobs.py:347-358 | In every reachable state sent + failed + queued + cancelled + duplicates_blocked equals the rules matched by the processed comment.created events, plus, in the mode that counts redeliveries, the stored rules that each webhook of the run with a known event id matched when it arrived |
| Theorems.MatchedIsExact | app/services/events.py:153-178 | In every reachable state, processing a comment.created event records as `matched` the number of stored rules that match its text, each once: the terms of that sum |
| Accounting.WebhooksCounted | app/services/events.py:36-97 | In every reachable state, restarts included, `events_received` is the number of stored events, and with `duplicate_events` it is the number of webhooks that arrived |
| Accounting.StatsCountRows | app/services/jobs.py:347-358 | The reported counts are sizes of sets of rows: delivered, failed, and neither ended nor cancelled |
| Theorems.SendsStayWithinWindow | app/services/rate_limiter.py:92-106 | Over every run, restarts included, any half-open interval one window long holds at most `max_calls` grants, and every send used a grant of its own |
| Theorems.RequestsStayWithinWindow | app/services/rate_limiter.py:92-106 | Over every run in which each request leaves within a lag of its grant, any half-open interval of length window minus lag holds at most `max_calls` requests |
| Theorems.ProviderNeverThrottles | scripts/mock_pseudogram.py:50-63 | If the requests of a run that arrive do so within a lag of their grants, in any order, a provider whose window starts empty never answers 429, replays included, when the limiter's window is at least the provider's plus the lag |
| Rotation.PolledInTime | app/services/reconciliation.py:36-76 | From any reachable state, if status calls fail only for a set of f jobs, fewer than a batch holds, any other accepted job not written at this very instant, with r accepted jobs outside that set not newer than it, gets a delivery status within floor(r / (batch - f)) + 1 cycles, the cycle under way not counted, whatever else happens meanwhile |
| Starvation.StarvedBehindFailures | app/services/reconciliation.py:54-76 | With as many failing jobs as a batch holds there is no bound: for every n a reachable state and a run of n whole cycles in which calls fail for those jobs only and another accepted job is never polled |
| Rotation.NoOvertaking | app/services/reconciliation.py:39-44 | No action puts another accepted job ahead of one that waits |
| Rotation.ServedFallsBehind | app/services/jobs.py:340-342 | Every applied status, `queued` included, stamps its job with the current time and moves it to the back of the line: every other accepted job is ahead of it |
| Progress.RecoveryReclaims | app/workers/manager.py:36-41 | After a restart no event is `processing`, a job is `sending` if and only if it was and its row was written at this very instant, every other claimed job is queued, and nothing else about the jobs changes |
| Progress.MaintenanceReclaims | app/services/jobs.py:150-164 | The maintenance timer queues exactly the jobs claimed more than the stale limit ago and changes nothing else |
| Progress.NothingForgotten | app/services/jobs.py:177-183 | In every reachable state a job in retry_wait has a due time and becomes runnable at it, and an accepted job has a non-empty dm_id to poll |
| Progress.NothingStuck | app/workers/manager.py:43-55 | From every reachable state some continuation processes every event and delivers every job that is not failed, not cancelled and whose DM has not failed in its last cycle; ended jobs stay as they are, and every job made on the way is delivered or is cancelled and its comment is among the deleted ones |
| Progress.DeliverableIff | app/services/jobs.py:298-344 | In every reachable state a job that is not cancelled can still be delivered by some continuation if and only if it has not failed and the DM of its last cycle has not |
| Deletion.NoJobAfterDeletion | app/services/events.py:161-168 | Once a deletion was processed no run ever creates a job for that comment |
| Deletion.DeletionSpares | app/services/jobs.py:91-114 | However a run goes on after a deletion, a job of the comment that is not cancelled was past `queued` and `retry_wait`, or was being handled by the DM worker, when the deletion was processed |
| Origins.CancelledHasItsDeletion | app/services/events.py:181-196 | In every reachable state every cancelled job has a stored, processed deletion of its own comment |
| Origins.DeletionCancelsExactly | app/services/jobs.py:91-114 | A handled deletion cancels exactly the queued and retry_wait rows of its comment, and no other event changes any row |
| Deletion.CancelledIsFinal | app/services/jobs.py:150-164 | If claim-to-apply times stay within `sending_stale_seconds`, a cancelled job stays cancelled and no request for it leaves afterwards, under a new key or one that was sent before |
| Deletion.TimelyHeld | app/services/jobs.py:150-164 | Under that assumption the job in flight is `sending`, untouched since its claim, in every state of the run |
| Revival.CancelledStirsIff | app/workers/dm_worker.py:53-59 | Without any timing assumption, the exact condition: from a reachable state the clock, the worker and its answers can send for a cancelled job, or take it out of `cancelled`, if and only if the worker holds the job before its send, or after it while the slot of the job is free |
| Revival.StirredWasHandled | app/services/jobs.py:91-114 | Over every run of all actors: a cancelled job is only sent for again, or only leaves `cancelled`, if the worker was handling it |
| Comeback.ComesBackIff | app/workers/dm_worker.py:53-59 | The exact condition over all actors: from a reachable state some run sends for a cancelled job, or takes it out of `cancelled`, if and only if the worker handles it and either has not sent for it, or every live job of its slot can be freed: its comment is known, and it is queued, retry_wait or sending, or accepted with a cycle left and a DM that is not delivered |
| Witnesses.CancelledJobRevived | app/workers/dm_worker.py:53-59 | That happens: a run in which a cancelled job, never sent before, is sent and accepted |
| Witnesses.SendsUnbounded | README.md:270-276 | The 401 term has no bound: for every n a run sends exactly n requests for one job while its `attempts` stay 0 |
| Invariants.DoKeepsInv | app/workers/dm_worker.py:69-114 | Every action of every actor keeps the whole invariant |
| Invariants.ReachableInv | app/workers/manager.py:43-55 | The invariant holds after every run from the empty system |
| Invariants.AcceptedStays | app/services/reconciliation.py:47-52 | No action but the reconciler's own takes a job out of `accepted` or changes its dm_id, cycle or time stamp |
| Invariants.StepKeepsCycles | app/services/jobs.py:318-331 | A cycle ends only with a read `failed`, and no key of a later cycle has been sent |
| Invariants.KeyOwner | app/models.py:163-173 | The DM stored under a key was made for that job and that cycle |
| Invariants.StepKeepsOwners | app/services/jobs.py:218-232 | Every dm_id stored or about to be stored is the DM of that job and cycle, and a delivered job's DM was delivered |
| Models.KeyInjective | app/models.py:163-173 | Different jobs or cycles never share an idempotency key |
| Models.DecimalInjective | app/models.py:171-173 | Decimal notation is injective |
| Models.DecimalRoundTrip | app/models.py:171-173 | Decimal notation reads back as the number |
| Pipeline.KeyOfRow | app/models.py:163-173 | Row j has the key dm-job-(j + 1), with -r and the cycle from the second cycle on |
| JobLifecycle.SendKeepsSound | app/services/jobs.py:199-269 | Any send response keeps the stored budgets equal to the trace's and within their limits |
| JobLifecycle.StatusKeepsSound | app/services/jobs.py:298-344 | So does any delivery status |
| JobLifecycle.FailedIffBudgetHit | app/services/jobs.py:186-190 | A job is failed if and only if some prefix of its trace hit INVALID, the transient limit or the delivery limit; `attempts` is counted results plus `send_cycle` |
| JobLifecycle.SendsBounded | README.md:275-276 | Counted send results never exceed `max_dm_attempts * max_delivery_attempts` |
| JobLifecycle.SendLowersMeasure | app/services/jobs.py:211-295 | Every counted result lowers the lexicographic measure (cycles left, send owed, transient budget left); an uncounted one leaves it alone |
| JobLifecycle.StatusLowersMeasure | app/services/jobs.py:318-331 | Every delivery failure lowers the same measure; other reports leave it alone |
| JobLifecycle.DMJob.ApplySendResult | app/services/jobs.py:199-269 | The row object, updated field by field, ends as the function of the response says |
| JobLifecycle.DMJob.HandleTransientFailure | app/services/jobs.py:272-287 | Count, then give up at the limit or retry after the backoff of the new count |
| JobLifecycle.DMJob.ApplyDeliveryStatus | app/services/jobs.py:298-344 | The row object ends as the function of the delivery status says |
| JobLifecycle.SendSchedules | app/services/jobs.py:234-287 | After any response the job is due exactly when its trace asks for it, or not at all |
| JobLifecycle.StatusSchedules | app/services/jobs.py:318-331 | So after any delivery status: a delivery failure backs off by the number of delivery failures |
| Backoff.DelayBand | app/services/jobs.py:167-174 | After failure n + 1 every delay lies in the jitter band around retry_base * 2^n or the cap, floored at 0.1 s, and both ends are reached |
| Backoff.IsDelayIff | app/services/jobs.py:167-174 | A wait is a possible delay if and only if it lies in that band |
| Backoff.UncappedDelaysGrow | app/services/jobs.py:167-174 | Consecutive uncapped delays grow for all draws if and only if the jitter ratio is below one third and the shortest next delay, retry_base * 2^n * (1 - jitter), is above the 0.1 s floor |
| Backoff.CappedDelaysStay | app/services/jobs.py:167-174 | From the cap on consecutive delays do not grow for all draws |
| Backoff.DelaysGrowIff | app/services/jobs.py:167-174 | Capped or not, one delay is longer than another for all draws if and only if their jitter bands do not meet and the longer one's lies above the floor |
| Backoff.WaitBeforeGivingUp | app/services/jobs.py:272-287 | All waits before a transient give-up add up to at most max(base, 0.1 s) * (1 + jitter) * (2^n - 1) for n waits |
| Backoff.DoublingIsPower | app/services/jobs.py:170-171 | The base before the cap is retry_base * 2^(n-1) |
| JobTable.NextIsNext | app/services/jobs.py:123-132 | The scan finds the first runnable row in claim order, and none only if no row is runnable |
| JobTable.NextInColumns | app/services/jobs.py:123-132 | In columns: the next row is queued or due, and no other such row comes earlier by no due time, due time, id |
| JobTable.NothingInColumns | app/services/jobs.py:123-132 | When nothing is runnable no row is queued and every retry is due later |
| JobTable.BatchExists | app/services/reconciliation.py:36-45 | A batch of the oldest accepted rows exists for every table and limit |
| JobTable.StatsPartition | app/services/jobs.py:347-358 | Every job is in exactly one of sent, failed, queued and cancelled |
| JobTable.WriteBackKeepsUnique | app/workers/dm_worker.py:53-59 | Writing a late result, whatever the row has become, never leaves two live rows in one slot |
| JobTable.RevivedIffSlotFree | app/models.py:115-129 | A late result revives a cancelled job if and only if its slot is free |
| EventProcessing.MatchesExactly | app/services/matching.py:29-33 | `find_matching_rules` returns exactly the stored rules that match the text, none of them twice, and none without a text |
| EventProcessing.OutcomeOf | app/services/events.py:135-196 | A created comment of a known user is processed unless deleted, a deletion of a known comment is processed and remembered, everything else is ignored |
| EventProcessing.IngestStores | app/services/events.py:36-69 | A new webhook is stored column by column as it came, as received; a known one changes no row |
| EventProcessing.SeededKeeps | app/services/counters.py:17-22 | After seeding every counter is present and none has changed its count |
| EventProcessing.ProcessConserves | app/services/events.py:135-196 | Processing an event adds its matches to jobs plus blocked duplicates, exactly once |
| EventProcessing.IngestConserves | app/services/events.py:36-97 | Ingesting keeps the counting law, in both counting modes |
| EventProcessing.CreateAllCreates | app/services/jobs.py:48-88 | Creating for a list of rules appends only fresh queued jobs of that user and comment, keeps the index, and every rule ends as one job or one blocked duplicate |
| EventProcessing.SlotTakenIff | app/models.py:122-129 | The index rejects a pair if and only if it is among the occupied slots |
| EventProcessing.ProcessSlots | app/services/events.py:153-178 | A comment.created event takes exactly the slots it asks for, and jobs exceed slots as before |
| EventProcessing.OrderIndependent | app/services/events.py:153-178 | Processing the same comment.created events in any two orders takes the same slots and gives as many jobs and blocked duplicates |
| Ordering.OrderMattersIff | app/services/events.py:153-196 | With deletions, from any database: all orders of processing a set of events leave the same occupied slots if and only if no (rule, user) pair is contested, that is asked for by a comment that stays, held by no job that stays, and asked for or held by a comment that goes |
| Ordering.UncontestedOutcome | app/services/events.py:153-196 | In every order, a pair that is not contested is taken in the end if and only if a job that stays held it or a comment that stays asks for it |
| Ordering.FreeInOneOrder | app/services/events.py:181-196 | A contested pair ends free when the comments that go are processed first and their deletions last |
| Ordering.TakenInOneOrder | app/services/events.py:161-168 | The same pair ends taken when the deletions are processed first |
| EventProcessing.DeletionBreaksOrder | app/services/events.py:181-196 | The smallest contested case: a creation, its deletion and a second creation for one pair leave it free in one order and taken in another |
| RateLimiter.TrimIsWindow | app/services/rate_limiter.py:83-86 | After trimming the deque is exactly the past grants in (now - window, now] |
| RateLimiter.WarmStartIsWindow | app/services/rate_limiter.py:68-81 | A warm start rebuilds exactly that deque from the pruned log |
| RateLimiter.GrantKeepsOk | app/services/rate_limiter.py:96-101 | A grant made when fewer than `max_calls` stamps are left keeps any two grants `max_calls` apart a full window apart |
| RateLimiter.WarmStartKeepsOk | app/services/rate_limiter.py:68-81 | A restart keeps the limiter's invariant, whatever memory was lost |
| RateLimiter.SlidingWindow | app/services/rate_limiter.py:1-7 | Grants so spaced put at most `max_calls` into any half-open window |
| RateLimiter.RollingWindowRateLimiter.TrimTo | app/services/rate_limiter.py:83-86 | The loop drops exactly the expired prefix |
| RateLimiter.RollingWindowRateLimiter.Seed | app/services/rate_limiter.py:64-66 | Sorts, reads the clock, trims |
| RateLimiter.RollingWindowRateLimiter.LoadWindow | app/services/rate_limiter.py:68-81 | The object's deque ends as the past grants still in the window, and the log keeps exactly the rows not older than a cutoff within the call |
| RateLimiter.RollingWindowRateLimiter.AvailableNow | app/services/rate_limiter.py:88-90 | The free slots of the window over the whole history of grants |
| RateLimiter.RollingWindowRateLimiter.Acquire | app/services/rate_limiter.py:92-106 | Terminates with at most n - max_calls + 1 sleeps from n stamps; each sleep begins with a full window and asks for the time until the oldest grant in it leaves, plus the safety margin, at least 10 ms; the grant is the newest one, made and logged at the current instant, keeps the invariant, and is the one a single trimming pass would make |
| RateLimiter.RollingWindowRateLimiter.Penalise | app/services/rate_limiter.py:108-116 | Asks for exactly the pause the server asked for, and keeps the limiter's invariant |
| PseudoGram.SendIsIdempotent | scripts/mock_pseudogram.py:50-53 | A key is replayed, never makes a second DM, and maps to the DM it was answered with for ever |
| PseudoGram.VerdictIsFinal | scripts/mock_pseudogram.py:87-100 | Reading any DM never changes a settled verdict |
| PseudoGram.SendOutcome | scripts/mock_pseudogram.py:50-84 | When the provider replays, throttles (ten requests in the last minute), rejects, errs or accepts, which requests it counts, and the DM it makes |
| PseudoGram.RetryAfterFits | scripts/mock_pseudogram.py:55-62 | After Retry-After seconds the oldest counted request has left the window, and not more than a second earlier would do |
| PseudoGram.ReadTellsFate | scripts/mock_pseudogram.py:87-100 | A read reports and records the DM's fate: its verdict, or once it is older than three seconds what it was drawn to become |
| PseudoGram.CountsArrivals | scripts/mock_pseudogram.py:55-63 | The provider never counts more sends since any instant than arrived |
| PseudoGram.NeverLimited | scripts/mock_pseudogram.py:55-63 | Spaced arrivals are never answered 429 |
| PseudoGram.MockPseudoGram.Send | scripts/mock_pseudogram.py:41-84 | The server object answers and changes as the function of the request says |
| PseudoGram.MockPseudoGram.Get | scripts/mock_pseudogram.py:87-100 | Likewise for status reads |
| Pipeline.MockIsAllowed | app/services/pseudogram.py:99-160 | Whatever the mock answers is a response the transition system allows |
| Pipeline.MockReportsTruth | scripts/mock_pseudogram.py:87-100 | The mock says `delivered` of exactly the delivered DMs and `failed` of exactly the failed ones |
| Database.BatchConserves | app/services/events.py:199-219 | A batch keeps the counting law whichever of its events raise |
| Database.Database.SeedCounters | app/services/counters.py:17-22 | Missing counters become 0, existing ones stay |
| Database.Database.IncrementCounter | app/services/counters.py:25-47 | Update or insert: the counter grows by the amount, all others stay |
| Database.Database.CreateJob | app/services/jobs.py:48-88 | Inserts if and only if the slot is free, else counts one blocked duplicate |
| Database.Database.CancelJobsForComment | app/services/jobs.py:91-114 | Cancels exactly the queued and retry_wait jobs of the comment and returns how many |
| Database.Database.ClaimNextJob | app/services/jobs.py:117-147 | Claims the first runnable row in claim order, in columns one that is queued or due, and no other; returns nothing only if no row is queued and every retry is due later |
| Database.Database.RequeueStaleSending | app/services/jobs.py:150-164 | Requeues exactly the sending jobs written before the cutoff |
| Database.Database.Flush | app/models.py:122-129 | Stores the row, or leaves the table unchanged if the index rejects it |
| Database.Database.ComputeStats | app/services/jobs.py:347-358 | Returns the counts by status; with the cancelled jobs they are the whole table |
| Database.Database.IngestEvent | app/services/events.py:36-69 | Stores an unknown event once, handles a known one as a duplicate |
| Database.Database.HandleDuplicateEvent | app/services/events.py:72-97 | Counts the redelivery, and its matches only in the mode that counts them |
| Database.Database.ClaimPendingEvents | app/services/events.py:111-132 | Claims exactly the oldest received events up to the limit |
| Database.Database.ProcessCommentCreated | app/services/events.py:153-178 | The loop over the matching rules equals the creation function |
| Database.Database.ProcessCommentDeleted | app/services/events.py:181-196 | Remembers the deletion and cancels the comment's jobs |
| Database.Database.ProcessEvent | app/services/events.py:135-150 | Dispatches on the event type |
| Database.Database.CommitOrRetry | app/services/events.py:203-218 | Commits and settles the event, or rolls everything back and leaves it received |
| Database.Database.ProcessPendingEvents | app/services/events.py:199-219 | One batch of the oldest received events: each one that raised is received again as it was, every other one is settled, no other event changes, and the counting law is kept |
| Database.Database.RequeueStuckEvents | app/services/events.py:222-232 | Every processing event is received again, no other changes |
| Workers.DMWorker.ClaimTicket | app/workers/dm_worker.py:40-51 | Claims the next job and hands out its id, user and the key of its current cycle |
| Workers.DMWorker.Apply | app/workers/dm_worker.py:53-59 | Writes the result without looking at the status; only the index can refuse it |
| Workers.DMWorker.ReleaseClaim | app/workers/dm_worker.py:61-66 | Puts a job back only if it is still sending |
| Workers.DMWorker.RunOnce | app/workers/dm_worker.py:69-114 | An undisturbed round: nothing without an API key, else one grant, at most one request under the job's key, the row ends as the provider's answer says in columns (accepted with its dm_id, due after Retry-After, failed, or one transient failure more) or queued again, and the pause after 429 is kept; for every pipeline state the objects stand for, the round is a run of the worker's own actions |
| Workers.DMWorker.Pause | app/workers/dm_worker.py:97-107 | Asks for the configured time after a rejected key, for the Retry-After or the window after 429, and for nothing otherwise, and changes nothing but the clock |
| Rounds.AppliedInTurn | app/workers/dm_worker.py:53-59 | Undisturbed, the index never refuses a send result |
| Rounds.ReplyDecides | app/services/jobs.py:199-287 | What each answer of the provider makes of a job, column by column |
| Rounds.StatusDecides | app/services/jobs.py:298-344 | What a delivered, failed or queued DM makes of an accepted job, column by column |
| Rounds.WrittenIsApplied | app/services/reconciliation.py:47-52 | Whatever happened since the status was read, the reconciler's write is the pipeline's, and none unless the job is accepted |
| Rounds.ResultIsApplied | app/workers/dm_worker.py:53-59 | Whatever happened since the send, the worker's write is the pipeline's, with no look at the status |
| Rounds.RoundIsRun | app/workers/dm_worker.py:69-114 | Claim, grant, send, landing, response and write-back, or the release after an exception, done one after the other, lead to the table, limiter, provider and clock that `DMWorker.RunOnce` leaves |
| Rounds.PendingIsRun | app/services/events.py:199-219 | An undisturbed batch of events, whichever of them raise, is a run that leaves the database `ProcessPendingEvents` leaves |
| Rounds.PollAllJudges | app/services/reconciliation.py:54-76 | Polling a batch gives every row exactly the verdict of its own DM and touches no other row |
| Rounds.JudgedByFate | app/services/reconciliation.py:54-76 | An entry of a batch whose call succeeds ends as the fate of its own DM at that instant says, whatever was read before |
| Rounds.PollingIsRun | app/services/reconciliation.py:54-76 | An undisturbed polling cycle is a run that leaves the table and the provider `ReconciliationService.RunOnce` leaves |
| Workers.ReconciliationService.LoadPending | app/services/reconciliation.py:36-45 | Returns the oldest accepted jobs with their dm_ids, at most a batch |
| Workers.ReconciliationService.Apply | app/services/reconciliation.py:47-52 | Writes the status only to a job that is still accepted |
| Workers.ReconciliationService.RunOnce | app/services/reconciliation.py:54-76 | An undisturbed cycle: every entry that is read ends delivered if its DM was, with its cycle advanced and failed or in retry_wait if it failed, still accepted with a new time stamp if it is queued; an entry that is not read, and every other row, stays as it was |
| Workers.WorkerManager.RecoverState | app/workers/manager.py:36-41 | Seeds the counters, requeues claimed events and jobs written before now, changes nothing else |
| Workers.WorkerManager.Start | app/workers/manager.py:43-55 | Recovery and warm-up: the database is as `RecoverState` leaves it, no event is claimed, only jobs stamped this instant are sending, and the limiter holds exactly the past grants in its window |
| Workers.WorkerManager.RequeueStaleClaims | app/workers/manager.py:97-104 | The maintenance timer requeues only sending jobs past the stale limit |

## Left out

- The FastAPI routes, request schemas, signature checks, logging and configuration loading; settings are parameters.
- The columns `message`, `last_error`, `created_at`, `last_status_check_at`, `post_id`, `username`, `sent_at`, `received_at` and `processed_at`: nothing in the pipeline reads them to decide.
- HTTP and its parsing: a send is any `SendResult`, a status read any truthful text, an error or nothing.
- Lower-casing and substring search: `Settings.matches` stands for them. Rules are only added, never deactivated.
- The database engine: transactions are atomic steps; two transactions never conflict beyond the unique indexes, so the second attempts of `increment` and of the claim loop are not modelled.
- The limiter's lock, its mode without a store, and failed writes of its log: without those the bound across restarts does not hold.
- Several processes, threads that outlive their task, and clocks that go back.
- The safety margin: it is added to a sleep only and allows for no network delay; a longer window does.
- A bound on the network delay: the code has none, so it is a hypothesis of `Theorems.ProviderNeverThrottles`, as the delay between a grant and its request is of `Theorems.RequestsStayWithinWindow`.
- Rotation when status calls fail for a whole batch of jobs or more: an unknown DM or an error leaves `updated_at` alone and the job at the head of the line, so no bound holds (`Starvation.StarvedBehindFailures`).
- A bound on the time from claim to apply: nothing in the code bounds how long an acquire or a send takes, so it is a hypothesis where it is needed.
- Liveness under every schedule: a provider that is down for ever keeps no promise; from every reachable state a way to the end exists.
- Workers.DMWorker.RunOnce: has no other actor in between; the interleaved steps are those of `Pipeline`. The response arrives and is applied at the instant of its grant.
- Workers.ReconciliationService.RunOnce: has no other actor in between; the interleaved steps are those of `Pipeline`.
- The numbers of cancelled jobs and blocked duplicates under different orders with deletions: only the occupied slots are compared, those numbers may differ where the slots agree.
- The simulation driver of the mock provider and its report of violations.
