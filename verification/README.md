# Verified model of the KIS auto-trading service

This project models the distributed protocols of the service in Dafny and proves
what they promise. Each protocol is a global state with labelled steps; the main
results are statements about every run, that is, about every interleaving of its
steps from empty tables. Beside each machine stand the handlers, repositories and
clients as they are coded (classes with state-changing methods), each proved to do
what a specification function says; the machines are built from the same functions.

| files | subject |
|---|---|
| `Basics`, `Text`, `Domain` | shared vocabulary, trimming and stock codes, the entities of the signal pipeline |
| `Outbox`, `OutboxTheorems` | one outbox table under any number of writers, relays and crashes; backoff and when it is exact; progress; the relay loop |
| `Pipeline`, `PipelineInvariant`, `PipelineTheorems`, `FanOutTheorems`, `Delivery`, `WriterRaces`, `RelayClock`, `PipelineRuns`, `Handlers` | API handlers, relays, broker, workers, projections, intents and notifications as one machine; that nothing is lost on the way; how far fan-out reaches; racing writers; runs built step by step |
| `JobPayloads`, `Jobs`, `JobMachine`, `JobInvariant`, `JobTheorems`, `JobOutcomes`, `JobHandlers`, `IndexHandoff`, `RetryKeys`, `RetryRuns` | durable jobs: compare-and-set, status log, cancels, retries and their run keys, news collection and its index jobs |
| `Leases`, `Tokens`, `TokenThreshold`, `TokenCoordinator` | expiring lock and cache; the double-checked token refresh in real time |
| `Utf8`, `RoutingTag`, `Sessions`, `SessionRefinement`, `SessionHistory` | routing tags, session ids, Redis keys; the two session stores, their agreement, and what a history of calls owes |
| `Replay`, `ReplayTheorems`, `ReplayApi` | idempotent requests with token fencing |
| `RankFusion` | reciprocal-rank fusion over exact numbers |
| `CandleCache` | the daily candle parser and its cache |

`dafny verify dfyconfig.toml` checks everything.

## Assumptions

- One `session.begin()` block is one step (src/kis_auto_trading/infrastructure/database/session.py:32).
  Two places are finer. A subscription writer may act on any row version that was
  ever committed, as it can when its read and its write are not isolated; what
  needs a bound on how old the version is says so (`IsNearRun`). A job's compare-and-set is one
  SQL statement, and claims, handlers, completions and the three statements of a
  cancel interleave freely; the update and its commit are one step, because the
  row stays locked in between. The subscription query of the signal handler
  belongs to the handler's step.
- A relay's reading of the clock and its row query are one step (`Outbox.Lock`), so a
  query never uses a reading older than what the table has seen. Nothing proved turns
  on this: the attempts that follow may lag behind that reading by any time.
- Ids derived with uuid5 are free constructors of their inputs (injective, section
  5.5 of RFC 9562). uuid4 ids, lock tokens and replay tokens are new; the one fact
  used about the text of a job id is that it holds no colon.
- The clock is one, and never runs backwards. Database time is whole
  microseconds; lease and cache time is real. Tables start empty.
- The broker may duplicate, reorder and lose messages. A handler that raises
  leaves no trace, and its message goes to the dead-letter queue.
- JSON texts are their values, and writing and reading JSON are inverse.
- Which characters are decimal or other digits is any table that contains the ASCII
  digits.

## Where the code does not do what one might expect

- The backoff counts from the clock reading a pass begins with, not from the publish.
  So a row's attempts keep the full backoff exactly if the first one does not lag
  behind the reading of its pass (`BackoffExact`); with a lag of 100 s two attempts
  can coincide (`LateAttemptsMeet`). `Backoff` is the bound that always holds.
- A subscription writer that acts on an outdated read may leave its row below a
  committed revision, and then the projection ahead of it. In every run all rows stay
  the highest committed versions if and only if no write reads a revision, 0 for no
  row, more than one below the current one (`RowsOnTopIff`): a read one revision
  behind rewrites the current version, and the first read further behind breaks it
  (`WriteFallsBehindIff`, `ProjectionAheadIff`; `RaceRun` is such a run). Until then
  projections are never ahead and converge (`NearConvergence`); revisions determine
  their contents in any case.
- Fan-out stops at 1000 projections: all enabled subscriptions get an intent exactly
  if there are at most 1000 (`FanOutReach`), and `LimitRun` is a run with 1001.
- A replica that reads the token outside the lock and looks at the clock later may
  find it expired and delete a fresh one that another replica has stored meanwhile;
  nothing in the code bounds that time. If readers take at most P seconds and tokens
  live at least L seconds, then timely lock holders never ask the provider before the
  last token is evicted if and only if P <= 30, L >= 31 and L >= 31 + P, and nobody
  ever comes to the stale delete if and only if P <= 30 and L >= 61
  (`ExactThreshold`). `TooSlow`, `TooShort` and `StaleHolder` are the runs outside
  these bounds.
- A provider answer that does not reach the cache separates nothing. An error there
  frees the lock at once, so that two answered requests can leave at one instant
  (`FailedHolderRun`); after a crash the next can leave when the lease ends
  (`CrashedHolderRun`). Within the bounds above `SingleFlight` separates any two
  answered requests but for these two causes.
- A collection that inserted no article with a key that is not blank still requests
  an index job, whose payload then makes the index handler raise (`IndexJobReads`;
  `EmptyCollectionRun` is a run that collects nothing).
- The session stores answer `revoke` differently for an expired session that the
  in-memory store still holds, and only then (`RevokeAnswersDiffer`); they count
  `revoke_user_sessions` differently exactly if they still hold different numbers of
  the user's expired sessions (`RevokeUserCountsDiffer`). Memory counts more in
  `ExpiredStillHeld`, Redis counts more in `DroppedStillListed`.
- A claimer of an idempotency key that outlives its claim runs beside its successor
  (`TwoRunnersRun`), and its completion is refused. Up to its own expiry it owns the
  record and is alone, whatever the others do (`OwnsUntilExpiry`, `SingleRunner`).
- Replay key and fingerprint name no user. A second user who sends the same key and
  body gets the first user's recorded result, and its own update is never made
  (`ReplayCrossesUsersIff`, `CrossUserRun`).
- A retry whose run key somebody else has taken is not created. That never happens
  while outside triggers of news jobs use neither retry run keys nor the retry fields
  of the payload (`RetryIsNeverBlocked`).
- A JSON `true` in `_news_retry_attempt` counts as attempt 1.

## Model

| member | source | states |
|---|---|---|
| `Text.StockCodeIff` | src/kis_auto_trading/modules/signal/subscription_policy.py:4-8 | a text is accepted as code c if and only if c is six ASCII digits and the text is c between blanks |
| `Text.StripIff` | src/kis_auto_trading/modules/signal/subscription_policy.py:5-5 | stripping leaves exactly what lies between the blanks at both ends: nothing, or a text blank at neither end |
| `Text.BlanksAre` | src/kis_auto_trading/modules/signal/subscription_policy.py:5-5 | the 29 blank characters, none of them printable ASCII but the space |
| `Outbox.RelaySafety` | src/kis_auto_trading/infrastructure/outbox/relay.py:19-56 | in every run of one table: locked batches are disjoint, a published row was accepted by the broker and never changes again, only committed rows are accepted, no row or event is lost |
| `OutboxTheorems.RowRecordsAttempts` | src/kis_auto_trading/infrastructure/outbox/relay.py:34-54 | in every run a row counts its committed attempts and is published if and only if the last was confirmed, with the instant of the confirmation and no error; no earlier one was; after any other outcome it is pending, due 2, 4, 8, 16, 32 or from then on 60 s after the reading of the pass, with the first 2000 characters of the error |
| `OutboxTheorems.RowIsAsWritten` | src/kis_auto_trading/infrastructure/outbox/repository.py:13-30 | in every run a row keeps the event and the date it was written with, and until its first attempt is pending and due when its writer said |
| `OutboxTheorems.CrashFreesRows` | src/kis_auto_trading/infrastructure/outbox/relay.py:19-56 | in every run a crash leaves every row its relay had locked as it was, and due again for anybody |
| `Outbox.Backoff` | src/kis_auto_trading/infrastructure/outbox/relay.py:20-51 | in every run, the pass of a row's n-th committed attempt begins at least 2^n - 2 s (n <= 6) or 62 + 60 (n - 6) s (n >= 6) after that of its first; the attempt itself comes at least that long after the first, less the time by which the first lagged behind the clock reading of its pass |
| `OutboxTheorems.BackoffExact` | src/kis_auto_trading/infrastructure/outbox/relay.py:20-51 | for every n >= 2, the n-th attempt comes the full backoff after the first in all runs exactly if the first attempt does not lag behind the clock reading of its pass |
| `OutboxTheorems.LateAttemptsMeet` | src/kis_auto_trading/infrastructure/outbox/relay.py:20-51 | a run whose first attempt lags 100 s and whose second comes at the same instant as the first |
| `OutboxTheorems.RelaysShareDueRows` | src/kis_auto_trading/infrastructure/outbox/relay.py:20-55 | in any crash-free interleaving of relays, while passes read one clock value and nobody writes, no row is attempted twice, only due rows are, an unattempted due row stays due, and once nothing is due exactly the due rows were attempted |
| `Outbox.EveryDueRowOnce` | src/kis_auto_trading/infrastructure/outbox/relay.py:20-55 | while the clock stands and nobody writes, passes with room for all due rows attempt each of them exactly once, oldest first, whatever each publish did, and leave nothing due |
| `Outbox.SoloIsPass` | src/kis_auto_trading/infrastructure/outbox/relay.py:19-56 | lock, attempts and commit of a relay that nobody disturbs amount to one pass |
| `Outbox.OutboxRelay.Attempt` | src/kis_auto_trading/infrastructure/outbox/relay.py:34-54 | field by field: the attempt is counted; success publishes at that instant and clears the error; failure stores the first 2000 characters of the error and the backoff time, and leaves the status |
| `Outbox.OutboxRelay.PublishPending` | src/kis_auto_trading/infrastructure/outbox/relay.py:19-56 | the loop leaves the rows of one pass: in the batch exactly the confirmed ones are published, the others of the table are untouched; the answer is the number of confirmed publishes |
| `Outbox.AppendKeepsInv` | src/kis_auto_trading/infrastructure/outbox/repository.py:13-30 | adding a pending row keeps the table invariant: row bookkeeping, batch contents and disjointness |
| `PipelineInvariant.RunInv` | scripts/run_message_worker.py:62-225 | the invariant over all five kinds of store holds in every state of every run |
| `Delivery.CommittedIsAnnounced` | src/kis_auto_trading/modules/signal/handlers.py:31-103 | in every run each committed version of a subscription, each signal that can expire and each intent has its row, with its own data, in the outbox of the database that wrote it |
| `Delivery.MessagesBalance` | src/kis_auto_trading/infrastructure/outbox/relay.py:34-55 | in every run the broker holds an event exactly as often as relays got it there, confirmed or not, and nobody yet acknowledged or dead-lettered it |
| `Delivery.DeliveredIsApplied` | scripts/run_message_worker.py:72-225 | in every run a delivered event is applied, then or before, and once; only a signal without a stock code is not, and changes nothing |
| `Delivery.ReadIsMarked` | src/kis_auto_trading/modules/notification/handlers.py:25-43 | in every run a read by a live session of a notification of its user leaves it marked with the time of the first reading; any other changes nothing |
| `PipelineTheorems.ProjectionConvergence` | scripts/run_message_worker.py:110-142 | under any duplication, reordering, loss and writer race, a projection exists exactly if an update was applied, and is the committed source version of the highest revision applied |
| `WriterRaces.RowsOnTopIff` | src/kis_auto_trading/modules/signal/handlers.py:55-103 | in every run, all rows are at all times the highest committed versions of their subscriptions if and only if no write reads a revision more than one below the current one |
| `WriterRaces.NearConvergence` | scripts/run_message_worker.py:110-142 | in every run without such a write, races or not, a projection never exceeds its source's revision and equals the source once the newest revision is applied, whatever became of the other updates |
| `WriterRaces.WriteAdvancesIffCurrent` | src/kis_auto_trading/modules/signal/handlers.py:55-103 | after every such run a write gets a revision above all committed ones exactly if it read the current row |
| `WriterRaces.WriteFallsBehindIff` | src/kis_auto_trading/modules/signal/handlers.py:65-102 | after every such run some committed revision exceeds the one a write makes exactly if the revision read plus one is below the current one |
| `WriterRaces.ProjectionAheadIff` | src/kis_auto_trading/modules/signal/handlers.py:65-102 | after every such run with an up-to-date projection, a write leaves that projection ahead of its source under exactly the same condition |
| `WriterRaces.RaceRun` | src/kis_auto_trading/modules/signal/handlers.py:55-103 | a run from empty tables (signup, login, subscribe and unsubscribe relayed and applied, a racing subscribe) that ends with the projection at revision 2 and its source at revision 1 |
| `RelayClock.RelaysNeverAhead` | src/kis_auto_trading/infrastructure/outbox/relay.py:20-20 | in every run no outbox table has seen an instant after the current time, so a relay may always read the clock or publish now |
| `PipelineTheorems.RevisionDeterminesContent` | src/kis_auto_trading/modules/signal/handlers.py:65-76 | with stale writers too, enabled holds exactly for odd revisions, and two events of one subscription and revision agree |
| `PipelineTheorems.OnceOnly` | scripts/run_message_worker.py:144-225 | in every run at most one intent, one intent event and one notification per (signal, subscription), and no event id is applied twice |
| `PipelineTheorems.RedeliveryIsNoOp` | src/kis_auto_trading/infrastructure/outbox/inbox.py:15-22 | handling an applied event again leaves the whole state as it is |
| `PipelineTheorems.BrokerFromOutbox` | src/kis_auto_trading/infrastructure/messaging/rabbitmq.py:69-101 | every message in the broker is the event of a committed outbox row that the broker accepted |
| `PipelineTheorems.IntentProvenance` | scripts/run_message_worker.py:144-185 | every intent was created by one delivery of a recorded, then unexpired signal to a subscription then projected as enabled |
| `PipelineTheorems.VersionProvenance` | src/kis_auto_trading/modules/signal/handlers.py:55-103 | every committed version was written by a subscribe (if enabled) or unsubscribe (if not) of a session of that user for that stock |
| `PipelineTheorems.NotificationProvenance` | scripts/run_message_worker.py:144-225 | behind every notification lie, earlier in the run and in this order, a subscribe of the notified user, a delivery of the unexpired signal that found that very revision enabled, and the delivery of the intent that made the notification, unread and dated then |
| `FanOutTheorems.FanOutReach` | scripts/run_message_worker.py:144-185 | after the first handling of an unexpired signal exactly the listed subscriptions, the first min(1000, enabled) of the enabled ones in the order of the query, have an intent of it; all enabled ones do if and only if there are at most 1000 |
| `FanOutTheorems.LimitRun` | scripts/run_message_worker.py:155-157 | a run with exactly 1001 enabled subscriptions in which the first handling of an unexpired signal leaves one of them without intent |
| `FanOutTheorems.ExpiredRun` | scripts/run_message_worker.py:144-152 | a run in which the event of a signal is delivered at the instant the signal expires: it is applied, and the one enabled subscription gets no intent |
| `FanOutTheorems.RunAnnounces` | src/kis_auto_trading/modules/signal/handlers.py:31-52 | in every run a signal is announced by at most one event and has intents only once that event was applied |
| `FanOutTheorems.ListedCount` | src/kis_auto_trading/application/signal_subscriptions.py:18-46 | the limited query lists enabled subscriptions of the stock, each once, as many as the limit allows, and the lowest in its order |
| `PipelineTheorems.HandledIsNotified` | scripts/run_message_worker.py:187-216 | once an intent's event is applied, the notification is there, in the intent's shard and with its user, signal and stock |
| `PipelineTheorems.ReadSurvives` | src/kis_auto_trading/modules/notification/handlers.py:25-43 | between any two moments no notification disappears or changes, except that a missing read mark may be set; a set one stays |
| `PipelineTheorems.ShardPlacement` | src/kis_auto_trading/modules/identity/handlers.py:136-137 | in every run all accounts, sessions, subscriptions, projections, intents and notifications of a user lie in or name shard "1" if the user's id is even and shard "2" if it is odd |
| `PipelineTheorems.ListingIsComplete` | src/kis_auto_trading/modules/notification/handlers.py:15-22 | what a session lists from the one shard it names are all notifications of its user |
| `Handlers.SignalApi.Subscribe` | src/kis_auto_trading/modules/signal/handlers.py:55-77 | tells the unknown session, the unroutable shard and the bad code apart; otherwise does the machine's step and answers with the stored row: the one found if enabled, else an enabled one with the next revision, 1 at first |
| `Handlers.SignalApi.Unsubscribe` | src/kis_auto_trading/modules/signal/handlers.py:80-103 | refusals as above; an enabled row becomes a disabled one with the next revision, a disabled one stays, and without a row nothing is stored and a disabled revision 1 is answered |
| `Handlers.SignalIntake.Record` | src/kis_auto_trading/modules/signal/handlers.py:31-52 | the first record of a signal id is kept and answered; one event is written exactly if the signal is new and can expire |
| `Handlers.NotificationApi.Read` | src/kis_auto_trading/modules/notification/handlers.py:25-43 | 404 exactly for a missing or foreign notification; the first reading sets the mark, later ones keep it |
| `Handlers.ApplicationMessageHandler.ClaimEvent` | src/kis_auto_trading/infrastructure/outbox/inbox.py:15-22 | claims an event id exactly once per store |
| `Handlers.ApplicationMessageHandler.OnSubscriptionUpdate` | scripts/run_message_worker.py:110-142 | the coded handler does the machine's projection step |
| `Handlers.ApplicationMessageHandler.OnSignalCreated` | scripts/run_message_worker.py:144-185 | the coded handler does the machine's fan-out step |
| `Handlers.ApplicationMessageHandler.MaterializeIntents` | scripts/run_message_worker.py:158-181 | the loop adds each missing intent with its event, in order |
| `Handlers.ApplicationMessageHandler.OnIntentCreated` | scripts/run_message_worker.py:187-216 | the coded handler does the machine's notification step |
| `Handlers.ApplicationMessageHandler.HandleMessage` | scripts/run_message_worker.py:72-85 | dispatch by event type does the machine's delivery step |
| `JobPayloads.ReadersAre` | src/kis_auto_trading/application/durable_job_handler.py:288-336 | the helpers read the strings of their list without surrounding blanks, symbols in upper case, once each and in the order of first occurrence, and raise exactly if there is no list or nothing but blanks in it |
| `JobPayloads.NamesRoundTrip` | src/kis_auto_trading/application/durable_job_handler.py:323-336 | normalising a normalised payload changes nothing |
| `JobPayloads.RetryFieldsAre` | src/kis_auto_trading/application/durable_job_handler.py:349-356 | which attempt and root run key the two retry fields stand for, whatever JSON value they hold |
| `Jobs.InsertReturnsNew` | src/kis_auto_trading/modules/news/persistence.py:22-51 | an insert returns, once each, exactly the listed keys the table lacked, and adds exactly those |
| `Jobs.DurableJobRepository.RequestJob` | src/kis_auto_trading/infrastructure/durable_jobs/repository.py:31-83 | a free run key gets a requested job and its trigger event, field by field, and nothing else changes; otherwise nothing does; the answer names the job of the key in any case |
| `Jobs.DurableJobRepository.ChangeStatus` | src/kis_auto_trading/infrastructure/durable_jobs/repository.py:103-141 | the row changes and the event is logged exactly if the job is in the expected status |
| `JobInvariant.RunInv` | src/kis_auto_trading/infrastructure/durable_jobs/worker.py:33-87 | the job invariant holds in every state of every run |
| `JobInvariant.StepKeepsInv` | src/kis_auto_trading/infrastructure/durable_jobs/worker.py:33-87 | every step keeps the invariant and moves statuses only requested to running or cancelled, running to succeeded or failed |
| `JobTheorems.AtMostOnce` | src/kis_auto_trading/infrastructure/durable_jobs/worker.py:45-87 | over all interleavings a job's handler starts at most once, and the lost-completion error is never raised |
| `JobTheorems.CompletionHits` | src/kis_auto_trading/infrastructure/durable_jobs/worker.py:77-87 | every busy worker's job is running, so that its completion hits |
| `JobTheorems.OutcomeIsRecorded` | src/kis_auto_trading/infrastructure/durable_jobs/worker.py:64-87 | recording ends the row with exactly the status, result and error the handler ended with |
| `JobOutcomes.OutcomeProvenance` | src/kis_auto_trading/infrastructure/durable_jobs/worker.py:45-87 | behind every recorded outcome lie, earlier in the run and in this order, the same worker's claim of the then requested job, the start of its handler, and the step in which that returned or raised; the row ends with just that result or error |
| `JobTheorems.CancelExcludesStart` | src/kis_auto_trading/routers/durable_jobs.py:129-157 | a 200 answer to a cancel and a handler start never both occur in a run, in either order; the job stays cancelled |
| `JobTheorems.ConflictIsTruthful` | src/kis_auto_trading/routers/durable_jobs.py:149-153 | after a 409 the job was claimed and is never cancelled |
| `JobOutcomes.CancelIsAnswered` | src/kis_auto_trading/routers/durable_jobs.py:129-157 | in every run a cancel answers 404 at once exactly for an unknown type or job, 200 at once for a cancelled job, and else in the end 200 exactly if the job is cancelled then and 409 if not; its update leaves no job requested |
| `JobTheorems.JobHistory` | src/kis_auto_trading/infrastructure/durable_jobs/repository.py:103-141 | a job never disappears, keeps its request data, moves forward only, and is frozen once terminal |
| `JobTheorems.LogRefinement` | src/kis_auto_trading/infrastructure/durable_jobs/repository.py:103-141 | a row's status, result and error are the fold of its status events, whose log has one of the five shapes |
| `JobTheorems.RequestsAgree` | src/kis_auto_trading/infrastructure/durable_jobs/repository.py:31-83 | all requests of one (job_type, run_key), at any two moments, get one job id, of that type and key |
| `JobTheorems.CreatedOnce` | src/kis_auto_trading/infrastructure/durable_jobs/repository.py:58-73 | every job was reported created exactly once and has exactly one trigger event, with its own data; no other id has either |
| `JobOutcomes.TriggerIsAnswered` | src/kis_auto_trading/routers/durable_jobs.py:71-94 | in every run a trigger with a known type, a run key and, for the market jobs, a stock code is answered with the job that then holds the key, the new one exactly if nobody held it; any other changes nothing |
| `JobTheorems.RetryChainsAreBounded` | src/kis_auto_trading/application/durable_job_handler.py:145-182 | a retry chain has at most three jobs, raises the attempt by one each time, keeps type, root and normalised names, and only its last job can have succeeded |
| `JobTheorems.RetryIsScheduled` | src/kis_auto_trading/application/durable_job_handler.py:145-182 | a failed first or second attempt whose retry key is free creates its retry for good: in every later state it is linked to the failed job, has the run key root:retry:1 or root:retry:2 and the names, attempt and root in its payload, and the one event that ever triggers it is due exactly 2 or 4 s after the failure; a failed third attempt requests nothing |
| `RetryKeys.RetryIsNeverBlocked` | src/kis_auto_trading/application/durable_job_handler.py:145-182 | if outside triggers of news jobs use neither retry run keys nor retry fields, every failed first or second attempt creates its retry, as above in every later state |
| `RetryRuns.ThreeAttemptsRun` | src/kis_auto_trading/application/durable_job_handler.py:145-182 | a run from empty tables whose retry chain has three jobs, the last under k:retry:2 |
| `JobTheorems.RetriedNeverSucceeds` | src/kis_auto_trading/application/durable_job_handler.py:112-116 | a job that scheduled a retry never succeeds, then or later |
| `JobHandlers.DurableJobMessageHandler.Handle` | src/kis_auto_trading/infrastructure/durable_jobs/worker.py:33-87 | an unrequested job is left alone; otherwise the row ends as the handler ended, and nothing is lost if the handler left the row running |
| `JobHandlers.DurableJobApi.Trigger` | src/kis_auto_trading/routers/durable_jobs.py:71-94 | 404 exactly for none of the five types; 422 exactly for an empty run key, or a market job whose payload has no stock_code text of six ASCII digits between blanks; created exactly if the key was free |
| `JobHandlers.DurableJobApi.Cancel` | src/kis_auto_trading/routers/durable_jobs.py:129-157 | 404 exactly for a missing or differently typed job; 200 leaves it cancelled; 409 leaves a started job as it was |
| `IndexHandoff.RetryKeyIsNoIndexKey` | src/kis_auto_trading/application/durable_job_handler.py:176-181 | whatever root a payload names, a retry's run key is never a collector's index key |
| `IndexHandoff.HandoffConserves` | src/kis_auto_trading/application/durable_job_handler.py:118-133 | with indexing on and no outside use of `news-index:` keys, collector-made index jobs are handed pairwise disjoint key sets whose union is exactly the articles inserted |
| `IndexHandoff.CollectionIsStored` | src/kis_auto_trading/modules/news/persistence.py:22-51 | a collection leaves every article it found in the table, a held one as it was, a new one with the last content found |
| `IndexHandoff.IndexJobReads` | src/kis_auto_trading/application/durable_job_handler.py:323-336 | in every hand-off run a collection's index job reads exactly the inserted keys without surrounding blanks, once each, the very keys exactly if none has such blanks, and nothing (an error) exactly if all are blank |
| `IndexHandoff.EmptyCollectionRun` | src/kis_auto_trading/application/durable_job_handler.py:118-133 | a hand-off run with a collection that inserts nothing and requests an index job without readable keys |
| `Leases.FakeDistributedLockClient.Expire` | src/kis_auto_trading/infrastructure/distributed_lock/fake.py:50-53 | drops the lease exactly if it is no longer alive |
| `Leases.FakeDistributedLockClient.Acquire` | src/kis_auto_trading/infrastructure/distributed_lock/fake.py:25-36 | a new token and a full lease exactly if none is alive; the lifetime is checked only then; other keys untouched |
| `Leases.FakeDistributedLockClient.Release` | src/kis_auto_trading/infrastructure/distributed_lock/fake.py:38-45 | raises exactly for the empty key; ends the lease exactly for the owner of a live one |
| `Leases.FakeKeyValueStoreClient.Get` | src/kis_auto_trading/infrastructure/key_value_store/fake.py:24-33 | raises exactly for the empty key; otherwise the live value or nothing, unobservably dropping an expired one |
| `Leases.FakeKeyValueStoreClient.Set` | src/kis_auto_trading/infrastructure/key_value_store/fake.py:35-52 | stores the value until its lifetime, or the default one, ends; stores nothing exactly for the empty key or a lifetime that is not positive |
| `Leases.FakeKeyValueStoreClient.Delete` | src/kis_auto_trading/infrastructure/key_value_store/fake.py:41-43 | raises exactly for the empty key; otherwise removes the key and tells whether it was stored, expired or not |
| `Tokens.SingleFlight` | src/kis_auto_trading/infrastructure/kis_token_coordinator.py:111-206 | with timely lock holders, readers outside the lock that look at the clock within P <= 30 s and lifetimes of at least 31 s and at least 31 s + P, in every run: one lock holder asks at a time; any two answered provider requests are separated by the eviction of the earlier one's entry, unless the earlier holder failed or crashed between answer and cache; every request leaves after the eviction of every earlier stored token; no expired token is handed out; from 61 s on no stale delete |
| `Tokens.StepsAreRecorded` | src/kis_auto_trading/infrastructure/kis_token_coordinator.py:111-206 | in timely runs: a look at the clock serves an unexpired entry and marks an expired one for deletion, a poll reads again before the deadline and gives up after it, a free lock is taken for 30 s, and every request and every token handed out is on record |
| `TokenThreshold.FailedHolderRun` | src/kis_auto_trading/infrastructure/kis_token_coordinator.py:159-178 | whatever the bounds, a timely run in which an error between answer and cache lets two answered requests leave at one instant |
| `TokenThreshold.CrashedHolderRun` | src/kis_auto_trading/infrastructure/kis_token_coordinator.py:122-128 | whatever the bounds, a timely run in which a crash there lets the next answered request leave when the lease ends |
| `Tokens.CheckKeepsInv` | src/kis_auto_trading/infrastructure/kis_token_coordinator.py:192-206 | a reader that looks in time never finds the entry it read expired; a holder may below 61 s, and then the entry was evicted before |
| `Tokens.StampKeepsInv` | src/kis_auto_trading/infrastructure/kis_token_coordinator.py:160-164 | the computed lifetime ends the entry more than the margin (30 s, or the lifetime less 31 s) before the token expires |
| `TokenThreshold.TooSlow` | src/kis_auto_trading/infrastructure/kis_token_coordinator.py:180-206 | for every P > 30 and every bound on lifetimes, a timely run that reaches the stale delete, and one in which that delete removes a fresh token and a request leaves too early |
| `TokenThreshold.TooShort` | src/kis_auto_trading/infrastructure/kis_token_coordinator.py:180-206 | the same for readers within P <= 30 s and lifetimes from 31 s to below 31 s + P |
| `TokenThreshold.StaleHolder` | src/kis_auto_trading/infrastructure/kis_token_coordinator.py:111-206 | for every bound below 61 s and every P, a timely run in which the lock holder itself reaches the stale delete |
| `TokenThreshold.EarlyRequest` | src/kis_auto_trading/infrastructure/kis_token_coordinator.py:111-206 | for all bounds outside those of `SingleFlight`, a timely run whose request leaves before an earlier stored token is evicted |
| `TokenThreshold.ExactThreshold` | src/kis_auto_trading/infrastructure/kis_token_coordinator.py:111-206 | all timely runs separate their refreshes if and only if P <= 30, L >= 31 and L >= 31 + P; all avoid the stale delete if and only if P <= 30 and L >= 61 |
| `TokenCoordinator.KisTokenCoordinator.ReadCachedToken` | src/kis_auto_trading/infrastructure/kis_token_coordinator.py:180-206 | the cached token exactly if its entry is alive and decodes to two texts that are not empty and an expiry to come; otherwise nothing, and then nothing alive is left in the cache |
| `TokenCoordinator.KisTokenCoordinator.WaitForRefresh` | src/kis_auto_trading/infrastructure/kis_token_coordinator.py:135-142 | the polling loop ends, with the first token readable in a round begun before the deadline, or with none once a round begins after it |
| `TokenCoordinator.KisTokenCoordinator.GetAccessToken` | src/kis_auto_trading/infrastructure/kis_token_coordinator.py:111-178 | the provider is asked exactly after two misses under a free lock; under a held lock the answer is that of waiting; a reply with two texts and a positive lifetime is answered field by field and cached for its whole seconds less 60, at least one; any other fails; the lock is free again |
| `Utf8.EncodeInjective` | src/kis_auto_trading/infrastructure/session_store/protocol.py:14-16 | different texts have different UTF-8 bytes |
| `Utf8.CodeIs` | src/kis_auto_trading/infrastructure/session_store/protocol.py:14-16 | the one to four bytes of every character, by its code point, as in section 3 of RFC 3629 |
| `RoutingTag.DecodeInvertsTag` | src/kis_auto_trading/infrastructure/session_store/protocol.py:11-16 | tagging and a strict unpadded base64url decoder are inverse to each other, both ways |
| `RoutingTag.TagIsText` | src/kis_auto_trading/infrastructure/session_store/protocol.py:14-16 | stripping the padding leaves the alphabet characters of the six-bit groups, so no dot and no brace |
| `RoutingTag.AlphabetIs` | src/kis_auto_trading/infrastructure/session_store/protocol.py:14-16 | the character of every six-bit group, as in section 5 of RFC 4648 |
| `RoutingTag.SameBits` | src/kis_auto_trading/infrastructure/session_store/protocol.py:14-16 | the four six-bit groups are the 24 bits of their three bytes |
| `RoutingTag.UserTagInjective` | src/kis_auto_trading/infrastructure/session_store/protocol.py:11-16 | different users have different tags |
| `RoutingTag.IndexOf` | src/kis_auto_trading/infrastructure/session_store/protocol.py:19-25 | the first place of a character, at which partition splits |
| `RoutingTag.CreatedIdBelongs` | src/kis_auto_trading/infrastructure/session_store/protocol.py:19-32 | a created id gives its user's tag back and is accepted for that user only |
| `RoutingTag.BelongingIsCreated` | src/kis_auto_trading/infrastructure/session_store/redis.py:29-35 | the ids `create` accepts for a user are exactly those `create_session_id` can make for it |
| `RoutingTag.TextsAre` | src/kis_auto_trading/infrastructure/session_store/redis.py:112-118 | the texts of created ids, session keys and index keys around the tag |
| `RoutingTag.KeysShareHashTag` | src/kis_auto_trading/infrastructure/session_store/redis.py:112-118 | all session keys and the index key of a user have one Redis Cluster hash tag, the user's tag |
| `RoutingTag.SessionKeyInjective` | src/kis_auto_trading/infrastructure/session_store/redis.py:112-114 | no two session ids share a key |
| `RoutingTag.UserKeyInjective` | src/kis_auto_trading/infrastructure/session_store/redis.py:116-118 | no two users share an index key |
| `RoutingTag.SessionKeyIsNoUserKey` | src/kis_auto_trading/infrastructure/session_store/redis.py:112-118 | no session key is an index key |
| `Sessions.FakeSessionStore.CreateSession` | src/kis_auto_trading/infrastructure/session_store/fake.py:21-27 | replaces the session and indexes it under its user |
| `Sessions.FakeSessionStore.GetSession` | src/kis_auto_trading/infrastructure/session_store/fake.py:29-37 | the live session or nothing, dropping an expired one with its index entry |
| `Sessions.FakeSessionStore.RefreshSession` | src/kis_auto_trading/infrastructure/session_store/fake.py:39-46 | renews exactly a live session |
| `Sessions.FakeSessionStore.RevokeSession` | src/kis_auto_trading/infrastructure/session_store/fake.py:48-58 | removes the session and its index entry, and an index that became empty |
| `Sessions.FakeSessionStore.RevokeUserSessions` | src/kis_auto_trading/infrastructure/session_store/fake.py:60-64 | the revoke loop removes exactly the user's sessions and index and counts them |
| `Sessions.RedisSessionStore.CreateSession` | src/kis_auto_trading/infrastructure/session_store/redis.py:29-52 | refuses an id that is not the user's own; otherwise sets the session key, adds to the index and renews it |
| `Sessions.RedisSessionStore.GetSession` | src/kis_auto_trading/infrastructure/session_store/redis.py:54-68 | refuses a malformed id; otherwise the live session or nothing |
| `Sessions.RedisSessionStore.RefreshSession` | src/kis_auto_trading/infrastructure/session_store/redis.py:70-81 | raises exactly for a malformed id; renews both keys of a live session |
| `Sessions.RedisSessionStore.RevokeSession` | src/kis_auto_trading/infrastructure/session_store/redis.py:83-94 | raises exactly for a malformed id; deletes a live session's key and takes it out of the index |
| `Sessions.RedisSessionStore.RevokeUserSessions` | src/kis_auto_trading/infrastructure/session_store/redis.py:96-110 | raises exactly for the empty user id; deletes the index and all sessions in it and counts them |
| `SessionRefinement.StoresAgree` | src/kis_auto_trading/infrastructure/session_store/redis.py:29-110 | after the same history with the same time to live the two stores answer every `get` alike, and so every `refresh` |
| `SessionHistory.StoresFollowHistory` | src/kis_auto_trading/infrastructure/session_store/fake.py:21-64 | after every history both stores answer `get` with exactly the session the history owes: created for the time to live, renewed by each refresh before it ended, and neither revoked nor its user's sessions revoked since |
| `SessionRefinement.IndexCoversSessions` | src/kis_auto_trading/infrastructure/session_store/redis.py:29-110 | every live session is in its user's index, which expires no earlier |
| `SessionRefinement.RevokeAnswersDiffer` | src/kis_auto_trading/infrastructure/session_store/fake.py:48-58 | `revoke` is answered differently exactly for an expired session still held in memory |
| `SessionRefinement.RevokeUserCountsDiffer` | src/kis_auto_trading/infrastructure/session_store/fake.py:60-64 | `revoke_user_sessions` is counted differently exactly if the user's expired sessions held in memory and the expired ids in the live index differ in number |
| `SessionRefinement.ExpiredStillHeld` | src/kis_auto_trading/infrastructure/session_store/fake.py:48-58 | for every time to live, a history after which `revoke` succeeds in memory alone and the user's sessions count 1 in memory, 0 in Redis |
| `SessionRefinement.DroppedStillListed` | src/kis_auto_trading/infrastructure/session_store/redis.py:96-110 | for every time to live, a history after which the user's sessions count 1 in memory, 2 in Redis |
| `Replay.RunInv` | src/kis_auto_trading/infrastructure/session_store/request_replay.py:16-97 | the replay invariant holds in every state of every run |
| `ReplayTheorems.OneHandlerPerRecord` | src/kis_auto_trading/infrastructure/session_store/request_replay.py:54-59 | while one record lives no further handler starts for its key |
| `ReplayTheorems.StartsAreCreations` | src/kis_auto_trading/modules/account/generated/router.py:54-69 | each record's handler starts once, and only its creator runs it |
| `ReplayTheorems.ClientIsAnswered` | src/kis_auto_trading/modules/account/generated/router.py:54-69 | in every run a read, an applied completion and an abort answer their own client, once, in the name of its user, key and fingerprint, and end its call; a crash ends it without an answer; other steps answer nobody |
| `ReplayTheorems.ReplayIsExact` | src/kis_auto_trading/infrastructure/session_store/request_replay.py:71-75 | a replay has the exact status and body that the handler of a claim with the same key and fingerprint returned, for ever |
| `ReplayTheorems.AnswersAgree` | src/kis_auto_trading/infrastructure/session_store/request_replay.py:41-89 | the creator's own answer and all replays of one record are the same |
| `ReplayTheorems.ReadVerdict` | src/kis_auto_trading/infrastructure/session_store/request_replay.py:60-76 | a claimer reading a live record conflicts exactly if the fingerprint is another; otherwise it gets the creator's result, or a refusal while there is none |
| `ReplayTheorems.Fencing` | src/kis_auto_trading/infrastructure/session_store/request_replay.py:16-33 | a live record changes only at the hands of its creator, who completes it with its handler's result or deletes it |
| `ReplayTheorems.CompletionIsAtomic` | src/kis_auto_trading/infrastructure/session_store/request_replay.py:78-89 | before its claim's own expiry a completion is applied and answered with the handler's result; from then on it is not applied and followed by an abort |
| `ReplayTheorems.AbortReopensKey` | src/kis_auto_trading/infrastructure/session_store/request_replay.py:27-33 | after an abort of a claim that still owned its record reached the store, the next client to ask for the key, with any fingerprint and however much later, is granted it and starts its handler |
| `ReplayTheorems.OwnsUntilExpiry` | src/kis_auto_trading/infrastructure/session_store/request_replay.py:16-33 | in every run, whatever the others do, a claimer that has not finished owns the record exactly until its own claim expires |
| `ReplayTheorems.SingleRunner` | src/kis_auto_trading/modules/account/generated/router.py:54-69 | in every run, two claimers of one key that are both within their own claim are one client |
| `ReplayTheorems.TwoRunnersRun` | src/kis_auto_trading/modules/account/generated/router.py:54-69 | a run in which a claimer that outlived its claim and its successor both run their handlers for one key |
| `ReplayTheorems.ReplayCrossesUsersIff` | src/kis_auto_trading/modules/account/generated/router.py:49-57 | a read is answered with another user's result, and starts no handler, exactly if it finds a live completed record of another user with the same key and fingerprint |
| `ReplayTheorems.CrossUserRun` | src/kis_auto_trading/modules/account/generated/router.py:49-57 | a run in which user 1 gets user 0's result and the only handler started is user 0's |
| `ReplayApi.RedisRequestReplayStore.ClaimKey` | src/kis_auto_trading/infrastructure/session_store/request_replay.py:41-76 | claims exactly a free key, with a new token; otherwise reports conflict, result or progress by the live record |
| `ReplayApi.RedisRequestReplayStore.CompleteClaim` | src/kis_auto_trading/infrastructure/session_store/request_replay.py:78-89 | stores the result exactly if the live record carries the claim's token |
| `ReplayApi.RedisRequestReplayStore.AbortClaim` | src/kis_auto_trading/infrastructure/session_store/request_replay.py:91-97 | frees the key exactly if the live record carries the claim's token |
| `ReplayApi.AccountRouter.UpdateProfile` | src/kis_auto_trading/modules/account/generated/router.py:42-69 | 400 exactly without a key, an error for a blank one; the handler runs exactly for a free key; its result is there to be replayed for exactly 86400 s, its failure frees the key; other requests get the recorded result or 409 |
| `RankFusion.Fuse` | src/kis_auto_trading/modules/search/hybrid.py:94-105 | the loop scores exactly the ids of the union with the sums of their weights, and keeps the source of the last hit of each |
| `RankFusion.ScoreIs` | src/kis_auto_trading/modules/search/hybrid.py:94-105 | with distinct hits in each response, an id at rank r, counted from one, gets 1/(60+r) from a response, and nothing from one without it |
| `RankFusion.RankIds` | src/kis_auto_trading/modules/search/hybrid.py:107-109 | all ids once each, by falling score and rising id |
| `RankFusion.LessIff` | src/kis_auto_trading/modules/search/hybrid.py:107-109 | the order of ids is that of code points: a proper prefix first, else the first difference decides |
| `RankFusion.Search` | src/kis_auto_trading/modules/search/hybrid.py:94-110 | the result lists the sources of the first `limit` ids of the ranking |
| `RankFusion.ResultUnique` | src/kis_auto_trading/modules/search/hybrid.py:94-110 | the two responses and the limit determine the answer |
| `RankFusion.RankingUnique` | src/kis_auto_trading/modules/search/hybrid.py:107-109 | scores determine the ranking |
| `RankFusion.TopIsBest` | src/kis_auto_trading/modules/search/hybrid.py:107-110 | what is taken has no repetition, has the length the limit (also a negative one) asks for, and ranks before all that is left out |
| `RankFusion.ResponseOrderIsIrrelevant` | src/kis_auto_trading/modules/search/hybrid.py:94-110 | the ranked ids do not depend on which response comes first |
| `RankFusion.Dominance` | src/kis_auto_trading/modules/search/hybrid.py:94-110 | with distinct hits in each response, a hit ahead in both ranks ahead |
| `CandleCache.ParsePrint` | src/kis_auto_trading/infrastructure/kis_market_data.py:231-231 | parsing the decimal print of a number of any size gives the number, whatever digits of other scripts there are |
| `CandleCache.ParseConcat` | src/kis_auto_trading/infrastructure/kis_market_data.py:336-336 | reading decimals is positional, with the value the table gives each digit |
| `CandleCache.NumberIff` | src/kis_auto_trading/infrastructure/kis_market_data.py:336-336 | `int` takes exactly the decimal texts of at most 4300 digits |
| `CandleCache.PrintParsed` | src/kis_auto_trading/infrastructure/kis_market_data.py:336-336 | printing a parsed volume is never longer than the text it came from, so what could be parsed can be printed |
| `CandleCache.ItemIff` | src/kis_auto_trading/infrastructure/kis_market_data.py:311-338 | an item gives candle c exactly if its fields, by the provider's names, hold the date of eight digits, the four prices and the digits of the volume of c; otherwise its shape is bad, or `int` refuses the volume |
| `CandleCache.OutputIff` | src/kis_auto_trading/infrastructure/kis_market_data.py:295-308 | the envelope: a 2xx status and an object with rt_cd "0" and a list in output |
| `CandleCache.ParseDailyPriceResponse` | src/kis_auto_trading/infrastructure/kis_market_data.py:290-339 | one candle per item in order, each as its fields say; otherwise a bad envelope, or the first item that gives no candle, decides which of the two errors it is |
| `CandleCache.CacheRoundTrip` | src/kis_auto_trading/infrastructure/kis_market_data.py:194-238 | a tuple is written and comes back unchanged exactly if every candle is of that stock, with an eight-digit date, four prices and a volume that is not negative and has at most 4300 digits |
| `CandleCache.ParsedRoundTrip` | src/kis_auto_trading/infrastructure/kis_market_data.py:194-238 | whatever the parser accepts comes back from the cache unchanged |
| `CandleCache.KisMarketDataClient.ReadCachedDailyCandles` | src/kis_auto_trading/infrastructure/kis_market_data.py:194-212 | the parsed live entry, or nothing |
| `CandleCache.KisMarketDataClient.GetDomesticDailyCandles` | src/kis_auto_trading/infrastructure/kis_market_data.py:114-143 | a bad code is refused; a cached tuple comes before the provider's; the provider's is served again, the same, for exactly 300 s; what is cached for other stocks stays |

## Left out

- Liveness: messages whose handler raised are not requeued, and a crashed worker leaves its job running, so nothing is claimed to happen eventually.
- Profile update events, the realtime hints over Redis Pub/Sub, portfolio capture, balance pages, HTTP retries and news normalisation: only easy members beside the protocols above.
- FastAPI routing, dependency wiring, health checks, logging, deployment and drills.
- SQLAlchemy, redis-py, aio_pika, httpx, JSON and SHA-256 internals: maps, a broker multiset and injective ids stand for them. SHA-256 digests in cache and replay keys are taken as the keys themselves.
- Password hashing, service tokens, access ranks and log redaction.
- `list_pending_signal_delivery_intents` and `list_recent`: plain queries.
- The job types other than the two news jobs run as handlers that return or raise and do not touch the job tables.
- RankFusion.Fuse: sums over exact numbers, not floating point, so ties that rounding makes or breaks are not modelled.
- RankFusion.RankIds: sorts by insertion where the code calls the built-in sort; only the resulting order is modelled.
- JobPayloads.ReadersAre: upper case is that of ASCII letters.
- JobPayloads.NamesRoundTrip: upper case is that of ASCII letters, for symbols; source keys are not affected.
- Utf8.EncodeInjective: texts of Unicode scalar values; lone surrogates, which the encoder refuses, are not texts here.
- TokenCoordinator.KisTokenCoordinator.GetAccessToken: all but the polling happens at one instant; the Tokens machine has the steps apart.
- Replay: `complete` either applied and returned or did not apply and raised; an applied script whose answer is lost is not modelled.
- Sessions.RedisSessionStore.RevokeUserSessions: reading the index and deleting the keys are one step.
