# GEOINT platform: verified model of the ingestion-to-notification pipeline

This project models, in Dafny 4.11, the part of the platform that must not lose, repeat or corrupt
what it is told, and two arithmetic kernels beside it, and proves what they guarantee. Check it with
`dafny verify dfyconfig.toml`.

**Ingestion** (`Ingestion`, `Geofencing`, `Alerts`, `Breaker`, and the laws about them). A source
job's batch of normalized observations is one transaction. Each observation updates its entity and is inserted under the
unique key (tenant, source, entity, time); only a fresh row runs the geofence diff, the alert
fan-out and the outbox messages. The session is an object the services mutate, and the
geofence-state rows are objects reached through two aliases at once, as in the original. Every
method is proved against a function of the old database (`Execute`, `Evaluate`, ...), and the laws
are proved about those functions: the diff refines "membership now versus before"
(`GeofenceHistory`), and the messages that leave tell its history (`IngestionHistory`); replay
changes nothing that matters (`Replay`), the counts and the states are right (`Agreement`), and every
alert, delivery, message and row of a batch is accounted for in terms of the observations alone
(`FanOut`, `BatchTables`).

**Outbox and analytics** (`Outbox`, `OutboxLaws`, `OutboxBlocking`, `Analytics`, `AnalyticsAgreement`).
Messages leave at least once, oldest first, and it is stated exactly which never leave; the
analytics log, counted by its stable identity, equals the image of the primary table whenever nothing
is pending.

**Leases** (`Deliveries`, `DeliveryProtocol`, `Jobs`, `Idempotency`). Alert deliveries, source jobs
and processed-message rows are three leased protocols. Each has its repository operations, and a
machine whose runs interleave any number of workers, clock ticks, crashes and late marks.

**The source worker** (`Worker`, `WorkerLaws`, `WorkerJobs`, `WorkerRuns`, `WorkerLeases`, `Rescheduling`). One
JetStream delivery from claim to answer, under any combination of failing steps; then any number of
deliveries of any messages at once, one transaction at a time: the derived tables and the outbox, but
for completion notices, are those of executing each batch once, and each execution goes back to its
own taking of the claim; and a scheduled job across its runs.

**Terrain** (`Terrain`, `Sight`). Densifying a polyline and the curved-Earth line-of-sight test over
exact reals, with distance and elevation as arbitrary functions.

**Rate limiting and PNG** (`RateLimit`, `Png`). The fixed-window counter in Redis, and the chunk walk
of the tile reader (PNG Second Edition, sections 5.3, 11.2.2 and 11.2.4).

`Wrappers`, `Arithmetic` and `Database` hold what these share. Time is an integer number of
microseconds; row ids are positions in their table.

## Where the code falls short of a plausible expectation

Each of these is a theorem here, with the exact condition where there is one.

- Rules with an entity-type filter never fire from ingestion, since no type is passed (`Agreement.TypedRulesAreDead`).
- A batch replayed late can put back attribute values overwritten since (`Replay.LateReplay`, `Replay.LateReplayRevertsAttributes`).
- The analytics identity is documented as having the same fields as the unique key, but floors the time to milliseconds (`AnalyticsAgreement.CountsAgree`); and with the sink disabled its messages are marked published unwritten (`OutboxLaws.WrittenIffEnabled`).
- A publishable message is held back for good if and only if as many older messages keep failing as a batch claims (`OutboxBlocking.PublishedIff`, `OutboxBlocking.WaitsForGood`; `OutboxLaws.BlockedForGood` for a claim full of them).
- The job lock's expiry never decides anything; an abandoned queued job stays queued (`Jobs.LockExpiryIsDead`), and attempts are bounded only if at least one is allowed (`Jobs.AttemptsBoundedIff`).
- The message id is the job id, so after its first completed run a job never executes again and ends queued for good (`Rescheduling.NeverExecutesAgain`, `Rescheduling.QueuedForGood`).
- Delivery workers in flight own their row if and only if no claim intrudes (`DeliveryProtocol.OrderlyIffUndisturbed`), which the code does not ensure: one delivery commit past its lease breaks the exclusion of others that keep theirs (`DeliveryProtocol.LateCommitBreaksExclusion`); a handler stalled past its lease can start after completion (`Idempotency.StalledBeginAfterCompletion`).
- Not every exhausted message becomes a dead letter (`WorkerLaws.ExhaustedDelivery`, `WorkerLaws.BusyOnlyNaks`), a lost acknowledgement marks a job failed that succeeded (`WorkerLaws.CompletedInert`), and a worker superseded before its mark acknowledges a message that is completed only if someone else completed it (`WorkerRuns.AckCompletesIff`, `WorkerRuns.AcknowledgedUncompleted`).
- The slope after a gap mixes baselines (`Sight.SlopeAcrossGap`); a negative recorded resolution defeats the sample clamp (`Sight.SamplesWithinGsd`); a degenerate sight line is not reciprocal when one end is unknown (`Sight.Reciprocity`).
- The assumptions text of the line of sight says flat ray without refraction; the code lowers the ray by the Earth's bulge whenever k is positive, and the model follows the code (`Sight.BulgeLowers`).
- A rate-limited request delayed past its counter's expiry resets its window (`RateLimit.ExpiryResets`, `RateLimit.LateArrival`).
- The tile reader answers None for unreadable bytes without the imaging library and raises with it (`Png.DecodeCentre`).

## Model

| member | source | states |
|---|---|---|
| Geofencing.FindContainingMembers | geoint-platform/app/geofencing/repository.py:13-37 | The containment query returns, each once, exactly the ids of the tenant's enabled fences that cover the point and, when the altitude is known, have no lower bound above it and no upper bound below it. |
| Geofencing.GetState | geoint-platform/app/geofencing/repository.py:56-70 | Returns the row of a (tenant, fence, entity) key when there is one, and null only when there is none. |
| Geofencing.ListStates | geoint-platform/app/geofencing/repository.py:39-54 | Lists, in row order, exactly the rows of one entity of one tenant; they are the table's own objects, not copies. |
| Geofencing.TouchRow | geoint-platform/app/geofencing/repository.py:98-103 | Updating an existing row sets membership, moves `since` only on a change, and leaves every other row as it was. |
| Geofencing.UpsertState | geoint-platform/app/geofencing/repository.py:72-104 | Whether the row is passed in or looked up, the table afterwards differs in that one key only, one row per key, and no row is dropped. |
| Geofencing.EnterFence | geoint-platform/app/geofencing/service.py:49-82 | One pass of the first loop through an aliased row is one step of the enter specification: an event and a message exactly when the row was not inside. |
| Geofencing.EnterAll | geoint-platform/app/geofencing/service.py:49-82 | The whole first loop equals the fold of that step over the containing fences, although later passes read rows it has written. |
| Geofencing.ExitFence | geoint-platform/app/geofencing/service.py:84-114 | One pass of the second loop leaves a fence, with event and message, exactly when the row is inside now and the fence is not among those containing the point. |
| Geofencing.ExitAll | geoint-platform/app/geofencing/service.py:84-114 | The whole second loop equals the fold of that step over the rows loaded before the first. |
| Geofencing.LoadStates | geoint-platform/app/geofencing/service.py:41-44 | The list and the index by fence are two routes to the same rows: both stay within the table, and every existing state of the entity is reachable by its fence. |
| Geofencing.RunLoops | geoint-platform/app/geofencing/service.py:46-114 | The two loops in sequence, over rows loaded before the first, are the two folds in sequence. |
| Geofencing.EvaluateObservation | geoint-platform/app/geofencing/service.py:19-114 | The method over mutable, aliased rows computes the pure incremental diff `Evaluate` of the old tables: states, row order, messages and events. |
| Geofencing.EnterFoldKeys | geoint-platform/app/geofencing/service.py:49-60 | The first loop touches no row of a fence it has not visited, which is what makes the prior rows safe to reuse. |
| GeofenceHistory.EvaluateAt | geoint-platform/app/geofencing/service.py:38-114 | For any key, one evaluation ends inside exactly if the entity is now in the fence, emits the one transition event its old and new membership call for, and leaves foreign keys alone. |
| GeofenceHistory.StepRefinement | geoint-platform/app/geofencing/service.py:38-114 | The incremental diff refines "membership now versus membership before" for every key at once, and keeps one row per key. |
| GeofenceHistory.EvaluateAnnounced | geoint-platform/app/geofencing/service.py:77-82 | Every event has its outbox message and every message added its event, in emission order. |
| GeofenceHistory.History | geoint-platform/app/geofencing/service.py:31-114 | Over any run of evaluations of any entities and tenants, the events of a key alternate, enters minus exits is the change of membership, and `since` is the time of the last event. |
| GeofenceHistory.HistoryFromEmpty | geoint-platform/app/geofencing/repository.py:72-104 | From an empty table the events of a key start with enter, alternate, and enters minus exits is 1 exactly while the row is inside. |
| IngestionHistory.ExecutionsTell | geoint-platform/app/geofencing/service.py:76-82 | Over any list of executions of any tenants, replays and raised emissions included, the geofence messages enqueued about a key alternate from where its row started, enters minus exits is its change, and its `since` is the time of the last. |
| IngestionHistory.WorkersTell | geoint-platform/app/workers/source_worker.py:153-163 | So do the messages that leave any interleaving of workers, redelivering, failing and crashing. |
| Alerts.EmitFromGeofenceEvent | geoint-platform/app/alerts/service.py:176-240 | The rule loop appends exactly the alerts and deliveries of the fold over the rules in table order, or, when it raises, of that fold up to the raise. |
| Alerts.EnqueueForAlert | geoint-platform/app/alerts/delivery.py:33-69 | The channel loop appends one fresh delivery per entry that parses to an enabled channel of the tenant, in list order, up to the raise if there is one. |
| Alerts.EnqueueFoldCounts | geoint-platform/app/alerts/delivery.py:42-69 | Nothing existing changes; the number added is the number of usable entries; per alert and channel the number is the entries naming it; each is pending, unattempted and due now. |
| Alerts.FanOutConserves | geoint-platform/app/alerts/service.py:190-240 | One event creates one open alert per enabled, unsilenced, direction- and type-matching rule of tenant and fence, in order, and per alert one pending delivery per usable channel entry; the totals are the nested sums and older rows are untouched. |
| Alerts.CutShort | geoint-platform/app/alerts/service.py:201-240 | An emission that raises after n rows, anywhere in the rule and channel loops, leaves exactly the first min(n, all) rows of the full fan-out. |
| FanOut.EventsFanOut | geoint-platform/app/geofencing/service.py:116-123 | Over the events of an evaluation, in emission order, the alerts gained are exactly one open alert per event and rule of its fence that is enabled, not silenced and wants its direction and type, and the deliveries exactly one pending delivery per entry of those rules' lists that names an enabled channel of the tenant, all in loop order. |
| FanOut.EventsFanOutUpTo | geoint-platform/app/geofencing/service.py:116-148 | When emission raises in one event after some rows: the events before it in full, and of that event the first min(rows, all), an alert before its deliveries and these before the next alert. |
| FanOut.EventsTotal | geoint-platform/app/alerts/service.py:201-240 | The totals over several events are the sums of those of each. |
| FanOut.ExecuteRounds | geoint-platform/app/ingestion/dispatcher.py:147-199 | An execution is one round per observation, raising emissions included: a stored one adds nothing; a new one adds the messages of its events, of its tenant, entity, time and position, the retry of an emission that raises, one message per finding, and the alerts and deliveries of those events. The geofence messages added are the rounds' events in order. |
| FanOut.ExecuteFansOut | geoint-platform/app/ingestion/dispatcher.py:147-199 | When no emission raises, the alerts and deliveries of a whole execution are the fan-out of exactly the geofence messages it adds. |
| Ingestion.UpsertEntityRow | geoint-platform/app/db/repositories.py:106-146 | Creates the entity with first and last sighting, or moves the last sighting forward only and merges non-empty attributes over the properties; the entity type of an existing row stays. |
| Ingestion.InsertObservation | geoint-platform/app/ingestion/dispatcher.py:233-279 | Inserts under the unique key, or does nothing when the key exists, and says which. |
| Ingestion.EmitAlerts | geoint-platform/app/geofencing/service.py:116-148 | Emission runs event by event; a raise, between events or within one, keeps the rows written so far and adds one retry message carrying all the events, unless that raises too. |
| Ingestion.EnqueueFindings | geoint-platform/app/ingestion/dispatcher.py:186-199 | One message per correlation finding, in order. |
| Ingestion.Ingest | geoint-platform/app/ingestion/dispatcher.py:147-199 | One observation: entity first, then the insert, and only for a fresh row the counter, the analytics row, the geofence evaluation (when positioned) and the findings. |
| Ingestion.Conclude | geoint-platform/app/ingestion/dispatcher.py:201-223 | Writes the run row and the completed message with the counts, and the analytics message exactly when analytics is on and there are fresh rows. |
| Ingestion.Commit | geoint-platform/app/ingestion/dispatcher.py:147-224 | The transaction over the mutable session equals the specification `Execute` of the old database, and returns the number of fresh rows. |
| Ingestion.Dispatch | geoint-platform/app/ingestion/dispatcher.py:84-231 | The checks in order, each with its error; success exactly when source, tenant and allow list permit, the circuit is not open or has recovered, and the payload normalizes; the breaker consulted and told the outcome, but of neither a raise while building the fetch arguments nor an open-circuit error out of the fetch; no table touched on any failure, `Execute` on success. |
| Replay.FoldObservations | geoint-platform/app/ingestion/dispatcher.py:147-165 | A batch leaves old observations as they are, adds rows of the batch only, covers every key of the batch, and its counters count exactly the rows gained. |
| Replay.EntityFoldAt | geoint-platform/app/ingestion/dispatcher.py:150-156 | An entity's row after a batch depends only on its own row and the observations naming it, in order. |
| Replay.AbsorbAllFixed | geoint-platform/app/db/repositories.py:122-142 | Applying a batch leaves an entity unchanged if and only if it already reflects the batch: seen no earlier than any of its observations and holding the last written value of every attribute. |
| Replay.EntityFoldFixed | geoint-platform/app/db/repositories.py:106-146 | The whole entity table is unchanged by a batch if and only if every entity of the tenant reflects it. |
| Replay.StaleReplay | geoint-platform/app/ingestion/dispatcher.py:147-224 | Once all keys of a batch are present, an execution under any clock, rules, settings and faults changes only the entity table, the run log and one message; and not even the entity table if and only if it is up to date. |
| Replay.ReplayIdempotent | geoint-platform/app/ingestion/dispatcher.py:84-231 | Executing the same normalized batch twice in a row leaves every table as after one execution, plus one run row and one completed message that both say 0 inserted. |
| Replay.LateReplay | geoint-platform/app/ingestion/dispatcher.py:84-231 | The same after any executions of any tenants in between, with the exact condition under which the entity table is untouched as well. |
| Replay.LateReplayRevertsAttributes | geoint-platform/app/db/repositories.py:138-142 | That condition can fail: an attribute overwritten in between is put back by the replay, while the last sighting is not. |
| Replay.CoreExecute | geoint-platform/app/ingestion/dispatcher.py:147-224 | Executions read no entity, run or message: equal derived tables lead to equal derived tables, and to the same messages enqueued, whatever those hold. |
| Replay.RepeatsChangeNothing | geoint-platform/app/ingestion/dispatcher.py:84-231 | Any list of executions of any tenants, repeated in any order, leaves the derived tables, and the outbox but for completion notices, as executing each (tenant, batch) once, at its first occurrence. |
| Agreement.ExecuteCounts | geoint-platform/app/ingestion/dispatcher.py:201-215 | The run row and the one completed message among those the execution adds report exactly how many observations the table gained; the run row also how many were seen. |
| BatchTables.ExecuteStores | geoint-platform/app/ingestion/dispatcher.py:147-223 | An execution stores exactly the observations whose key of tenant, source, entity and time is neither in the table nor earlier in the batch; their number is in the run row and the completion, their rows in order in one analytics message exactly when the sink is on and there are any, and these close the outbox. |
| BatchTables.EntitiesBecome | geoint-platform/app/db/repositories.py:106-146 | After an execution an entity of the tenant has the type and first sighting of its row or its first observation, the latest sighting of all, and every attribute as last written; the others are as they were. |
| Agreement.StatesFollowLastFix | geoint-platform/app/ingestion/dispatcher.py:176-185 | After an execution an entity is inside exactly the fences that contain its last fresh position of the batch, containment written out; entities without one, and other tenants, are where they were. |
| Agreement.TypedRulesAreDead | geoint-platform/app/ingestion/dispatcher.py:177-185 | Ingestion passes no entity type to the engine, so every rule with a type filter is dead: executing without those rules gives the same database. |
| Breaker.CircuitBreaker.BeforeCall | geoint-platform/app/resilience/circuit_breaker.py:32-38 | Raises exactly while open and not yet recovered; the first call after recovery starts half-open with no successes; nothing else changes. |
| Breaker.CircuitBreaker.RecordSuccess | geoint-platform/app/resilience/circuit_breaker.py:40-48 | Half-open, one success more, closing with no failures at the threshold; in the other modes closed with no failures. |
| Breaker.CircuitBreaker.RecordFailure | geoint-platform/app/resilience/circuit_breaker.py:50-54 | One failure more; half-open or at the threshold open, stamped with the time of the record; else the mode stays. |
| Breaker.PerformConsistent | geoint-platform/app/resilience/circuit_breaker.py:32-54 | One admitted call, recorded or not, keeps the reading of the counters: failures as the last run of recorded failures while closed, successes as that of recorded successes while half-open. |
| Breaker.History | geoint-platform/app/resilience/circuit_breaker.py:32-54 | Over any sequential history, in which an admitted call may raise where nothing is recorded: closed means fewer failures in a row than the threshold, half-open fewer successes in a row than its own, open that the last admitted call opened it, and no call is admitted within the recovery timeout of any earlier opening. |
| Breaker.ClosingNeedsSuccesses | geoint-platform/app/resilience/circuit_breaker.py:40-48 | A circuit that is not closed closes on a call if and only if that call is the success threshold's success in a row. |
| Breaker.OpeningNeedsFailures | geoint-platform/app/resilience/circuit_breaker.py:50-54 | An admitted call opens the circuit if and only if it fails and the circuit was not closed or this is the threshold's failure in a row; below the threshold a closed circuit stays closed. |
| Breaker.AdmittedIff | geoint-platform/app/resilience/circuit_breaker.py:32-38 | A call is admitted if and only if the call admitted before it did not open the circuit, or did so at least the recovery timeout ago. |
| Ingestion.DispatchesRun | geoint-platform/app/ingestion/dispatcher.py:95-114 | Over any dispatches the circuit is that of a run of calls, those of a registered adapter, an allowed source and a tenant that can be bound, each recorded at most once: what the breaker's history assumes. |
| Outbox.BacklogMembers | geoint-platform/app/outbox/repository.py:30-43 | The claim's candidates are exactly the unpublished messages, in creation order. |
| Outbox.PublishOne | geoint-platform/app/outbox/dispatcher.py:47-77 | One message: the effect outside the transaction first, then the mark or the attempt count; an analytics message that writes nothing is marked without an effect. |
| Outbox.ProcessBatch | geoint-platform/app/outbox/dispatcher.py:44-78 | A batch over the mutable session and broker equals its specification; a crash keeps what has left and loses the marks. |
| OutboxLaws.ProcessAllKeeps | geoint-platform/app/outbox/dispatcher.py:46-77 | Within a batch a message is marked if and only if its own effect succeeded; messages outside the claim are untouched. |
| OutboxLaws.ProcessExactly | geoint-platform/app/outbox/dispatcher.py:47-77 | One message, written out: an analytics message that writes nothing is marked without an effect; otherwise it leaves unless the effect was not done, and is marked only when that was reported, else an attempt is counted. |
| OutboxLaws.BatchKeeps | geoint-platform/app/outbox/dispatcher.py:44-78 | Every batch, crashing anywhere, keeps "marked means really published or written" and undoes no mark. |
| OutboxLaws.AtLeastOnce | geoint-platform/app/outbox/dispatcher.py:44-78 | Over any run of enqueues and batches with failures and crashes: every marked message has left, no message is dropped or altered, no mark is undone. |
| OutboxLaws.BatchDrains | geoint-platform/app/outbox/repository.py:30-43 | A batch without failures publishes exactly the oldest `limit` pending messages, in creation order. |
| OutboxLaws.CrashRepeats | geoint-platform/app/outbox/dispatcher.py:44-78 | A crash after any number of the claimed messages, up to all, leaves every mark undone although those have left, and the next batch sends the same claim a second time. |
| OutboxLaws.DrainsInOrder | geoint-platform/app/outbox/dispatcher.py:44-78 | With no failures and no enqueues, pending messages leave in creation order and the outbox is empty after exactly ceil(n / limit) batches, not sooner. |
| OutboxLaws.BlockedClaimStays | geoint-platform/app/outbox/repository.py:35-41 | A batch all of whose claimed messages fail, crashing or not, marks nothing, leaves the claim as it was, and lets nothing outside it leave. |
| OutboxLaws.BlockedForGood | geoint-platform/app/outbox/repository.py:35-41 | Attempts are unbounded and claims oldest first: when a full claim keeps failing, then over any run of enqueues and batches the claim stays the same, none of it is ever marked, and nothing newer ever leaves. |
| OutboxBlocking.ClaimedIff | geoint-platform/app/outbox/repository.py:35-43 | A batch claims a message if and only if it is pending and fewer than `limit` pending messages are older. |
| OutboxBlocking.PublishedIff | geoint-platform/app/outbox/dispatcher.py:44-78 | The exact condition of head-of-line blocking: under fixed outcomes a pending message that can be published is published after some number of batches if and only if fewer than `limit` older pending messages fail, and then within one batch more than it has older pending messages. |
| OutboxBlocking.WaitsForGood | geoint-platform/app/outbox/dispatcher.py:44-78 | Behind `limit` older messages that keep failing, a message is never published over any run of enqueues and batches, crashing or not, whether or not the claim was full of failing messages to begin with. |
| OutboxLaws.RoomLetsThrough | geoint-platform/app/outbox/repository.py:35-41 | A claim with room does not block: a message enqueued beside failing ones leaves with the next batch. |
| OutboxLaws.WrittenIffEnabled | geoint-platform/app/analytics/clickhouse.py:105-106 | A delivered analytics message is marked published, but its ids are in the warehouse if and only if the sink is enabled. |
| Analytics.EpochMs | geoint-platform/app/analytics/clickhouse.py:58-76 | Days, seconds and microseconds of the delta give the millisecond floored towards the past, before 1970 as well. |
| Analytics.WriteObservations | geoint-platform/app/analytics/clickhouse.py:99-155 | The loop writes the identities of exactly the positioned rows, in order; nothing when disabled. |
| Analytics.IdentitiesMembers | geoint-platform/app/analytics/clickhouse.py:109-135 | An id is written if and only if some positioned row has it. |
| Analytics.DecimalInjective | geoint-platform/app/analytics/clickhouse.py:84-85 | Decimal text, signs included, determines the number. |
| Analytics.SplitUnique | geoint-platform/app/analytics/clickhouse.py:84-85 | Separator-free fields are determined by the joined text. |
| Analytics.IdentityDistinguishes | geoint-platform/app/analytics/clickhouse.py:79-85 | With a collision-free digest and separator-free fields, two ids are equal if and only if tenant, source, entity and floored millisecond are. |
| AnalyticsAgreement.IngestKeeps | geoint-platform/app/ingestion/dispatcher.py:84-231 | One execution of any batch, whatever its geofence and alert messages, leaves every positioned observation either written or waiting in a pending analytics message, and nothing waiting that is not in the table. |
| AnalyticsAgreement.DispatchKeeps | geoint-platform/app/outbox/dispatcher.py:44-78 | One dispatcher batch, failing or crashing, keeps that account. |
| AnalyticsAgreement.RunAccounted | geoint-platform/app/ingestion/dispatcher.py:84-231 | The account holds over any run of executions and batches. |
| AnalyticsAgreement.AnalyticsAgrees | geoint-platform/app/analytics/clickhouse.py:99-169 | Over any run, the ids in the analytics log are ids of positioned observations only; and whenever no analytics message is pending they are exactly those of all of them. |
| AnalyticsAgreement.CountsAgree | geoint-platform/app/analytics/clickhouse.py:79-85 | Distinct ids count the positioned observations if and only if no two of them share tenant, source, entity and millisecond: the identity is coarser than the table's unique key. |
| Deliveries.ClaimBatch | geoint-platform/app/alerts/delivery.py:82-123 | Claims exactly the first `limit` ready deliveries in creation order, ready being due and pending or failed, or sending with an expired lease, with attempts left; leases last at least 30 seconds; nothing else changes. |
| Deliveries.ProcessOne | geoint-platform/app/alerts/delivery.py:125-194 | Errors for a missing row, a lease of another worker and a raising notifier change nothing; otherwise the row becomes skipped, delivered, failed or pending with backoff, lease released. |
| Deliveries.ProcessedExactly | geoint-platform/app/alerts/delivery.py:140-194 | The row after processing, written out: skipped with an attempt spent, untouched when the notifier raises, delivered, failed after the last attempt, or pending again after min(3600, 30 * 2^(a - 1)) seconds. |
| Deliveries.Tick | geoint-platform/app/workers/alert_notifier.py:160-199 | One tick claims, then processes each claim on its own: a notifier that raises leaves that row's lease in place and does not affect the others. |
| DeliveryProtocol.RowAlwaysWellFormed | geoint-platform/app/alerts/delivery.py:91-123 | However claims, starts, sends, late commits and crashes interleave: attempts never exceed the maximum, sending holds exactly while owner and lease are set, failed means attempts are exhausted. |
| DeliveryProtocol.ClaimTakesIff | geoint-platform/app/alerts/delivery.py:91-123 | A claim takes the row, for at least 30 seconds, if and only if attempts are left and it is pending or failed and due, or being sent under a lease that has passed. |
| DeliveryProtocol.BackoffHeld | geoint-platform/app/alerts/delivery.py:91-194 | The backoff is waited for: after a commit at attempt a that leaves the row pending, over any run short of another worker's late commit, no claim changes it before min(3600, 30 * 2^(a - 1)) seconds from the attempt, and a claim from then on takes it. |
| DeliveryProtocol.UndisturbedRun | geoint-platform/app/alerts/delivery.py:125-194 | Over runs in which no claim takes the row from a worker in flight, however late workers start, send or commit: every worker in flight owns the row, the attempts count the commits, and the backoff is the sum over the retried attempts. |
| DeliveryProtocol.DeliveredRecords | geoint-platform/app/workers/alert_notifier.py:171-200 | What the laws call delivered is an accepted send in the run. |
| DeliveryProtocol.LostRecords | geoint-platform/app/workers/alert_notifier.py:171-200 | What they call lost is a crash between such a send and its commit. |
| DeliveryProtocol.OrderlyIffUndisturbed | geoint-platform/app/alerts/delivery.py:91-136 | That condition is exact: every worker in flight owns the row at every point of a run if and only if no claim of the run intrudes. |
| DeliveryProtocol.AtomicUndisturbed | geoint-platform/app/workers/alert_notifier.py:171-200 | With each processing uninterrupted, whatever the times, no claim intrudes, so every law of undisturbed runs holds without a condition on leases. |
| DeliveryProtocol.TimelyUndisturbed | geoint-platform/app/alerts/delivery.py:91-106 | A run in which nobody stays in flight past its lease is undisturbed: the claim filter keeps out of a live lease. |
| DeliveryProtocol.TimelyRun | geoint-platform/app/alerts/delivery.py:125-194 | Such a run keeps the invariant, with every worker inside its lease. |
| DeliveryProtocol.MutualExclusion | geoint-platform/app/workers/alert_notifier.py:160-199 | On undisturbed runs no two workers are ever in flight on one delivery. |
| DeliveryProtocol.NoDoubleSend | geoint-platform/app/alerts/delivery.py:161-183 | On undisturbed runs a send after a successful send happens only after a crash between send and commit. |
| DeliveryProtocol.TerminalAbsorbs | geoint-platform/app/alerts/delivery.py:94-113 | On undisturbed runs delivered, failed and skipped rows never change again, although the claim filter names "failed". |
| DeliveryProtocol.StepsAreProcessing | geoint-platform/app/alerts/delivery.py:125-194 | Run without interruption, start, send and commit are the service's atomic processing. |
| DeliveryProtocol.BackoffClosedForm | geoint-platform/app/alerts/delivery.py:186-189 | The sum of min(3600, 30 * 2^(a-1)) is 30 * (2^n - 1) up to the seventh attempt and grows by 3600 each after it. |
| DeliveryProtocol.TotalBackoff | geoint-platform/app/alerts/delivery.py:184-190 | On undisturbed runs the total backoff of a delivery is that closed form of its retried attempts, and the commits equal the attempts and never exceed the maximum. |
| DeliveryProtocol.Overrun | geoint-platform/app/alerts/delivery.py:99-103 | A run can be disturbed with every start inside its lease: a worker that starts in time but is still busy when its lease runs out is joined by a second, without any commit. |
| DeliveryProtocol.LateCommitBreaksExclusion | geoint-platform/app/alerts/delivery.py:191-192 | Staying within one's own lease is not enough: another worker's late commit releases the row, a third claims it, and two workers deliver without any crash. |
| Jobs.JobStore.Earliest | geoint-platform/app/jobs/repository.py:27-37 | The due job with the earliest next run not yet picked. |
| Jobs.JobStore.ClaimDueJobs | geoint-platform/app/jobs/repository.py:16-51 | Claims exactly the `limit` earliest due jobs (all when fewer), each locked with one more attempt, and changes no other. |
| Jobs.JobStore.MarkSuccess | geoint-platform/app/jobs/repository.py:53-66 | Pending again after the interval, unlocked, attempts reset; a missing job is ignored. |
| Jobs.JobStore.MarkFailure | geoint-platform/app/jobs/repository.py:68-89 | Failed when attempts are exhausted, else a retry after min(300, 2^(attempts-1)) seconds; unlocked. |
| Jobs.JobStore.Tick | geoint-platform/app/workers/job_scheduler.py:52-82 | One tick: a claimed job whose publication succeeds stays queued; one whose publication raises is marked failed once. |
| Jobs.PerformKeeps | geoint-platform/app/jobs/repository.py:16-89 | Every claim, mark or administrative change keeps the job invariant. |
| Jobs.JobAlwaysConsistent | geoint-platform/app/jobs/repository.py:16-89 | Under any interleaving: queued exactly while locked, exactly while the last claim is unmarked; attempts count the claims since the last success; two claims are always separated by a mark; and, when at least one attempt is allowed, they never exceed the maximum and pending or retry means attempts left. |
| Jobs.AttemptsBoundedIff | geoint-platform/app/jobs/repository.py:27-48 | The claim does not look at attempts: they stay within the maximum on every run if and only if at least one attempt is allowed. |
| Jobs.LockExpiryIsDead | geoint-platform/app/jobs/repository.py:30-34 | The lock-expiry test never decides a claim, and a queued job nobody marks stays queued however long its lock has run out. |
| Jobs.ClaimTakesIff | geoint-platform/app/jobs/repository.py:27-48 | A claim takes the job, with one more attempt, if and only if it is enabled, due, pending or to be retried, and not locked. |
| Jobs.NextRun | geoint-platform/app/jobs/repository.py:50-86 | After a mark the job is unlocked, and whatever is tried before, a claim takes it exactly from its interval on after a success, from min(300, 2^(attempts - 1)) seconds on after a failure, and never after the last failure. |
| Idempotency.MessageStore.TryClaim | geoint-platform/app/jobs/repository.py:95-176 | Takes the row when it is absent, released or past its lease and not completed; otherwise reports completed, one's own claim, or busy, and changes nothing. |
| Idempotency.MessageStore.MarkCompleted | geoint-platform/app/jobs/repository.py:178-197 | Completes the row for its owner only. |
| Idempotency.MessageStore.MarkFailed | geoint-platform/app/jobs/repository.py:199-222 | Releases the row for its owner only, and only while processing. |
| Idempotency.ClaimExactly | geoint-platform/app/jobs/repository.py:95-176 | Written out: a claim is taken when the row is absent, or not completed and released, without a lease or past it, for at least 30 seconds; a live row of one's own counts as claimed unchanged; a completed one says so; any other is busy. |
| Idempotency.MarksExactly | geoint-platform/app/jobs/repository.py:178-222 | Written out: completion needs the row's own worker, release also a row still processing, and each drops the lease. |
| Idempotency.ClaimKeeps | geoint-platform/app/jobs/repository.py:120-160 | A claim keeps the grants disjoint and the row in step with the last grant. |
| Idempotency.LeasesHold | geoint-platform/app/jobs/repository.py:95-222 | Over every run, with any clock, crashes and late marks: grants of the lease are disjoint in time unless the earlier was released as failed, a handler within its lease owns the row, and the message is completed at most once. |
| Idempotency.LiveHandlerUnique | geoint-platform/app/jobs/repository.py:95-176 | No two workers are ever active within their leases on one message. |
| Idempotency.SupersededMarksAreNoOps | geoint-platform/app/jobs/repository.py:178-222 | Once another worker holds the last grant, a superseded worker's marks change no row, no grant and no completion. |
| Idempotency.CompletedAbsorbs | geoint-platform/app/jobs/repository.py:135-145 | After completion no action of anyone changes the row or grants it again. |
| Idempotency.BeginBeforeCompletion | geoint-platform/app/workers/source_worker.py:130-165 | A handler that begins within its lease begins before completion and as the owner. |
| Idempotency.StalledBeginAfterCompletion | geoint-platform/app/workers/source_worker.py:151-165 | The lease is not rechecked before execution: at any time past it, some run lets the stalled worker begin after another has completed the message. |
| Worker.SourceWorker.Work | geoint-platform/app/workers/source_worker.py:152-175 | The owner's block in order, up to the first step that raises: execute, mark the job, mark the message. |
| Worker.SourceWorker.TryHandle | geoint-platform/app/workers/source_worker.py:117-185 | Parse, claim, the answers for completed and busy, the owner's block, and the release when it raises. |
| Worker.SourceWorker.Bury | geoint-platform/app/workers/source_worker.py:190-222 | The dead letter: topic, row, job mark, the first to raise ending it without undoing what was done. |
| Worker.SourceWorker.Handle | geoint-platform/app/workers/source_worker.py:112-234 | A delivery over the mutable stores equals the specification `Handled`, state and answer, for every combination of raising steps; the session's footprint only grows, so deliveries can follow one another. |
| WorkerLaws.AckMeansDone | geoint-platform/app/workers/source_worker.py:142-175 | Short of exhaustion, acknowledged means completed: by this delivery's own commit, or before it and then without a trace. |
| WorkerLaws.FailureReleases | geoint-platform/app/workers/source_worker.py:177-185 | A failed attempt of the owner gives the claim back at once: any worker's next claim succeeds at any time, except that a message whose acknowledgement alone failed is completed. |
| WorkerLaws.ExhaustedDelivery | geoint-platform/app/workers/source_worker.py:112-223 | On the last delivery: if no step stumbles, the answer is that of the claim and there is no dead letter; if parsing, claiming, answering, executing or marking does, it is acknowledged even when burying it fails, the topic has the letter if and only if the body is readable and the publish did not raise, the table if and only if its row did not raise either. |
| WorkerLaws.AnswerExactly | geoint-platform/app/workers/source_worker.py:112-234 | The answer to any delivery: that of the claim when nothing stumbles; else put back before the last delivery and acknowledged on it, unless the final answer raises; and before the last delivery there is no dead letter. |
| WorkerLaws.BusyOnlyNaks | geoint-platform/app/workers/source_worker.py:146-149 | Busy is answered before exhaustion is looked at: the last delivery is only put back, with no dead letter and no change. |
| WorkerLaws.CompletedInert | geoint-platform/app/workers/source_worker.py:142-145 | A completed message stays completed and is not executed again; it is acknowledged without a trace, but when claiming or acknowledging raises, the job that succeeded is marked failed once more. |
| WorkerLaws.OthersUntouched | geoint-platform/app/workers/source_worker.py:112-234 | A delivery changes no other message's row and no other job. |
| WorkerJobs.OwnJob | geoint-platform/app/workers/source_worker.py:151-223 | What a delivery does to its own job: marked pending, unlocked, without attempts and due after its interval when it owns, executes and marks; then, when a step raises and the failure mark is reached, failed or to be retried after its backoff; otherwise unchanged. |
| WorkerJobs.OwnMessage | geoint-platform/app/workers/source_worker.py:130-185 | The message's row after a delivery: unchanged when the claim is not taken; completed when the owner executes and no mark raises; otherwise released, or still claimed, for twice the acknowledgement wait and two minutes at least, when the release raises. |
| WorkerJobs.CommitsAs | geoint-platform/app/workers/source_worker.py:153-163 | A delivery that commits runs under the tenant, source and job type of its message: the run row and the one completion it adds say so, with the growth of the table. |
| WorkerJobs.CircuitTold | geoint-platform/app/ingestion/dispatcher.py:95-114 | A delivery that takes the claim is one call of its source's breaker when source and tenant are permitted, recorded by how the fetch ended; any other leaves the breaker alone. |
| WorkerJobs.DueAgain | geoint-platform/app/workers/source_worker.py:167-167 | After a clean delivery the job is claimed again over any further ticks and deliveries if and only if it is enabled and some tick comes from its interval on. |
| WorkerLaws.DeliverKeeps | geoint-platform/app/workers/source_worker.py:151-175 | One more delivery, committing or not, keeps "applied at most once". |
| WorkerLaws.EffectsOnce | geoint-platform/app/workers/source_worker.py:112-234 | However often one message is delivered, to whatever workers, with whatever steps raising and crashes in between: all derived tables, entities included, are as before or as after one execution, each further commit adds one run row and one message, and a completed message was executed. |
| WorkerLaws.LaterDelivery | geoint-platform/app/workers/source_worker.py:112-234 | Once a delivery has committed, then after any deliveries of any messages a further delivery of it changes nothing, or adds one run row and one message and merges the batch into the entities again. |
| WorkerRuns.StagesAreHandling | geoint-platform/app/workers/source_worker.py:112-234 | Run without interruption, the stages of a delivery, one transaction each, are the worker's handling of it. |
| WorkerRuns.AckCompletesIff | geoint-platform/app/workers/source_worker.py:169-175 | From the completion mark on, a delivery acknowledges in any case, and its message is then completed if and only if the row is still the worker's own or another has completed it. |
| WorkerRuns.AcknowledgedUncompleted | geoint-platform/app/workers/source_worker.py:151-175 | That can fail: for any two workers the second of which claims after the lease of the first, a run acknowledges the message while it is not completed. |
| WorkerRuns.RunExecutes | geoint-platform/app/workers/source_worker.py:153-163 | However stages of any deliveries interleave, the database is the executions made, one after the other. |
| WorkerRuns.InterleavedEffectsOnce | geoint-platform/app/workers/source_worker.py:112-234 | Under any interleaving of any deliveries of any messages, redelivered, faulty, crashing or outliving their leases, the derived tables but the entities, and the outbox but for completion notices, are those of executing each piece of work once, at its first occurrence; each execution adds one run row. |
| WorkerRuns.RepeatedExecution | geoint-platform/app/ingestion/dispatcher.py:147-224 | What a repeat does add, after any interleaving: its run row, a completion notice saying 0 inserted, and the batch merged into the entities again. |
| WorkerRuns.PerformJustified | geoint-platform/app/workers/source_worker.py:112-234 | Every step of every delivery keeps the account of who may acknowledge. |
| WorkerRuns.AcknowledgedMeansExecuted | geoint-platform/app/workers/source_worker.py:142-175 | Under any interleaving, a message acknowledged before exhaustion, and a message marked completed, was executed in the run or completed before it. |
| WorkerLeases.TakesAreJust | geoint-platform/app/jobs/repository.py:120-160 | Under any interleaving of whole deliveries the row is what the last taking of the claim says, and a claim is taken again only after its owner released it, after its lease, or by the same worker. |
| WorkerLeases.ExecutionsWithinTakes | geoint-platform/app/workers/source_worker.py:130-165 | A message is executed at most once for each time its claim is taken, and no more often than that by deliveries still on their way to execute. |
| WorkerLeases.SecondExecution | geoint-platform/app/workers/source_worker.py:112-185 | So a message is executed a second time only after a released claim, an expired lease, or a claim by the same worker again. |
| Rescheduling.NeverExecutesAgain | geoint-platform/app/messaging/jetstream.py:77-81 | The message id is the job id: after a job's first completed message, over any ticks and deliveries of the job and whatever raises, it never executes again. |
| Rescheduling.QueuedForGood | geoint-platform/app/workers/source_worker.py:142-145 | And while nothing raises it is claimed at most once more, acknowledged unexecuted, and queued for good. |
| Rescheduling.ClaimedAgainIff | geoint-platform/app/jobs/repository.py:27-48 | It is claimed that once more if and only if it is due at some tick. |
| Terrain.AppendSteps | geoint-platform/app/topography/engine.py:511-516 | The inner loop appends the n equal steps of a segment. |
| Terrain.Densify | geoint-platform/app/topography/engine.py:499-521 | The nested loops compute the specification: segments under a micrometre skipped, ceil(length / step) steps each, the last point at the accumulated length. |
| Terrain.PiecesFit | geoint-platform/app/topography/engine.py:510-510 | The number of steps is the least that keeps each within the step length. |
| Terrain.DensifiedLaws | geoint-platform/app/topography/engine.py:499-521 | For any line and positive step: distances start at 0, increase strictly by at most the step, end at the length of the non-degenerate segments; the number of points is between 1 + total/step and 1 + segments + total/step. |
| Terrain.DensifiedSamples | geoint-platform/app/topography/engine.py:499-521 | Every segment of a micrometre or more is cut into the least number of equal steps within the step length, with a sample at each step, on the segment and in distance along the line; there are no other samples but the last point. |
| Sight.Profile | geoint-platform/app/topography/engine.py:143-175 | One point per sample with its elevation; the slope's legs are the rise from the last known elevation and the run from the sample before. |
| Sight.SlopeIff | geoint-platform/app/topography/engine.py:158-174 | A point has a slope if and only if its own elevation and that of some point before it are known. |
| Sight.SlopeAcrossGap | geoint-platform/app/topography/engine.py:158-174 | After a gap in the elevations the slope is the true gradient between the known points if and only if there is no gap or no rise. |
| Sight.LineOfSight | geoint-platform/app/topography/engine.py:218-344 | Not visible with a missing endpoint; otherwise obstructed exactly when some known interior sample exceeds the ray, and the reported obstruction is the first. |
| Sight.RayIs | geoint-platform/app/topography/engine.py:279-295 | The ray starts at the observer and ends at the target; without refraction it is the straight line between; with k it is lower by d (total - d) / (2 k R), R = 6371000. |
| Sight.VisibleExactly | geoint-platform/app/topography/engine.py:218-306 | Visible if and only if both ends have an elevation and, of the least number of equal steps, every known elevation strictly between satisfies the inequality written out in the two heights, the distances and k. |
| Sight.VisibleAtOnce | geoint-platform/app/topography/engine.py:499-521 | On a degenerate segment the target's own elevation decides. |
| Sight.OneSegment | geoint-platform/app/topography/engine.py:499-521 | The samples of one segment are its n + 1 equal steps, or the target alone when it is degenerate. |
| Sight.SampleMirrors | geoint-platform/app/topography/engine.py:508-520 | Sample k from the observer is sample n - k from the target: same place, complementary distance. |
| Sight.RayMirrors | geoint-platform/app/topography/engine.py:279-295 | The ray is the same from either end: linear interpolation and bulge are symmetric. |
| Sight.Reciprocity | geoint-platform/app/topography/engine.py:279-344 | With a symmetric distance, swapping the ends with their heights gives the same answer for every ground, step and refraction; on a degenerate segment if and only if both ends are known or both unknown. |
| Sight.BulgeShrinks | geoint-platform/app/topography/engine.py:293-295 | The bulge is non-negative along the segment and shrinks as the effective radius grows. |
| Sight.BulgeLowers | geoint-platform/app/topography/engine.py:283-295 | For any positive k the ray runs strictly below the straight one between its ends, although the assumptions call it flat. |
| Sight.VisibilityMonotone | geoint-platform/app/topography/engine.py:279-306 | Raising either end, raising k, or dropping the curvature never hides a visible target. |
| Sight.ServeLineOfSight | geoint-platform/app/topography/service.py:308-383 | Without an elevation model nothing is visible; otherwise the engine answers at the requested step, clamped to the resolution, which is 30 m when missing or zero, and says whether it was clamped. |
| Sight.SamplesWithinGsd | geoint-platform/app/topography/service.py:358-365 | Along the clamped path neighbouring samples are within the resolution of each other if and only if the resolution is positive: a negative recorded one defeats the clamp. |
| RateLimit.RateLimiter.Check | geoint-platform/app/infrastructure/rate_limit.py:30-52 | The counter and the answer for every outcome of Redis, open or closed on failure. |
| RateLimit.TimelyCount | geoint-platform/app/infrastructure/rate_limit.py:45-48 | A request that reaches Redis up to a second after its window finds the true count: the expiry never resets a live window. |
| RateLimit.AnsweredExactly | geoint-platform/app/infrastructure/rate_limit.py:37-52 | A timely request is admitted if and only if fewer than the limit were counted before it in its window when Redis answers, and exactly when failing open when it is down, loses the reply or raises on the expiry of a new counter. |
| RateLimit.RunFaithful | geoint-platform/app/infrastructure/rate_limit.py:45-48 | Over any run of such requests every counter holds exactly the requests counted in its window. |
| RateLimit.WindowQuota | geoint-platform/app/infrastructure/rate_limit.py:44-49 | An aligned window whose requests are all answered admits exactly min(limit, requests). |
| RateLimit.WindowBound | geoint-platform/app/infrastructure/rate_limit.py:37-52 | Failing closed, no aligned window admits more than the limit, whatever Redis does. |
| RateLimit.SlidingBound | geoint-platform/app/infrastructure/rate_limit.py:44-49 | When failing closed, or when Redis answers in the two windows concerned, no interval of window length admits more than twice the limit. |
| RateLimit.ExpiryResets | geoint-platform/app/infrastructure/rate_limit.py:45-48 | The exact condition, over any run with arrivals in any order: every request of an answered window sees the true count if and only if none arrives at or after the expiry its first request set. |
| RateLimit.QuotaInTime | geoint-platform/app/infrastructure/rate_limit.py:44-49 | In that case the window admits exactly min(limit, requests), whatever the other windows do. |
| RateLimit.LateArrival | geoint-platform/app/infrastructure/rate_limit.py:45-49 | Otherwise it can admit more: of two requests of one window under a limit of one, both are admitted if and only if the second comes after the expiry. |
| Png.WalkChunks | geoint-platform/app/topography/providers.py:126-141 | The byte-level loop terminates on any input and collects what its pieces say. |
| Png.LastChunk | geoint-platform/app/topography/providers.py:130-141 | At the end of a file, whole or cut short: fewer than eight bytes are ignored; a last chunk is read with the data there are, a header raising below eight bytes. |
| Png.NumberRoundTrip | geoint-platform/app/topography/providers.py:131-131 | Big-endian numbers are read back as written. |
| Png.PiecesRead | geoint-platform/app/topography/providers.py:130-141 | For any chunks readable in sequence the walk sees exactly those before the first IEND, whatever follows. |
| Png.CollectAdds | geoint-platform/app/topography/providers.py:134-137 | Collecting them yields the dimensions of the last IHDR and the joined IDAT data. |
| Png.WalksImage | geoint-platform/app/topography/providers.py:126-141 | For any signature, header chunk, further chunks, IEND and trailing bytes, the walk recovers the header's dimensions and the joined data. |
| Png.DecodeFallback | geoint-platform/app/topography/providers.py:121-153 | The fallback reader's result on any bytes, with each of its failures. |
| Png.DecodeCentre | geoint-platform/app/topography/providers.py:109-153 | The imaging library's centre pixel when it can be imported, and then its errors reach the caller; the fallback otherwise. |
| Png.ReadersAgree | geoint-platform/app/topography/providers.py:115-150 | The fallback agrees with the library on an image if and only if the bytes at the centre are the pixel's colour: filtered rows are not undone. |
| Png.CentreInBounds | geoint-platform/app/topography/providers.py:144-148 | The centre offset lies within height scanlines, in row height/2, past its filter byte, at pixel width/2. |
| Png.DecodesImage | geoint-platform/app/topography/providers.py:126-150 | On any well-formed image whose data decompress to at least height scanlines, the elevation is that of the centre pixel. |
| Png.TerrariumInjective | geoint-platform/app/topography/providers.py:50-52 | Distinct colours are distinct elevations, from -32768 up to 32768. |

## Left out

Of the platform: source adapters and their field mapping, object storage, authentication and row-level
security, workspaces, permissions, websockets, the API routes, retention, the legacy pipeline, raster
processing (slope, hillshade, viewshed), the notifier transports and the web front end. They are
wiring, foreign libraries or single-branch checks.

What the models abstract:

- Fetching and normalizing: the batch is an arbitrary finite sequence, or the fetch raises, or storing and normalizing raise; quality scores, provenance and the other columns nothing reads are not modelled.
- Spatial containment, correlation findings, the digest, the distance and the elevation are arbitrary functions; digest injectivity, separator-free fields and a symmetric distance are stated where a law needs them.
- Tables other than the geofence states are sequences and maps in fields of the session, so aliasing is modelled only where the original has it.
- Row ids are table positions instead of random ids; queries without an ORDER BY return rows in table order; messages and deliveries created at one time are claimed in insertion order.
- OutboxLaws.BlockedForGood: like the other outbox laws, takes messages in the order their transactions commit and batches that do not overlap. The creation time is that of the transaction's start, before the fetch, so with several workers a late commit can enter the claim ahead of older messages; and a second dispatcher would skip the rows the first has locked and claim past them.
- One clock reading serves a whole transaction.
- A step that raises has no effect on the database: a commit that takes effect on the server and is still reported as failed is modelled for outbox publications and Redis counters only.
- Worker ids are taken to be distinct; the original builds them from names and process ids, which two containers may share.
- Row locks and SKIP LOCKED: each committed transaction is one atomic step, except that delivery processing is split at start, send and commit. The message stream's own duplicate suppression is not modelled.
- A raise inside emission leaves the transaction usable here; a database error would also abort it, which is the case of storing or normalizing raising.
- Exact reals replace floating point; the arctangent and the conversion to degrees of a slope are left as its two legs.
- The early return for an empty profile: a densified line always has a point, so it cannot be reached.
- PNG checksums are not verified by the reader and are arbitrary here; zlib is an arbitrary function that may fail; the filter bytes are not undone, as in the original fallback, and the imaging library is an arbitrary decoder. Chunk types are compared as the numbers their letters spell.
- Idempotency.StalledBeginAfterCompletion: shows starts after completion for every time past the lease; it does not say how likely a stall is.
- WorkerLaws.EffectsOnce: one message whose fetches normalize to one batch, so that the entities can be included; `WorkerLaws.LaterDelivery` and `WorkerRuns.InterleavedEffectsOnce` speak of all messages, where the entities may be merged again. A source that answers differently on redelivery is a different piece of work there.
- OutboxLaws.AtLeastOnce: does not bound how often a message leaves, because the code does not.
- DeliveryProtocol.MutualExclusion: holds for runs no claim disturbs; the code does not enforce that, and `DeliveryProtocol.Overrun` and `DeliveryProtocol.LateCommitBreaksExclusion` show what follows otherwise.
- DeliveryProtocol.BackoffHeld: a worker in flight that commits late can change the row sooner, as `DeliveryProtocol.LateCommitBreaksExclusion` shows.
- Breaker.History: assumes sequential calls; the original shares one breaker between concurrent calls of a process, whose records could then interleave.
- RateLimit.SlidingBound: assumes requests reach Redis no later than a second after their window, and one shared clock; `RateLimit.ExpiryResets` says what lateness does.
- Worker.SourceWorker.Handle: is one delivery without others in between (`WorkerRuns` has the interleavings); logging and the breaker registry by source are not modelled, and the breaker is the one of the message's source.
