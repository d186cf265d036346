/**
 The ingestion transaction: for each normalized observation, upsert the entity, insert the
 observation under its unique key, and only for a fresh row run the geofence diff, the alert
 fan-out and the outbox enqueues; then record the run and announce it.
 */
module Ingestion {
  import opened Arithmetic
  import opened Wrappers
  import opened Database
  import opened Breaker
  import Geofencing
  import Alerts

  /** An emission that raises: at which event, after how many of its rows, and whether the retry message
      can then be enqueued. */
  datatype Fault = Fault(event: nat, rows: nat, retried: bool)

  /** What one execution is given besides the batch; `faults` by position of the observation. */
  datatype Env = Env(
    tenant: string,
    source: string,
    jobType: string,
    world: World,
    now: Time,
    analyticsEnabled: bool,
    faults: map<nat, Fault>)

  // ---------------------------------------------------------------- the specification

  function Key(env: Env, o: Observation): ObservationKey {
    ObservationKey(env.tenant, o.sourceId, o.entityId, o.observedAt)
  }

  /** Creates the entity, or moves `lastSeen` forward and merges the attributes over the properties. */
  function Absorb(e: Option<Entity>, o: Observation): Entity {
    match e
    case None => Entity(o.entityType, Some(o.observedAt), Some(o.observedAt), Some(o.attributes))
    case Some(e) =>
      e.(lastSeen := Some(Max(e.lastSeen.GetOr(o.observedAt), o.observedAt)),
         properties := if o.attributes == map[] then e.properties else Some(e.properties.GetOr(map[]) + o.attributes))
  }

  function Lookup<K, V>(m: map<K, V>, k: K): Option<V> { if k in m then Some(m[k]) else None }

  function UpsertEntity(entities: map<EntityKey, Entity>, tenant: string, o: Observation): map<EntityKey, Entity> {
    var k := EntityKey(tenant, o.entityId);
    entities[k := Absorb(Lookup(entities, k), o)]
  }

  /** Fan-out of a list of events, stopping before the event at which emission raises. */
  function EmitEvents(d: Alerts.Desk, world: World, tenant: string, events: seq<GeofenceEvent>, now: Time): Alerts.Desk {
    if events == [] then d
    else Alerts.EmitFold(EmitEvents(d, world, tenant, events[..|events| - 1], now), world.channels, tenant,
                         events[|events| - 1], world.rules, now)
  }

  predicate Raises(events: seq<GeofenceEvent>, fault: Option<Fault>) {
    fault.Some? && fault.value.event < |events|
  }

  /** Fan-out of the events of one evaluation, up to the point where it raises, if it does. */
  function EmitSome(d: Alerts.Desk, world: World, tenant: string, events: seq<GeofenceEvent>, now: Time, fault: Option<Fault>)
    : Alerts.Desk
  {
    if Raises(events, fault) then
      var j := fault.value.event;
      Alerts.EmitUpTo(EmitEvents(d, world, tenant, events[..j], now), world.channels, tenant, events[j], world.rules, now,
                      fault.value.rows)
    else EmitEvents(d, world, tenant, events, now)
  }

  function Retry(tenant: string, events: seq<GeofenceEvent>, fault: Option<Fault>): seq<OutboxMessage> {
    if Raises(events, fault) && fault.value.retried then [NewMessage(tenant, AlertRetry(events))] else []
  }

  function Evaluate(db: Db, env: Env, o: Observation, position: Position, fault: Option<Fault>): Db {
    var s := Geofencing.SightingOf(env.world, env.tenant, o.entityId, position, o.observedAt, None, env.now);
    var g := Geofencing.Evaluate(Geofencing.Progress(db.states, db.stateOrder, db.outbox, []), s);
    var d := EmitSome(Alerts.Desk(db.alerts, db.deliveries), env.world, env.tenant, g.events, env.now, fault);
    db.(states := g.states, stateOrder := g.order, alerts := d.alerts, deliveries := d.deliveries,
        outbox := g.outbox + Retry(env.tenant, g.events, fault))
  }

  function Findings(tenant: string, findings: seq<string>): seq<OutboxMessage> {
    if findings == [] then []
    else Findings(tenant, findings[..|findings| - 1]) + [NewMessage(tenant, Correlation(findings[|findings| - 1]))]
  }

  function RowOf(o: Observation): AnalyticsRow {
    AnalyticsRow(o.entityId, o.entityType, o.sourceId, o.observedAt, o.position)
  }

  /** The loop's state: the database so far, the counters, and the analytics rows collected. */
  datatype Tally = Tally(db: Db, seen: nat, inserted: nat, rows: seq<AnalyticsRow>)

  /** What a fresh observation adds beyond its own row. */
  function Derive(db: Db, env: Env, o: Observation, fault: Option<Fault>): Db {
    var evaluated := if o.position.Some? then Evaluate(db, env, o, o.position.value, fault) else db;
    evaluated.(outbox := evaluated.outbox + Findings(env.tenant, env.world.detect(o)))
  }

  /** The entity upserted, and the observation inserted unless its key exists. */
  function Recorded(db: Db, env: Env, o: Observation): Db {
    db.(entities := UpsertEntity(db.entities, env.tenant, o),
        observations := if Key(env, o) in db.observations then db.observations else db.observations[Key(env, o) := o])
  }

  function Step(t: Tally, env: Env, o: Observation): Tally {
    var recorded := Recorded(t.db, env, o);
    if Key(env, o) in t.db.observations then Tally(recorded, t.seen + 1, t.inserted, t.rows)
    else Tally(Derive(recorded, env, o, Lookup(env.faults, t.seen)), t.seen + 1, t.inserted + 1, t.rows + [RowOf(o)])
  }

  function Fold(t: Tally, env: Env, batch: seq<Observation>): Tally {
    if batch == [] then t else Step(Fold(t, env, batch[..|batch| - 1]), env, batch[|batch| - 1])
  }

  function Finish(t: Tally, env: Env): Db {
    t.db.(runs := t.db.runs + [SourceRun(env.tenant, env.source, t.seen, t.inserted)],
          outbox := t.db.outbox + [NewMessage(env.tenant, Completed(env.source, t.inserted, env.jobType))]
                    + if env.analyticsEnabled && t.rows != []
                      then [NewMessage(env.tenant, Analytics(env.tenant, t.rows))] else [])
  }

  function Execute(db: Db, env: Env, batch: seq<Observation>): Db {
    Finish(Fold(Tally(db, 0, 0, []), env, batch), env)
  }

  // ---------------------------------------------------------------- the dispatcher

  datatype DispatchError = UnknownSource | TenantRefused | NotAllowed | CircuitOpen | ArgumentsFailed | FetchFailed | StoreFailed

  method UpsertEntityRow(session: Session, tenant: string, o: Observation)
    modifies session`entities
    ensures session.entities == UpsertEntity(old(session.entities), tenant, o)
  {
    var k := EntityKey(tenant, o.entityId);
    if k !in session.entities {
      session.entities := session.entities[k := Entity(o.entityType, Some(o.observedAt), Some(o.observedAt), Some(o.attributes))];
    } else {
      var entity := session.entities[k];
      entity := entity.(lastSeen := Some(Max(entity.lastSeen.GetOr(o.observedAt), o.observedAt)));
      if o.attributes != map[] {
        entity := entity.(properties := Some(entity.properties.GetOr(map[]) + o.attributes));
      }
      session.entities := session.entities[k := entity];
    }
  }

  /** Insert, or do nothing when the unique key exists; says which. */
  method InsertObservation(session: Session, env: Env, o: Observation) returns (inserted: bool)
    modifies session`observations
    ensures inserted == (Key(env, o) !in old(session.observations))
    ensures session.observations == if inserted then old(session.observations)[Key(env, o) := o] else old(session.observations)
  {
    inserted := Key(env, o) !in session.observations;
    if inserted {
      session.observations := session.observations[Key(env, o) := o];
    }
  }

  /** The alert block of an evaluation: a raised emission keeps its rows and is followed by one retry message. */
  method EmitAlerts(session: Session, env: Env, events: seq<GeofenceEvent>, fault: Option<Fault>)
    modifies session`alerts, session`deliveries, session`outbox
    ensures Alerts.Desk(session.alerts, session.deliveries)
            == EmitSome(old(Alerts.Desk(session.alerts, session.deliveries)), env.world, env.tenant, events, env.now, fault)
    ensures session.outbox == old(session.outbox) + Retry(env.tenant, events, fault)
  {
    ghost var d := Alerts.Desk(session.alerts, session.deliveries);
    for i := 0 to |events|
      invariant fault.Some? ==> i <= fault.value.event
      invariant Alerts.Desk(session.alerts, session.deliveries) == EmitEvents(d, env.world, env.tenant, events[..i], env.now)
      invariant session.outbox == old(session.outbox)
    {
      assert events[..i + 1][..i] == events[..i];
      var budget := if fault.Some? && fault.value.event == i then Some(fault.value.rows) else None;
      var raised := Alerts.EmitFromGeofenceEvent(session, env.world, env.tenant, events[i], env.now, budget);
      if raised {
        if fault.value.retried {
          session.Enqueue(env.tenant, AlertRetry(events));
        }
        return;
      }
    }
    assert events[..|events|] == events;
  }

  method EnqueueFindings(session: Session, env: Env, findings: seq<string>)
    modifies session`outbox
    ensures session.outbox == old(session.outbox) + Findings(env.tenant, findings)
  {
    for i := 0 to |findings|
      invariant session.outbox == old(session.outbox) + Findings(env.tenant, findings[..i])
    {
      assert findings[..i + 1][..i] == findings[..i];
      session.Enqueue(env.tenant, Correlation(findings[i]));
    }
    assert findings[..|findings|] == findings;
  }

  method EvaluateFresh(session: Session, env: Env, o: Observation, position: Position, fault: Option<Fault>)
    requires session.Valid() && Geofencing.UniqueFences(env.world.fences)
    modifies session, session.Repr
    ensures session.Valid() && Geofencing.Grown(old(session.Repr), session.Repr)
    ensures session.View() == Evaluate(old(session.View()), env, o, position, fault)
  {
    var events := Geofencing.EvaluateObservation(session, env.world, env.tenant, o.entityId, position, o.observedAt, None, env.now);
    EmitAlerts(session, env, events, fault);
  }

  method DeriveFresh(session: Session, env: Env, o: Observation, fault: Option<Fault>)
    requires session.Valid() && Geofencing.UniqueFences(env.world.fences)
    modifies session, session.Repr
    ensures session.Valid() && Geofencing.Grown(old(session.Repr), session.Repr)
    ensures session.View() == Derive(old(session.View()), env, o, fault)
  {
    if o.position.Some? {
      EvaluateFresh(session, env, o, o.position.value, fault);
    }
    EnqueueFindings(session, env, env.world.detect(o));
  }

  /** The two rows of an observation: its entity always, itself when new. */
  method Record(session: Session, env: Env, o: Observation) returns (isNew: bool)
    modifies session`entities, session`observations
    ensures isNew == (Key(env, o) !in old(session.observations))
    ensures session.View() == Recorded(old(session.View()), env, o)
  {
    UpsertEntityRow(session, env.tenant, o);
    isNew := InsertObservation(session, env, o);
  }

  method Ingest(session: Session, env: Env, o: Observation, ghost t: Tally, seen: nat, inserted: nat, rows: seq<AnalyticsRow>)
    returns (inserted': nat, rows': seq<AnalyticsRow>)
    requires session.Valid() && Geofencing.UniqueFences(env.world.fences)
    requires t == Tally(session.View(), seen, inserted, rows)
    modifies session, session.Repr
    ensures session.Valid() && Geofencing.Grown(old(session.Repr), session.Repr)
    ensures Tally(session.View(), seen + 1, inserted', rows') == Step(t, env, o)
  {
    inserted', rows' := inserted, rows;
    var isNew := Record(session, env, o);
    if isNew {
      inserted', rows' := inserted + 1, rows + [RowOf(o)];
      DeriveFresh(session, env, o, Lookup(env.faults, seen));
    }
  }

  /** The run row, the "completed" message and the analytics message. */
  method Conclude(session: Session, env: Env, ghost t: Tally, seen: nat, inserted: nat, rows: seq<AnalyticsRow>)
    requires t == Tally(session.View(), seen, inserted, rows)
    modifies session`runs, session`outbox
    ensures session.View() == Finish(t, env)
  {
    session.runs := session.runs + [SourceRun(env.tenant, env.source, seen, inserted)];
    session.Enqueue(env.tenant, Completed(env.source, inserted, env.jobType));
    if env.analyticsEnabled && rows != [] {
      session.Enqueue(env.tenant, Analytics(env.tenant, rows));
    }
  }

  /** The transaction body, once the raw payload has been fetched and normalized. */
  method Commit(session: Session, env: Env, batch: seq<Observation>) returns (inserted: nat)
    requires session.Valid() && Geofencing.UniqueFences(env.world.fences)
    modifies session, session.Repr
    ensures session.Valid() && Geofencing.Grown(old(session.Repr), session.Repr)
    ensures session.View() == Execute(old(session.View()), env, batch)
    ensures inserted == Fold(Tally(old(session.View()), 0, 0, []), env, batch).inserted
  {
    ghost var start := Tally(session.View(), 0, 0, []);
    var rows: seq<AnalyticsRow> := [];
    inserted := 0;
    for i := 0 to |batch|
      invariant session.Valid() && Geofencing.Grown(old(session.Repr), session.Repr)
      invariant Tally(session.View(), i, inserted, rows) == Fold(start, env, batch[..i])
    {
      assert batch[..i + 1][..i] == batch[..i];
      inserted, rows := Ingest(session, env, batch[i], Fold(start, env, batch[..i]), i, inserted, rows);
    }
    assert batch[..|batch|] == batch;
    Conclude(session, env, Fold(start, env, batch), |batch|, inserted, rows);
  }

  /** The characters that stripping a text removes. */
  predicate Whitespace(c: char) {
    || '\t' <= c <= '\r'
    || '\U{1C}' <= c <= ' '
    || c in "\U{85}\U{A0}\U{1680}"
    || '\U{2000}' <= c <= '\U{200A}'
    || c in "\U{2028}\U{2029}\U{202F}\U{205F}\U{3000}"
  }

  /** Tenant names the session binds: neither the worker sentinel nor blank. */
  predicate TenantBound(tenant: string) {
    tenant != "__system__" && exists i :: 0 <= i < |tenant| && !Whitespace(tenant[i])
  }

  /** The outside world's part of one execution: building the arguments of the fetch raises, or the
      adapter does, or it raises the open-circuit error itself, or the payload cannot be stored or
      normalized, or it normalizes to a batch. */
  datatype Fetch = ArgumentsRaised | FetchRaised | CircuitRaised | StoreRaised | Normalized(batch: seq<Observation>)

  /** What one execution is asked under: the registered adapters, the sources allowed, the fetch and its times. */
  datatype Request = Request(adapters: set<string>, allowed: set<string>, fetch: Fetch, calledAt: int, doneAt: int)

  /** The checks before the circuit breaker is asked. */
  predicate Permitted(env: Env, q: Request) {
    env.source in q.adapters && TenantBound(env.tenant) && env.source in q.allowed
  }

  predicate Executes(env: Env, q: Request, cfg: Config, c: Circuit) {
    Permitted(env, q) && Admits(cfg, c, q.calledAt) && q.fetch.Normalized?
  }

  function AfterCall(env: Env, q: Request, cfg: Config, c: Circuit): Circuit {
    if !Permitted(env, q) then c
    else if !Admits(cfg, c, q.calledAt) then Before(cfg, c, q.calledAt)
    else if q.fetch.ArgumentsRaised? || q.fetch.CircuitRaised? then Before(cfg, c, q.calledAt)
    else if q.fetch.FetchRaised? then Fail(cfg, Before(cfg, c, q.calledAt), q.doneAt)
    else Succeed(cfg, Before(cfg, c, q.calledAt))
  }

  /** `SourceDispatcher.execute`: the checks in order, the guarded fetch, then the transaction. */
  method Dispatch(session: Session, breaker: CircuitBreaker, env: Env, q: Request) returns (r: Result<nat, DispatchError>)
    requires session.Valid() && Geofencing.UniqueFences(env.world.fences)
    modifies session, session.Repr, breaker
    ensures session.Valid() && Geofencing.Grown(old(session.Repr), session.Repr)
    ensures breaker.Value() == AfterCall(env, q, breaker.config, old(breaker.Value()))
    ensures r.Success? <==> Executes(env, q, breaker.config, old(breaker.Value()))
    ensures r.Success? <==>
              && env.source in q.adapters && env.source in q.allowed
              && env.tenant != "__system__" && (exists i :: 0 <= i < |env.tenant| && !Whitespace(env.tenant[i]))
              && (old(breaker.mode) == Mode.Open ==> q.calledAt >= old(breaker.openedAt) + breaker.config.recoveryTimeout)
              && q.fetch.Normalized?
    ensures session.View() == if r.Success? then Execute(old(session.View()), env, q.fetch.batch) else old(session.View())
    ensures r.Success? ==> r.value == Fold(Tally(old(session.View()), 0, 0, []), env, q.fetch.batch).inserted
    ensures r == Failure(UnknownSource) <==> env.source !in q.adapters
    ensures r == Failure(TenantRefused) <==> env.source in q.adapters && !TenantBound(env.tenant)
    ensures r == Failure(NotAllowed) <==> env.source in q.adapters && TenantBound(env.tenant) && env.source !in q.allowed
    ensures r == Failure(CircuitOpen) <==>
              Permitted(env, q) && (!Admits(breaker.config, old(breaker.Value()), q.calledAt) || q.fetch.CircuitRaised?)
    ensures r == Failure(ArgumentsFailed) <==>
              Permitted(env, q) && Admits(breaker.config, old(breaker.Value()), q.calledAt) && q.fetch.ArgumentsRaised?
    ensures r == Failure(FetchFailed) <==>
              Permitted(env, q) && Admits(breaker.config, old(breaker.Value()), q.calledAt) && q.fetch.FetchRaised?
    ensures r == Failure(StoreFailed) <==>
              Permitted(env, q) && Admits(breaker.config, old(breaker.Value()), q.calledAt) && q.fetch.StoreRaised?
  {
    if env.source !in q.adapters {
      return Failure(UnknownSource);
    }
    if !TenantBound(env.tenant) {
      return Failure(TenantRefused);
    }
    if env.source !in q.allowed {
      return Failure(NotAllowed);
    }
    var admitted := breaker.BeforeCall(q.calledAt);
    if !admitted {
      return Failure(CircuitOpen);
    }
    if q.fetch.ArgumentsRaised? {
      return Failure(ArgumentsFailed);
    }
    if q.fetch.CircuitRaised? {
      return Failure(CircuitOpen);
    }
    if q.fetch.FetchRaised? {
      breaker.RecordFailure(q.doneAt);
      return Failure(FetchFailed);
    }
    breaker.RecordSuccess();
    if q.fetch.StoreRaised? {
      return Failure(StoreFailed);
    }
    var inserted := Commit(session, env, q.fetch.batch);
    r := Success(inserted);
  }

  // ---------------------------------------------------------------- the dispatcher and its breaker

  datatype Dispatched = Dispatched(env: Env, request: Request)

  /** What the breaker is told: nothing of a raise outside the guarded fetch, or of its own error coming out of it. */
  function EndingOf(fetch: Fetch): Ending {
    match fetch
    case ArgumentsRaised => Unrecorded
    case CircuitRaised => Unrecorded
    case FetchRaised => FailureRecorded
    case StoreRaised => SuccessRecorded
    case Normalized(_) => SuccessRecorded
  }

  /** The calls the breaker sees: those of a registered adapter, a tenant that can be bound and an allowed source. */
  function CallsOf(dispatches: seq<Dispatched>): seq<Call> {
    if dispatches == [] then []
    else
      var d := dispatches[|dispatches| - 1];
      CallsOf(dispatches[..|dispatches| - 1])
      + if d.env.source in d.request.adapters && d.env.source in d.request.allowed && TenantBound(d.env.tenant)
        then [Call(d.request.calledAt, d.request.doneAt, EndingOf(d.request.fetch))] else []
  }

  function CircuitAfter(cfg: Config, dispatches: seq<Dispatched>): Circuit {
    if dispatches == [] then INITIAL
    else
      var d := dispatches[|dispatches| - 1];
      AfterCall(d.env, d.request, cfg, CircuitAfter(cfg, dispatches[..|dispatches| - 1]))
  }

  /** A permitted dispatch is one call of the breaker; another is none. */
  lemma AfterCallPerforms(env: Env, q: Request, cfg: Config, t: Trace)
    ensures AfterCall(env, q, cfg, t.circuit)
            == if env.source in q.adapters && env.source in q.allowed && TenantBound(env.tenant)
               then Perform(cfg, t, Call(q.calledAt, q.doneAt, EndingOf(q.fetch))).circuit
               else t.circuit
  {
  }

  lemma RunAppend(cfg: Config, calls: seq<Call>, call: Call)
    ensures Run(cfg, calls + [call]) == Perform(cfg, Run(cfg, calls), call)
  {
    assert (calls + [call])[..|calls|] == calls;
  }

  /** The dispatcher keeps the discipline under which the breaker's history is stated: over any dispatches
      the circuit is that of a run of admitted calls, each recorded at most once. */
  lemma {:induction false} DispatchesRun(cfg: Config, dispatches: seq<Dispatched>)
    ensures CircuitAfter(cfg, dispatches) == Run(cfg, CallsOf(dispatches)).circuit
  {
    if dispatches == [] {
    } else {
      var init, d := dispatches[..|dispatches| - 1], dispatches[|dispatches| - 1];
      DispatchesRun(cfg, init);
      AfterCallPerforms(d.env, d.request, cfg, Run(cfg, CallsOf(init)));
      RunAppend(cfg, CallsOf(init), Call(d.request.calledAt, d.request.doneAt, EndingOf(d.request.fetch)));
      assert CallsOf(init) + [] == CallsOf(init);
    }
  }
}
