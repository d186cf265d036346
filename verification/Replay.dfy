/** Replaying a batch: what a second execution of the same normalized observations changes. */
module Replay {
  import opened Arithmetic
  import opened Wrappers
  import opened Database
  import opened Ingestion
  import Geofencing
  import GeofenceHistory

  // ---------------------------------------------------------------- the primary table

  ghost predicate Covered(db: Db, env: Env, batch: seq<Observation>) {
    forall i :: 0 <= i < |batch| ==> Key(env, batch[i]) in db.observations
  }

  ghost predicate Keeps(before: map<ObservationKey, Observation>, after: map<ObservationKey, Observation>) {
    forall k :: k in before ==> k in after && after[k] == before[k]
  }

  /** Row `k` is the batch's own. */
  ghost predicate From(after: map<ObservationKey, Observation>, k: ObservationKey, env: Env, batch: seq<Observation>)
    requires k in after
  {
    exists i :: 0 <= i < |batch| && Key(env, batch[i]) == k && after[k] == batch[i]
  }

  ghost predicate Counted(t: Tally, f: Tally, n: nat) {
    && f.seen == t.seen + n
    && |f.db.observations| - |t.db.observations| == f.inserted - t.inserted == |f.rows| - |t.rows|
    && f.db.runs == t.db.runs
  }

  /** Existing rows stay as they are; the rows gained are the batch's own, one per count. */
  ghost predicate Grows(t: Tally, f: Tally, env: Env, batch: seq<Observation>) {
    && Covered(f.db, env, batch)
    && Keeps(t.db.observations, f.db.observations)
    && (forall k :: k in f.db.observations && k !in t.db.observations ==> From(f.db.observations, k, env, batch))
    && Counted(t, f, |batch|)
  }

  /** What one step does to the primary table and the counters. */
  ghost predicate Steps(f: Tally, g: Tally, k: ObservationKey, o: Observation) {
    var isNew := k !in f.db.observations;
    && g.db.observations == (if isNew then f.db.observations[k := o] else f.db.observations)
    && g.seen == f.seen + 1
    && g.inserted == f.inserted + (if isNew then 1 else 0)
    && |g.rows| == |f.rows| + (if isNew then 1 else 0)
    && g.db.runs == f.db.runs
  }

  lemma FromStep(before: map<ObservationKey, Observation>, after: map<ObservationKey, Observation>, k: ObservationKey,
                 env: Env, batch: seq<Observation>)
    requires batch != [] && k in after
    requires if k in before then after[k] == before[k] && From(before, k, env, batch[..|batch| - 1])
             else k == Key(env, batch[|batch| - 1]) && after[k] == batch[|batch| - 1]
    ensures From(after, k, env, batch)
  {
    if k in before {
      var i :| 0 <= i < |batch| - 1 && Key(env, batch[..|batch| - 1][i]) == k && before[k] == batch[..|batch| - 1][i];
      assert Key(env, batch[i]) == k;
    } else {
      assert Key(env, batch[|batch| - 1]) == k;
    }
  }

  lemma CountedStep(t: Tally, f: Tally, g: Tally, n: nat, k: ObservationKey, o: Observation)
    requires Counted(t, f, n) && Steps(f, g, k, o)
    ensures Counted(t, g, n + 1)
  {
    if k !in f.db.observations {
      assert g.db.observations.Keys == f.db.observations.Keys + {k};
    }
  }

  lemma GrowsStep(t: Tally, f: Tally, g: Tally, env: Env, batch: seq<Observation>)
    requires batch != [] && Grows(t, f, env, batch[..|batch| - 1])
    requires Steps(f, g, Key(env, batch[|batch| - 1]), batch[|batch| - 1])
    ensures Grows(t, g, env, batch)
  {
    CountedStep(t, f, g, |batch| - 1, Key(env, batch[|batch| - 1]), batch[|batch| - 1]);
    assert Keeps(f.db.observations, g.db.observations);
    assert forall i :: 0 <= i < |batch| - 1 ==> batch[i] == batch[..|batch| - 1][i];
    forall k | k in g.db.observations && k !in t.db.observations
      ensures From(g.db.observations, k, env, batch)
    {
      FromStep(f.db.observations, g.db.observations, k, env, batch);
    }
  }

  lemma {:induction false} FoldObservations(t: Tally, env: Env, batch: seq<Observation>)
    ensures Grows(t, Fold(t, env, batch), env, batch)
  {
    if batch == [] {
    } else {
      FoldObservations(t, env, batch[..|batch| - 1]);
      GrowsStep(t, Fold(t, env, batch[..|batch| - 1]), Fold(t, env, batch), env, batch);
    }
  }

  // ---------------------------------------------------------------- the entity table

  function EntityFold(entities: map<EntityKey, Entity>, tenant: string, batch: seq<Observation>): map<EntityKey, Entity> {
    if batch == [] then entities
    else UpsertEntity(EntityFold(entities, tenant, batch[..|batch| - 1]), tenant, batch[|batch| - 1])
  }

  lemma {:induction false} FoldEntities(t: Tally, env: Env, batch: seq<Observation>)
    ensures Fold(t, env, batch).db.entities == EntityFold(t.db.entities, env.tenant, batch)
  {
    if batch == [] {
    } else {
      FoldEntities(t, env, batch[..|batch| - 1]);
    }
  }

  function AbsorbAll(e: Option<Entity>, batch: seq<Observation>, id: string): Option<Entity> {
    if batch == [] then e
    else
      var before, o := AbsorbAll(e, batch[..|batch| - 1], id), batch[|batch| - 1];
      if o.entityId == id then Some(Absorb(before, o)) else before
  }

  lemma {:induction false} EntityFoldAt(entities: map<EntityKey, Entity>, tenant: string, batch: seq<Observation>, k: EntityKey)
    ensures Lookup(EntityFold(entities, tenant, batch), k)
            == if k.tenant == tenant then AbsorbAll(Lookup(entities, k), batch, k.entity) else Lookup(entities, k)
  {
    if batch == [] {
    } else {
      EntityFoldAt(entities, tenant, batch[..|batch| - 1], k);
    }
  }

  /** The attributes a batch leaves behind for one entity: for each name, the last value written. */
  function Writes(batch: seq<Observation>, id: string): map<string, string> {
    if batch == [] then map[]
    else
      var before, o := Writes(batch[..|batch| - 1], id), batch[|batch| - 1];
      if o.entityId == id then before + o.attributes else before
  }

  ghost predicate SeenBy(batch: seq<Observation>, id: string, lastSeen: Option<Time>) {
    forall i :: 0 <= i < |batch| && batch[i].entityId == id ==> lastSeen.Some? && batch[i].observedAt <= lastSeen.value
  }

  predicate Mentions(batch: seq<Observation>, id: string) {
    exists i :: 0 <= i < |batch| && batch[i].entityId == id
  }

  /** The entity already reflects the batch: seen at least as late, and every last-written attribute in force. */
  ghost predicate Reflects(e: Option<Entity>, batch: seq<Observation>, id: string) {
    && (Mentions(batch, id) ==> e.Some?)
    && (e.Some? ==> SeenBy(batch, id, e.value.lastSeen))
    && (forall name :: name in Writes(batch, id) ==>
          && e.Some? && e.value.properties.Some?
          && name in e.value.properties.value && e.value.properties.value[name] == Writes(batch, id)[name])
  }

  lemma {:induction false} AbsorbAllReflects(e: Option<Entity>, batch: seq<Observation>, id: string)
    ensures Reflects(AbsorbAll(e, batch, id), batch, id)
  {
    if batch == [] {
    } else {
      var init, o := batch[..|batch| - 1], batch[|batch| - 1];
      AbsorbAllReflects(e, init, id);
      assert batch == init + [o];
      assert Mentions(batch, id) ==> Mentions(init, id) || o.entityId == id;
    }
  }

  function SeenFold(lastSeen: Option<Time>, batch: seq<Observation>, id: string): Option<Time> {
    if batch == [] then lastSeen
    else
      var before, o := SeenFold(lastSeen, batch[..|batch| - 1], id), batch[|batch| - 1];
      if o.entityId == id then Some(Max(before.GetOr(o.observedAt), o.observedAt)) else before
  }

  function Merge(properties: Option<map<string, string>>, writes: map<string, string>): Option<map<string, string>> {
    if writes == map[] then properties else Some(properties.GetOr(map[]) + writes)
  }

  lemma {:induction false} AbsorbAllForm(e: Entity, batch: seq<Observation>, id: string)
    ensures AbsorbAll(Some(e), batch, id)
            == Some(e.(lastSeen := SeenFold(e.lastSeen, batch, id), properties := Merge(e.properties, Writes(batch, id))))
  {
    if batch == [] {
    } else {
      var init, o := batch[..|batch| - 1], batch[|batch| - 1];
      AbsorbAllForm(e, init, id);
      var p, w := e.properties.GetOr(map[]), Writes(init, id);
      assert (p + w) + o.attributes == p + (w + o.attributes);
      if o.attributes != map[] {
        var name :| name in o.attributes;
        assert name in w + o.attributes;
      } else {
        assert w + o.attributes == w;
      }
      assert map[] + o.attributes == o.attributes;
    }
  }

  lemma {:induction false} SeenFoldStable(lastSeen: Option<Time>, batch: seq<Observation>, id: string)
    requires SeenBy(batch, id, lastSeen)
    ensures SeenFold(lastSeen, batch, id) == lastSeen
  {
    if batch == [] {
    } else {
      assert SeenBy(batch[..|batch| - 1], id, lastSeen);
      SeenFoldStable(lastSeen, batch[..|batch| - 1], id);
    }
  }

  lemma {:induction false} UnmentionedStable(batch: seq<Observation>, id: string)
    requires !Mentions(batch, id)
    ensures AbsorbAll(None, batch, id) == None
  {
    if batch == [] {
    } else {
      assert batch[|batch| - 1].entityId != id;
      assert forall i :: 0 <= i < |batch| - 1 ==> batch[..|batch| - 1][i] == batch[i];
      UnmentionedStable(batch[..|batch| - 1], id);
    }
  }

  /** Absorbing a batch changes an entity unless, and only unless, the entity already reflects it. */
  lemma AbsorbAllFixed(e: Option<Entity>, batch: seq<Observation>, id: string)
    ensures AbsorbAll(e, batch, id) == e <==> Reflects(e, batch, id)
  {
    AbsorbAllReflects(e, batch, id);
    if Reflects(e, batch, id) {
      match e
      case None => UnmentionedStable(batch, id);
      case Some(en) =>
        AbsorbAllForm(en, batch, id);
        SeenFoldStable(en.lastSeen, batch, id);
        var w := Writes(batch, id);
        if w != map[] {
          var name :| name in w;
          assert en.properties.value + w == en.properties.value;
        }
    }
  }

  /** Every entity of the tenant already reflects the batch. */
  ghost predicate UpToDate(entities: map<EntityKey, Entity>, tenant: string, batch: seq<Observation>) {
    forall id: string :: Reflects(Lookup(entities, EntityKey(tenant, id)), batch, id)
  }

  lemma EntityFoldFixed(entities: map<EntityKey, Entity>, tenant: string, batch: seq<Observation>)
    ensures EntityFold(entities, tenant, batch) == entities <==> UpToDate(entities, tenant, batch)
  {
    var after := EntityFold(entities, tenant, batch);
    forall k: EntityKey
      ensures k.tenant == tenant ==>
                (Lookup(after, k) == Lookup(entities, k) <==> Reflects(Lookup(entities, EntityKey(tenant, k.entity)), batch, k.entity))
      ensures k.tenant != tenant ==> Lookup(after, k) == Lookup(entities, k)
    {
      EntityFoldAt(entities, tenant, batch, k);
      AbsorbAllFixed(Lookup(entities, k), batch, k.entity);
    }
    if after == entities {
      forall id: string
        ensures Reflects(Lookup(entities, EntityKey(tenant, id)), batch, id)
      {
        assert Lookup(after, EntityKey(tenant, id)) == Lookup(entities, EntityKey(tenant, id));
      }
    }
    if UpToDate(entities, tenant, batch) {
      forall k: EntityKey
        ensures (k in after <==> k in entities) && (k in after ==> after[k] == entities[k])
      {
        assert Lookup(after, k) == Lookup(entities, k);
      }
    }
  }

  lemma EntityFoldUpToDate(entities: map<EntityKey, Entity>, tenant: string, batch: seq<Observation>)
    ensures UpToDate(EntityFold(entities, tenant, batch), tenant, batch)
  {
    forall id: string
      ensures Reflects(Lookup(EntityFold(entities, tenant, batch), EntityKey(tenant, id)), batch, id)
    {
      EntityFoldAt(entities, tenant, batch, EntityKey(tenant, id));
      AbsorbAllReflects(Lookup(entities, EntityKey(tenant, id)), batch, id);
    }
  }

  // ---------------------------------------------------------------- replay

  lemma {:induction false} StaleFold(t: Tally, env: Env, batch: seq<Observation>)
    requires Covered(t.db, env, batch)
    ensures Fold(t, env, batch)
            == Tally(t.db.(entities := EntityFold(t.db.entities, env.tenant, batch)), t.seen + |batch|, t.inserted, t.rows)
  {
    if batch == [] {
    } else {
      StaleFold(t, env, batch[..|batch| - 1]);
    }
  }

  /** The traces every execution leaves, fresh rows or none: a run row and a "completed" message. */
  function Noted(db: Db, env: Env, seen: nat): Db {
    db.(runs := db.runs + [SourceRun(env.tenant, env.source, seen, 0)],
        outbox := db.outbox + [NewMessage(env.tenant, Completed(env.source, 0, env.jobType))])
  }

  /**
   Once every key of a batch is in the table, executing the batch again, whatever the world, clock,
   settings and faults by then, touches nothing but the entity table, the run log and one message;
   and the entity table too is untouched exactly when every entity already reflects the batch.
   */
  lemma StaleReplay(db: Db, env: Env, batch: seq<Observation>)
    requires Covered(db, env, batch)
    ensures Execute(db, env, batch)
            == Noted(db.(entities := EntityFold(db.entities, env.tenant, batch)), env, |batch|)
    ensures Execute(db, env, batch) == Noted(db, env, |batch|) <==> UpToDate(db.entities, env.tenant, batch)
  {
    StaleFold(Tally(db, 0, 0, []), env, batch);
    EntityFoldFixed(db.entities, env.tenant, batch);
    assert Execute(db, env, batch).outbox == db.outbox + [NewMessage(env.tenant, Completed(env.source, 0, env.jobType))];
  }

  /** One execution covers every key of its batch and leaves every entity reflecting it. */
  lemma ExecuteSettles(db: Db, env: Env, batch: seq<Observation>)
    ensures Covered(Execute(db, env, batch), env, batch)
    ensures UpToDate(Execute(db, env, batch).entities, env.tenant, batch)
  {
    FoldObservations(Tally(db, 0, 0, []), env, batch);
    FoldEntities(Tally(db, 0, 0, []), env, batch);
    EntityFoldUpToDate(db.entities, env.tenant, batch);
  }

  /** Executing the same normalized batch twice in a row is as executing it once, plus those two traces. */
  lemma ReplayIdempotent(db: Db, env: Env, again: Env, batch: seq<Observation>)
    requires again.tenant == env.tenant
    ensures var once := Execute(db, env, batch);
            Execute(once, again, batch) == Noted(once, again, |batch|)
  {
    var once := Execute(db, env, batch);
    ExecuteSettles(db, env, batch);
    assert Covered(once, again, batch);
    StaleReplay(once, again, batch);
  }

  datatype Job = Job(env: Env, batch: seq<Observation>)

  function ExecuteAll(db: Db, jobs: seq<Job>): Db {
    if jobs == [] then db
    else Execute(ExecuteAll(db, jobs[..|jobs| - 1]), jobs[|jobs| - 1].env, jobs[|jobs| - 1].batch)
  }

  lemma {:induction false} ExecuteAllKeepsObservations(db: Db, jobs: seq<Job>)
    ensures forall k :: k in db.observations ==>
              k in ExecuteAll(db, jobs).observations && ExecuteAll(db, jobs).observations[k] == db.observations[k]
  {
    if jobs == [] {
    } else {
      var init, job := jobs[..|jobs| - 1], jobs[|jobs| - 1];
      ExecuteAllKeepsObservations(db, init);
      FoldObservations(Tally(ExecuteAll(db, init), 0, 0, []), job.env, job.batch);
    }
  }

  /**
   A batch replayed later, after any other executions of any tenants, still changes no observation,
   geofence state, alert or delivery.
   */
  lemma LateReplay(db: Db, env: Env, batch: seq<Observation>, between: seq<Job>, again: Env)
    requires again.tenant == env.tenant
    ensures var later := ExecuteAll(Execute(db, env, batch), between);
            && Execute(later, again, batch) == Noted(later.(entities := EntityFold(later.entities, env.tenant, batch)), again, |batch|)
            && (Execute(later, again, batch) == Noted(later, again, |batch|) <==> UpToDate(later.entities, env.tenant, batch))
  {
    var once := Execute(db, env, batch);
    FoldObservations(Tally(db, 0, 0, []), env, batch);
    ExecuteAllKeepsObservations(once, between);
    assert Covered(ExecuteAll(once, between), again, batch);
    StaleReplay(ExecuteAll(once, between), again, batch);
  }

  // ---------------------------------------------------------------- any list of executions, with repeats

  /** What executions derive from fresh observations: all tables but the entities, the run log and the outbox. */
  function Core(db: Db): Db { db.(entities := map[], runs := [], outbox := []) }

  ghost predicate SameButOutbox(p: Geofencing.Progress, q: Geofencing.Progress) {
    p.(outbox := []) == q.(outbox := [])
  }

  lemma {:induction false} EnterFoldOutbox(p: Geofencing.Progress, q: Geofencing.Progress, s: Geofencing.Sighting, ids: seq<nat>)
    requires SameButOutbox(p, q)
    ensures SameButOutbox(Geofencing.EnterFold(p, s, ids), Geofencing.EnterFold(q, s, ids))
  {
    if ids == [] {
    } else {
      EnterFoldOutbox(p, q, s, ids[..|ids| - 1]);
    }
  }

  lemma {:induction false} ExitFoldOutbox(p: Geofencing.Progress, q: Geofencing.Progress, s: Geofencing.Sighting, keys: seq<StateKey>)
    requires SameButOutbox(p, q)
    ensures SameButOutbox(Geofencing.ExitFold(p, s, keys), Geofencing.ExitFold(q, s, keys))
  {
    if keys == [] {
    } else {
      ExitFoldOutbox(p, q, s, keys[..|keys| - 1]);
    }
  }

  /** `p` and `q` are `a` and `b` with the same messages appended. */
  ghost predicate SameGain(a: seq<OutboxMessage>, p: seq<OutboxMessage>, b: seq<OutboxMessage>, q: seq<OutboxMessage>) {
    && |a| <= |p| && p[..|a|] == a && |b| <= |q| && q[..|b|] == b
    && p[|a|..] == q[|b|..]
  }

  lemma GainMore(a: seq<OutboxMessage>, p: seq<OutboxMessage>, b: seq<OutboxMessage>, q: seq<OutboxMessage>, more: seq<OutboxMessage>)
    requires SameGain(a, p, b, q)
    ensures SameGain(a, p + more, b, q + more)
  {
    assert (p + more)[|a|..] == p[|a|..] + more && (q + more)[|b|..] == q[|b|..] + more;
  }

  /** `p` and `q` are derived tables alike, and messages appended alike. */
  ghost predicate Alike(p: Db, q: Db, a: Db, b: Db) {
    Core(p) == Core(q) && SameGain(a.outbox, p.outbox, b.outbox, q.outbox)
  }

  lemma CoreEvaluate(p: Db, q: Db, a: Db, b: Db, env: Env, o: Observation, position: Position, fault: Option<Fault>)
    requires Alike(p, q, a, b)
    ensures Alike(Ingestion.Evaluate(p, env, o, position, fault), Ingestion.Evaluate(q, env, o, position, fault), a, b)
  {
    var s := Geofencing.SightingOf(env.world, env.tenant, o.entityId, position, o.observedAt, None, env.now);
    var x := Geofencing.Progress(p.states, p.stateOrder, p.outbox, []);
    var y := Geofencing.Progress(q.states, q.stateOrder, q.outbox, []);
    assert Core(p).states == Core(q).states && Core(p).stateOrder == Core(q).stateOrder;
    assert Core(p).alerts == Core(q).alerts && Core(p).deliveries == Core(q).deliveries;
    EnterFoldOutbox(x, y, s, s.ids);
    ExitFoldOutbox(Geofencing.EnterFold(x, s, s.ids), Geofencing.EnterFold(y, s, s.ids), s,
                   Geofencing.Concerning(x.order, s.tenant, s.entity));
    GeofenceHistory.EvaluateAnnounced(p.outbox, x, s);
    GeofenceHistory.EvaluateAnnounced(q.outbox, y, s);
    var events := Geofencing.Evaluate(x, s).events;
    GainMore(a.outbox, p.outbox, b.outbox, q.outbox, GeofenceHistory.Messages(events));
    GainMore(a.outbox, p.outbox + GeofenceHistory.Messages(events), b.outbox, q.outbox + GeofenceHistory.Messages(events),
             Retry(env.tenant, events, fault));
  }

  ghost predicate SameCore(t: Tally, u: Tally, a: Db, b: Db) {
    Alike(t.db, u.db, a, b) && t.seen == u.seen && t.inserted == u.inserted && t.rows == u.rows
  }

  lemma CoreDerive(p: Db, q: Db, a: Db, b: Db, env: Env, o: Observation, fault: Option<Fault>)
    requires Alike(p, q, a, b)
    ensures Alike(Derive(p, env, o, fault), Derive(q, env, o, fault), a, b)
  {
    if o.position.Some? {
      CoreEvaluate(p, q, a, b, env, o, o.position.value, fault);
      GainMore(a.outbox, Ingestion.Evaluate(p, env, o, o.position.value, fault).outbox,
               b.outbox, Ingestion.Evaluate(q, env, o, o.position.value, fault).outbox, Findings(env.tenant, env.world.detect(o)));
    } else {
      GainMore(a.outbox, p.outbox, b.outbox, q.outbox, Findings(env.tenant, env.world.detect(o)));
    }
  }

  lemma CoreStep(t: Tally, u: Tally, a: Db, b: Db, env: Env, o: Observation)
    requires SameCore(t, u, a, b)
    ensures SameCore(Step(t, env, o), Step(u, env, o), a, b)
  {
    assert Core(t.db).observations == Core(u.db).observations;
    if Key(env, o) !in t.db.observations {
      CoreDerive(Recorded(t.db, env, o), Recorded(u.db, env, o), a, b, env, o, Lookup(env.faults, t.seen));
    }
  }

  lemma {:induction false} CoreFold(t: Tally, u: Tally, a: Db, b: Db, env: Env, batch: seq<Observation>)
    requires SameCore(t, u, a, b)
    ensures SameCore(Fold(t, env, batch), Fold(u, env, batch), a, b)
  {
    if batch == [] {
    } else {
      CoreFold(t, u, a, b, env, batch[..|batch| - 1]);
      CoreStep(Fold(t, env, batch[..|batch| - 1]), Fold(u, env, batch[..|batch| - 1]), a, b, env, batch[|batch| - 1]);
    }
  }

  /** Executions read no entity, run or message: equal derived tables lead to equal derived tables, and to the
      same messages enqueued. */
  lemma CoreExecute(a: Db, b: Db, env: Env, batch: seq<Observation>)
    requires Core(a) == Core(b)
    ensures Alike(Execute(a, env, batch), Execute(b, env, batch), a, b)
  {
    var t, u := Tally(a, 0, 0, []), Tally(b, 0, 0, []);
    CoreFold(t, u, a, b, env, batch);
    var f, g := Fold(t, env, batch), Fold(u, env, batch);
    var done := [NewMessage(env.tenant, Completed(env.source, f.inserted, env.jobType))];
    var more := if env.analyticsEnabled && f.rows != [] then [NewMessage(env.tenant, Analytics(env.tenant, f.rows))] else [];
    GainMore(a.outbox, f.db.outbox, b.outbox, g.db.outbox, done);
    GainMore(a.outbox, f.db.outbox + done, b.outbox, g.db.outbox + done, more);
  }

  /** Every message but the completion notices. */
  predicate Lasts(m: OutboxMessage) { !m.payload.Completed? }

  function Lasting(messages: seq<OutboxMessage>): seq<OutboxMessage> { Filter(messages, Lasts) }

  lemma LastingGain(a: seq<OutboxMessage>, p: seq<OutboxMessage>, b: seq<OutboxMessage>, q: seq<OutboxMessage>)
    requires SameGain(a, p, b, q) && Lasting(a) == Lasting(b)
    ensures Lasting(p) == Lasting(q)
  {
    assert p == a + p[|a|..] && q == b + q[|b|..];
    FilterAppend(a, p[|a|..], Lasts);
    FilterAppend(b, q[|b|..], Lasts);
  }

  predicate SameWork(a: Job, b: Job) { a.env.tenant == b.env.tenant && a.batch == b.batch }

  predicate Repeats(jobs: seq<Job>, job: Job) {
    exists i :: 0 <= i < |jobs| && SameWork(jobs[i], job)
  }

  /** The jobs that repeat none before them. */
  function Firsts(jobs: seq<Job>): seq<Job> {
    if jobs == [] then []
    else
      var init, job := jobs[..|jobs| - 1], jobs[|jobs| - 1];
      Firsts(init) + if Repeats(init, job) then [] else [job]
  }

  lemma StaysCovered(db: Db, jobs: seq<Job>, env: Env, batch: seq<Observation>)
    requires Covered(db, env, batch)
    ensures Covered(ExecuteAll(db, jobs), env, batch)
  {
    ExecuteAllKeepsObservations(db, jobs);
  }

  lemma {:induction false} RepeatCovered(db: Db, jobs: seq<Job>, job: Job)
    requires Repeats(jobs, job)
    ensures Covered(ExecuteAll(db, jobs), job.env, job.batch)
  {
    var init, last := jobs[..|jobs| - 1], jobs[|jobs| - 1];
    if SameWork(last, job) {
      ExecuteSettles(ExecuteAll(db, init), last.env, last.batch);
      assert Covered(ExecuteAll(db, jobs), job.env, job.batch);
    } else {
      var i :| 0 <= i < |jobs| && SameWork(jobs[i], job);
      assert init[i] == jobs[i];
      RepeatCovered(db, init, job);
      StaysCovered(ExecuteAll(db, init), [last], job.env, job.batch);
      assert [last][..0] == [];
      assert ExecuteAll(ExecuteAll(db, init), []) == ExecuteAll(db, init);
    }
  }

  lemma ExecuteAddsRun(db: Db, env: Env, batch: seq<Observation>)
    ensures |Execute(db, env, batch).runs| == |db.runs| + 1
  {
    FoldObservations(Tally(db, 0, 0, []), env, batch);
  }

  lemma {:induction false} RunsCount(db: Db, jobs: seq<Job>)
    ensures |ExecuteAll(db, jobs).runs| == |db.runs| + |jobs|
  {
    if jobs == [] {
    } else {
      RunsCount(db, jobs[..|jobs| - 1]);
      ExecuteAddsRun(ExecuteAll(db, jobs[..|jobs| - 1]), jobs[|jobs| - 1].env, jobs[|jobs| - 1].batch);
    }
  }

  lemma CoreOfRepeat(db: Db, jobs: seq<Job>, job: Job)
    requires Repeats(jobs, job)
    ensures Core(Execute(ExecuteAll(db, jobs), job.env, job.batch)) == Core(ExecuteAll(db, jobs))
    ensures Lasting(Execute(ExecuteAll(db, jobs), job.env, job.batch).outbox) == Lasting(ExecuteAll(db, jobs).outbox)
  {
    RepeatCovered(db, jobs, job);
    StaleReplay(ExecuteAll(db, jobs), job.env, job.batch);
    var notice := [NewMessage(job.env.tenant, Completed(job.env.source, 0, job.env.jobType))];
    FilterAppend(ExecuteAll(db, jobs).outbox, notice, Lasts);
    assert notice[..0] == [];
    assert Lasting(notice) == [];
  }

  lemma FirstsAppend(jobs: seq<Job>, job: Job)
    ensures Firsts(jobs + [job]) == if Repeats(jobs, job) then Firsts(jobs) else Firsts(jobs) + [job]
  {
    assert (jobs + [job])[..|jobs|] == jobs;
    assert Firsts(jobs) + [] == Firsts(jobs);
  }

  lemma ExecuteAllAppend(db: Db, jobs: seq<Job>, job: Job)
    ensures ExecuteAll(db, jobs + [job]) == Execute(ExecuteAll(db, jobs), job.env, job.batch)
  {
    assert (jobs + [job])[..|jobs|] == jobs;
  }

  /**
   Any list of executions, of any tenants and batches, repeated in any order: the derived tables, and
   the messages in the outbox but for completion notices, are those of executing each piece of work
   once, at its first occurrence.
   */
  lemma {:induction false} RepeatsChangeNothing(db: Db, jobs: seq<Job>)
    ensures Core(ExecuteAll(db, jobs)) == Core(ExecuteAll(db, Firsts(jobs)))
    ensures Lasting(ExecuteAll(db, jobs).outbox) == Lasting(ExecuteAll(db, Firsts(jobs)).outbox)
  {
    if jobs == [] {
    } else {
      var init, job := jobs[..|jobs| - 1], jobs[|jobs| - 1];
      assert jobs == init + [job];
      RepeatsChangeNothing(db, init);
      FirstsAppend(init, job);
      ExecuteAllAppend(db, init, job);
      if Repeats(init, job) {
        CoreOfRepeat(db, init, job);
      } else {
        var a, b := ExecuteAll(db, init), ExecuteAll(db, Firsts(init));
        CoreExecute(a, b, job.env, job.batch);
        LastingGain(a.outbox, Execute(a, job.env, job.batch).outbox, b.outbox, Execute(b, job.env, job.batch).outbox);
        ExecuteAllAppend(db, Firsts(init), job);
      }
    }
  }

  lemma EntityFoldOne(entities: map<EntityKey, Entity>, tenant: string, o: Observation)
    ensures EntityFold(entities, tenant, [o]) == UpsertEntity(entities, tenant, o)
  {
    assert [o][..|[o]| - 1] == [];
  }

  /** Only the entity table can tell: an attribute overwritten in between is put back by the replay. */
  lemma LateReplayRevertsAttributes(entities: map<EntityKey, Entity>, tenant: string, o: Observation, newer: Observation, name: string)
    requires o.entityId == newer.entityId && name in o.attributes && name in newer.attributes
    requires o.attributes[name] != newer.attributes[name]
    ensures var k := EntityKey(tenant, o.entityId);
            var later := EntityFold(EntityFold(entities, tenant, [o]), tenant, [newer]);
            var replayed := EntityFold(later, tenant, [o]);
            && later[k].properties.Some? && replayed[k].properties.Some?
            && name in later[k].properties.value && later[k].properties.value[name] == newer.attributes[name]
            && name in replayed[k].properties.value && replayed[k].properties.value[name] == o.attributes[name]
            && replayed[k].lastSeen == later[k].lastSeen
  {
    EntityFoldOne(entities, tenant, o);
    EntityFoldOne(EntityFold(entities, tenant, [o]), tenant, newer);
    EntityFoldOne(EntityFold(EntityFold(entities, tenant, [o]), tenant, [newer]), tenant, o);
  }
}
