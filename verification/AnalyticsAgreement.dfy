/** Whatever is repeated, failed or crashed: once drained, the analytics store holds the observation table's image. */
module AnalyticsAgreement {
  import opened Wrappers
  import opened Database
  import opened Ingestion
  import Analytics
  import Outbox
  import OutboxLaws
  import Geofencing

  datatype System = System(db: Db, stream: seq<nat>, warehouse: seq<string>)
  {
    function Relay(): Outbox.Relay { Outbox.Relay(db.outbox, stream, warehouse) }
  }

  datatype Action =
    | Ingest(env: Env, batch: seq<Observation>)
    | Dispatch(limit: nat, effects: nat -> Outbox.Effect, now: Time, crash: Option<nat>)

  function Perform(s: System, sink: Analytics.Sink, a: Action): System {
    match a
    case Ingest(env, batch) => s.(db := Execute(s.db, env, batch))
    case Dispatch(limit, effects, now, crash) =>
      var r := Outbox.Batch(s.Relay(), sink, limit, effects, now, crash);
      System(s.db.(outbox := r.messages), r.stream, r.warehouse)
  }

  function Run(s: System, sink: Analytics.Sink, actions: seq<Action>): System {
    if actions == [] then s
    else Perform(Run(s, sink, actions[..|actions| - 1]), sink, actions[|actions| - 1])
  }

  /** Analytics is switched on at every ingestion. */
  ghost predicate Enabled(actions: seq<Action>) {
    forall i :: 0 <= i < |actions| && actions[i].Ingest? ==> actions[i].env.analyticsEnabled
  }

  predicate Positioned(db: Db, k: ObservationKey) {
    k in db.observations && db.observations[k].position.Some?
  }

  /** The ids of the positioned observations ever inserted. */
  ghost function Image(hash: string -> string, db: Db): set<string> {
    set k | k in db.observations && Positioned(db, k) :: Analytics.Identity(hash, k)
  }

  // ---------------------------------------------------------------- the invariant

  /** Row `j` of outbox message `i` carries the observation `k`. */
  predicate Carries(m: OutboxMessage, j: nat, k: ObservationKey) {
    m.payload.Analytics? && j < |m.payload.rows| && Analytics.RowKey(m.payload.rowsTenant, m.payload.rows[j]) == k
    && m.payload.rows[j].position.Some?
  }

  ghost predicate Queued(messages: seq<OutboxMessage>, k: ObservationKey) {
    exists i: nat, j: nat :: i < |messages| && messages[i].publishedAt.None? && Carries(messages[i], j, k)
  }

  ghost predicate RowsKnown(db: Db) {
    forall i: nat, j: nat, k :: i < |db.outbox| && Carries(db.outbox[i], j, k) ==> Positioned(db, k)
  }

  ghost predicate Accounted(s: System, sink: Analytics.Sink) {
    var hash := sink.hash;
    && OutboxLaws.MarkedHaveLeft(s.Relay(), sink)
    && RowsKnown(s.db)
    && (forall id :: id in s.warehouse ==> id in Image(hash, s.db))
    && (forall k :: Positioned(s.db, k) ==> Analytics.Identity(hash, k) in s.warehouse || Queued(s.db.outbox, k))
  }

  // ---------------------------------------------------------------- ingestion

  /** What a transaction adds to the outbox before its closing messages: nothing for analytics, no completion. */
  ghost predicate Grows(before: seq<OutboxMessage>, after: seq<OutboxMessage>) {
    && |before| <= |after|
    && (forall i :: 0 <= i < |before| ==> after[i] == before[i])
    && (forall i :: |before| <= i < |after| ==>
          after[i].publishedAt.None? && !after[i].payload.Analytics? && !after[i].payload.Completed?)
  }

  lemma {:induction false} EnterFoldGrows(base: seq<OutboxMessage>, p: Geofencing.Progress, s: Geofencing.Sighting, ids: seq<nat>)
    requires Grows(base, p.outbox)
    ensures Grows(base, Geofencing.EnterFold(p, s, ids).outbox)
  {
    if ids == [] {
    } else {
      EnterFoldGrows(base, p, s, ids[..|ids| - 1]);
    }
  }

  lemma {:induction false} ExitFoldGrows(base: seq<OutboxMessage>, p: Geofencing.Progress, s: Geofencing.Sighting, keys: seq<StateKey>)
    requires Grows(base, p.outbox)
    ensures Grows(base, Geofencing.ExitFold(p, s, keys).outbox)
  {
    if keys == [] {
    } else {
      ExitFoldGrows(base, p, s, keys[..|keys| - 1]);
    }
  }

  lemma {:induction false} FindingsGrow(base: seq<OutboxMessage>, outbox: seq<OutboxMessage>, tenant: string, findings: seq<string>)
    requires Grows(base, outbox)
    ensures Grows(base, outbox + Findings(tenant, findings))
  {
    if findings == [] {
    } else {
      var init, last := findings[..|findings| - 1], NewMessage(tenant, Correlation(findings[|findings| - 1]));
      FindingsGrow(base, outbox, tenant, init);
      assert outbox + Findings(tenant, findings) == (outbox + Findings(tenant, init)) + [last];
    }
  }

  lemma DeriveGrows(base: seq<OutboxMessage>, db: Db, env: Env, o: Observation, fault: Option<Fault>)
    requires Grows(base, db.outbox)
    ensures Grows(base, Derive(db, env, o, fault).outbox)
    ensures Derive(db, env, o, fault).observations == db.observations
  {
    if o.position.Some? {
      var s := Geofencing.SightingOf(env.world, env.tenant, o.entityId, o.position.value, o.observedAt, None, env.now);
      var p := Geofencing.Progress(db.states, db.stateOrder, db.outbox, []);
      EnterFoldGrows(base, p, s, s.ids);
      ExitFoldGrows(base, Geofencing.EnterFold(p, s, s.ids), s, Geofencing.Concerning(p.order, s.tenant, s.entity));
      FindingsGrow(base, Evaluate(db, env, o, o.position.value, fault).outbox, env.tenant, env.world.detect(o));
    } else {
      FindingsGrow(base, db.outbox, env.tenant, env.world.detect(o));
    }
  }

  /** The rows collected are exactly the fresh observations. */
  ghost predicate RowsMatch(before: Db, t: Tally, tenant: string) {
    && Grows(before.outbox, t.db.outbox)
    && (forall j :: 0 <= j < |t.rows| ==>
          var k := Analytics.RowKey(tenant, t.rows[j]);
          k in t.db.observations && t.db.observations[k].position == t.rows[j].position)
    && (forall k :: k in t.db.observations && k !in before.observations ==>
          exists j :: 0 <= j < |t.rows| && Analytics.RowKey(tenant, t.rows[j]) == k)
    && (forall k :: k in before.observations ==> k in t.db.observations && t.db.observations[k] == before.observations[k])
  }

  lemma RowsMatchStep(before: Db, t: Tally, u: Tally, env: Env, o: Observation)
    requires RowsMatch(before, t, env.tenant) && Grows(before.outbox, u.db.outbox)
    requires if Key(env, o) in t.db.observations
             then u.rows == t.rows && u.db.observations == t.db.observations
             else u.rows == t.rows + [RowOf(o)] && u.db.observations == t.db.observations[Key(env, o) := o]
    ensures RowsMatch(before, u, env.tenant)
  {
    forall k | k in u.db.observations && k !in before.observations
      ensures exists j :: 0 <= j < |u.rows| && Analytics.RowKey(env.tenant, u.rows[j]) == k
    {
      if k in t.db.observations {
        var j :| 0 <= j < |t.rows| && Analytics.RowKey(env.tenant, t.rows[j]) == k;
        assert u.rows[j] == t.rows[j];
      } else {
        assert Analytics.RowKey(env.tenant, u.rows[|t.rows|]) == k;
      }
    }
  }

  lemma {:induction false} FoldRowsMatch(db: Db, env: Env, batch: seq<Observation>)
    ensures RowsMatch(db, Fold(Tally(db, 0, 0, []), env, batch), env.tenant)
  {
    if batch == [] {
    } else {
      var init, o := batch[..|batch| - 1], batch[|batch| - 1];
      FoldRowsMatch(db, env, init);
      var t := Fold(Tally(db, 0, 0, []), env, init);
      if Key(env, o) !in t.db.observations {
        var inserted := t.db.(entities := UpsertEntity(t.db.entities, env.tenant, o), observations := t.db.observations[Key(env, o) := o]);
        DeriveGrows(db.outbox, inserted, env, o, Lookup(env.faults, t.seen));
      }
      RowsMatchStep(db, t, Step(t, env, o), env, o);
    }
  }

  /** The outbox of a finished ingestion: what it had, other messages, the completion, then the rows if any. */
  ghost predicate Finished(before: Db, t: Tally, after: Db, tenant: string) {
    && after.observations == t.db.observations
    && |after.outbox| >= |t.db.outbox| + 1
    && Grows(before.outbox, after.outbox[..|t.db.outbox|])
    && after.outbox[|t.db.outbox|].publishedAt.None? && after.outbox[|t.db.outbox|].payload.Completed?
    && (if t.rows == [] then |after.outbox| == |t.db.outbox| + 1
        else |after.outbox| == |t.db.outbox| + 2
             && after.outbox[|after.outbox| - 1] == NewMessage(tenant, Payload.Analytics(tenant, t.rows)))
  }

  lemma IngestAccounted(s: System, sink: Analytics.Sink, t: Tally, after: Db, tenant: string)
    requires Accounted(s, sink)
    requires RowsMatch(s.db, t, tenant) && Finished(s.db, t, after, tenant)
    ensures Accounted(s.(db := after), sink)
  {
    var n := |t.db.outbox|;
    assert forall i :: 0 <= i < n ==> after.outbox[..n][i] == after.outbox[i];
    assert forall i :: 0 <= i < |s.db.outbox| ==> after.outbox[i] == s.db.outbox[i];
    forall i: nat, j: nat, k | i < |after.outbox| && Carries(after.outbox[i], j, k)
      ensures Positioned(after, k)
    {
      if i < |s.db.outbox| {
        assert Carries(s.db.outbox[i], j, k);
      }
    }
    forall k | Positioned(after, k)
      ensures Analytics.Identity(sink.hash, k) in s.warehouse || Queued(after.outbox, k)
    {
      if Positioned(s.db, k) {
        if Analytics.Identity(sink.hash, k) !in s.warehouse {
          var i: nat, j: nat :| i < |s.db.outbox| && s.db.outbox[i].publishedAt.None? && Carries(s.db.outbox[i], j, k);
          assert Carries(after.outbox[i], j, k);
        }
      } else {
        assert k !in s.db.observations;
        var j :| 0 <= j < |t.rows| && Analytics.RowKey(tenant, t.rows[j]) == k;
        assert Carries(after.outbox[|after.outbox| - 1], j, k);
      }
    }
    forall id | id in s.warehouse
      ensures id in Image(sink.hash, after)
    {
      var k :| k in s.db.observations && Positioned(s.db, k) && Analytics.Identity(sink.hash, k) == id;
      assert Positioned(after, k);
    }
  }

  lemma IngestKeeps(s: System, sink: Analytics.Sink, env: Env, batch: seq<Observation>)
    requires Accounted(s, sink) && env.analyticsEnabled
    ensures Accounted(s.(db := Execute(s.db, env, batch)), sink)
  {
    var t := Fold(Tally(s.db, 0, 0, []), env, batch);
    FoldRowsMatch(s.db, env, batch);
    assert Execute(s.db, env, batch).outbox[..|t.db.outbox|] == t.db.outbox;
    IngestAccounted(s, sink, t, Execute(s.db, env, batch), env.tenant);
  }

  // ---------------------------------------------------------------- dispatch

  lemma {:induction false} ProcessAllWarehouse(r: Outbox.Relay, sink: Analytics.Sink, ids: seq<nat>, effects: nat -> Outbox.Effect,
                                               now: Time, id: string)
    requires id in Outbox.ProcessAll(r, sink, ids, effects, now).warehouse
    ensures id in r.warehouse
            || exists i: nat :: i < |r.messages| && id in Outbox.Ids(sink, r.messages[i])
  {
    if ids == [] {
    } else {
      var init, last := ids[..|ids| - 1], ids[|ids| - 1];
      var mid := Outbox.ProcessAll(r, sink, init, effects, now);
      ProcessAllPayloads(r, sink, init, effects, now);
      if id in mid.warehouse {
        ProcessAllWarehouse(r, sink, init, effects, now, id);
      } else {
        assert id in Outbox.Ids(sink, mid.messages[last]);
        assert id in Outbox.Ids(sink, r.messages[last]);
      }
    }
  }

  lemma {:induction false} ProcessAllPayloads(r: Outbox.Relay, sink: Analytics.Sink, ids: seq<nat>, effects: nat -> Outbox.Effect, now: Time)
    ensures var q := Outbox.ProcessAll(r, sink, ids, effects, now);
            |q.messages| == |r.messages| && forall i :: 0 <= i < |r.messages| ==> q.messages[i].payload == r.messages[i].payload
  {
    if ids == [] {
    } else {
      ProcessAllPayloads(r, sink, ids[..|ids| - 1], effects, now);
    }
  }

  lemma DispatchKeeps(s: System, sink: Analytics.Sink, limit: nat, effects: nat -> Outbox.Effect, now: Time, crash: Option<nat>)
    requires Accounted(s, sink) && sink.enabled
    ensures Accounted(Perform(s, sink, Dispatch(limit, effects, now, crash)), sink)
  {
    var r := s.Relay();
    var q := Outbox.Batch(r, sink, limit, effects, now, crash);
    var after := Perform(s, sink, Dispatch(limit, effects, now, crash));
    OutboxLaws.BatchKeeps(r, sink, limit, effects, now, crash);
    assert after.Relay() == q;
    BatchPayloads(r, sink, limit, effects, now, crash);
    forall i: nat, j: nat, k | i < |after.db.outbox| && Carries(after.db.outbox[i], j, k)
      ensures Positioned(after.db, k)
    {
      assert Carries(s.db.outbox[i], j, k);
    }
    forall id | id in q.warehouse
      ensures id in Image(sink.hash, after.db)
    {
      BatchWarehouse(s, sink, limit, effects, now, crash, id);
    }
    forall k | Positioned(after.db, k)
      ensures Analytics.Identity(sink.hash, k) in q.warehouse || Queued(q.messages, k)
    {
      if Analytics.Identity(sink.hash, k) !in s.warehouse {
        var i: nat, j: nat :| i < |s.db.outbox| && s.db.outbox[i].publishedAt.None? && Carries(s.db.outbox[i], j, k);
        assert Carries(q.messages[i], j, k);
        if q.messages[i].publishedAt.Some? {
          var m := q.messages[i];
          Analytics.IdentitiesMembers(sink.hash, m.payload.rowsTenant, m.payload.rows, Analytics.Identity(sink.hash, k));
          assert OutboxLaws.Left(q, sink, i);
        }
      }
    }
  }

  lemma BatchPayloads(r: Outbox.Relay, sink: Analytics.Sink, limit: nat, effects: nat -> Outbox.Effect, now: Time, crash: Option<nat>)
    ensures var q := Outbox.Batch(r, sink, limit, effects, now, crash);
            |q.messages| == |r.messages| && forall i :: 0 <= i < |r.messages| ==> q.messages[i].payload == r.messages[i].payload
  {
    ProcessAllPayloads(r, sink, Outbox.Claim(r.messages, limit), effects, now);
  }

  /** Every id a batch writes is the id of a positioned observation. */
  lemma BatchWarehouse(s: System, sink: Analytics.Sink, limit: nat, effects: nat -> Outbox.Effect, now: Time, crash: Option<nat>, id: string)
    requires Accounted(s, sink) && id in Outbox.Batch(s.Relay(), sink, limit, effects, now, crash).warehouse
    ensures id in Image(sink.hash, s.db)
  {
    var r := s.Relay();
    var ids := Outbox.Claim(r.messages, limit);
    var n := if crash.Some? && crash.value <= |ids| then crash.value else |ids|;
    assert ids[..|ids|] == ids;
    ProcessAllWarehouse(r, sink, ids[..n], effects, now, id);
    if id !in r.warehouse {
      var i: nat :| i < |r.messages| && id in Outbox.Ids(sink, r.messages[i]);
      var m := r.messages[i];
      Analytics.IdentitiesMembers(sink.hash, m.payload.rowsTenant, m.payload.rows, id);
      var j :| 0 <= j < |m.payload.rows| && m.payload.rows[j].position.Some?
               && id == Analytics.Identity(sink.hash, Analytics.RowKey(m.payload.rowsTenant, m.payload.rows[j]));
      assert Carries(s.db.outbox[i], j, Analytics.RowKey(m.payload.rowsTenant, m.payload.rows[j]));
    }
  }

  // ---------------------------------------------------------------- agreement

  lemma {:induction false} RunAccounted(s: System, sink: Analytics.Sink, actions: seq<Action>)
    requires sink.enabled && Accounted(s, sink) && Enabled(actions)
    ensures Accounted(Run(s, sink, actions), sink)
  {
    if actions == [] {
    } else {
      var init, a := actions[..|actions| - 1], actions[|actions| - 1];
      assert Enabled(init) by {
        assert forall i :: 0 <= i < |init| ==> init[i] == actions[i];
      }
      RunAccounted(s, sink, init);
      match a
      case Ingest(env, batch) => IngestKeeps(Run(s, sink, init), sink, env, batch);
      case Dispatch(limit, effects, now, crash) => DispatchKeeps(Run(s, sink, init), sink, limit, effects, now, crash);
    }
  }

  predicate NoAnalyticsPending(db: Db) {
    forall i :: 0 <= i < |db.outbox| && db.outbox[i].payload.Analytics? ==> db.outbox[i].publishedAt.Some?
  }

  const EMPTY_DB := Db(map[], map[], map[], [], [], [], [], [])

  /**
   Over any run of ingestions and dispatcher batches, repeated, failing or crashing, the ids in the
   analytics log are always ids of positioned observations; and whenever no analytics message is
   pending, they are the ids of all of them.
   */
  lemma AnalyticsAgrees(sink: Analytics.Sink, actions: seq<Action>)
    requires sink.enabled && Enabled(actions)
    ensures var s := Run(System(EMPTY_DB, [], []), sink, actions);
            && (forall id :: id in s.warehouse ==> id in Image(sink.hash, s.db))
            && (NoAnalyticsPending(s.db) ==> (set id | id in s.warehouse) == Image(sink.hash, s.db))
  {
    var start := System(EMPTY_DB, [], []);
    RunAccounted(start, sink, actions);
    var s := Run(start, sink, actions);
    if NoAnalyticsPending(s.db) {
      forall id | id in Image(sink.hash, s.db)
        ensures id in s.warehouse
      {
        var k :| k in s.db.observations && Positioned(s.db, k) && Analytics.Identity(sink.hash, k) == id;
        assert !Queued(s.db.outbox, k);
      }
    }
  }

  // ---------------------------------------------------------------- counting by identity

  ghost function PositionedKeys(db: Db): set<ObservationKey> {
    set k | k in db.observations && Positioned(db, k)
  }

  ghost function Ids(hash: string -> string, keys: set<ObservationKey>): set<string> {
    set k | k in keys :: Analytics.Identity(hash, k)
  }

  lemma {:induction false} IdsCount(hash: string -> string, keys: set<ObservationKey>)
    ensures |Ids(hash, keys)| <= |keys|
    ensures |Ids(hash, keys)| == |keys| <==>
              forall a, b :: a in keys && b in keys && Analytics.Identity(hash, a) == Analytics.Identity(hash, b) ==> a == b
    decreases |keys|
  {
    if keys == {} {
      assert Ids(hash, keys) == {};
    } else {
      var k :| k in keys;
      var rest, id := keys - {k}, Analytics.Identity(hash, k);
      IdsCount(hash, rest);
      assert Ids(hash, keys) == Ids(hash, rest) + {id};
      if id in Ids(hash, rest) {
        var b :| b in rest && Analytics.Identity(hash, b) == id;
        assert Ids(hash, keys) == Ids(hash, rest);
      }
    }
  }

  /**
   Counting distinct ids counts the positioned observations exactly when no two of them share
   tenant, source, entity and millisecond: the identity is coarser than the table's unique key.
   */
  lemma CountsAgree(hash: string -> string, db: Db)
    requires Analytics.CollisionFree(hash)
    requires forall k :: k in db.observations ==> Analytics.SeparatorFree(k)
    ensures |Image(hash, db)| == |PositionedKeys(db)| <==>
              forall a, b :: a in PositionedKeys(db) && b in PositionedKeys(db) && Analytics.SameMillisecond(a, b) ==> a == b
  {
    var keys := PositionedKeys(db);
    assert Image(hash, db) == Ids(hash, keys);
    IdsCount(hash, keys);
    forall a, b | a in keys && b in keys
      ensures Analytics.Identity(hash, a) == Analytics.Identity(hash, b) <==> Analytics.SameMillisecond(a, b)
    {
      Analytics.IdentityDistinguishes(hash, a, b);
    }
  }
}
