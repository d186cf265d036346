/** What one execution leaves in the observation and entity tables, the run log and at the end of the outbox. */
module BatchTables {
  import opened Wrappers
  import opened Database
  import opened Ingestion
  import Replay

  // ---------------------------------------------------------------- observations

  /** The observation at `i` is stored: its key is neither in the table nor earlier in the batch. */
  ghost predicate IsNew(db: Db, env: Env, batch: seq<Observation>, i: nat)
    requires i < |batch|
  {
    && ObservationKey(env.tenant, batch[i].sourceId, batch[i].entityId, batch[i].observedAt) !in db.observations
    && forall j :: 0 <= j < i ==>
         !(batch[j].sourceId == batch[i].sourceId && batch[j].entityId == batch[i].entityId && batch[j].observedAt == batch[i].observedAt)
  }

  /** The positions of the new observations, in order. */
  ghost predicate NewOnes(picked: seq<nat>, db: Db, env: Env, batch: seq<Observation>) {
    && (forall m, n :: 0 <= m < n < |picked| ==> picked[m] < picked[n])
    && (forall i: nat :: i in picked ==> i < |batch|)
    && (forall i: nat :: i < |batch| ==> (i in picked <==> IsNew(db, env, batch, i)))
  }

  /** The rows kept for analytics are those of the new observations. */
  ghost predicate RowsOf(rows: seq<AnalyticsRow>, picked: seq<nat>, batch: seq<Observation>) {
    && |rows| == |picked|
    && forall n :: 0 <= n < |picked| ==>
         && picked[n] < |batch|
         && rows[n] == AnalyticsRow(batch[picked[n]].entityId, batch[picked[n]].entityType, batch[picked[n]].sourceId,
                                    batch[picked[n]].observedAt, batch[picked[n]].position)
  }

  /** Old observations stay, new ones are stored as they are, and there are no others. */
  ghost predicate Stores(db: Db, after: map<ObservationKey, Observation>, env: Env, batch: seq<Observation>) {
    && (forall k :: k in db.observations ==> k in after && after[k] == db.observations[k])
    && (forall i: nat :: i < |batch| && IsNew(db, env, batch, i) ==>
          var k := ObservationKey(env.tenant, batch[i].sourceId, batch[i].entityId, batch[i].observedAt);
          k in after && after[k] == batch[i])
    && (forall k :: k in after && k !in db.observations ==>
          exists i :: 0 <= i < |batch| && k == ObservationKey(env.tenant, batch[i].sourceId, batch[i].entityId, batch[i].observedAt))
  }

  /** Whether an observation counts as new does not depend on those after it. */
  lemma NewBefore(db: Db, env: Env, batch: seq<Observation>, n: nat, i: nat)
    requires i < n <= |batch|
    ensures IsNew(db, env, batch[..n], i) <==> IsNew(db, env, batch, i)
  {
    assert forall j :: 0 <= j < i ==> batch[..n][j] == batch[j];
  }

  lemma NewLast(db: Db, env: Env, batch: seq<Observation>)
    requires batch != []
    ensures Key(env, batch[|batch| - 1]) !in Fold(Tally(db, 0, 0, []), env, batch[..|batch| - 1]).db.observations
            <==> IsNew(db, env, batch, |batch| - 1)
  {
    var n, t := |batch| - 1, Tally(db, 0, 0, []);
    var init, k := batch[..n], Key(env, batch[n]);
    Replay.FoldObservations(t, env, init);
    var f := Fold(t, env, init);
    if k in f.db.observations && k !in db.observations {
      assert Replay.From(f.db.observations, k, env, init);
    }
    forall j | 0 <= j < n
      ensures Key(env, batch[j]) in f.db.observations
    {
      assert init[j] == batch[j];
    }
  }

  lemma NewOnesStep(picked: seq<nat>, db: Db, env: Env, batch: seq<Observation>)
    requires batch != [] && NewOnes(picked, db, env, batch[..|batch| - 1])
    ensures NewOnes(picked + if IsNew(db, env, batch, |batch| - 1) then [|batch| - 1] else [], db, env, batch)
  {
    forall i: nat | i < |batch| - 1
      ensures IsNew(db, env, batch[..|batch| - 1], i) <==> IsNew(db, env, batch, i)
    {
      NewBefore(db, env, batch, |batch| - 1, i);
    }
    var more := picked + if IsNew(db, env, batch, |batch| - 1) then [|batch| - 1] else [];
    assert forall m :: 0 <= m < |picked| ==> more[m] == picked[m] && picked[m] in picked;
    assert forall i: nat :: i in more <==> i in picked || (i == |batch| - 1 && IsNew(db, env, batch, |batch| - 1));
  }

  lemma RowsOfStep(rows: seq<AnalyticsRow>, picked: seq<nat>, batch: seq<Observation>)
    requires batch != [] && RowsOf(rows, picked, batch[..|batch| - 1])
    ensures RowsOf(rows, picked, batch) && RowsOf(rows + [RowOf(batch[|batch| - 1])], picked + [|batch| - 1], batch)
  {
  }

  lemma StoresNew(db: Db, before: map<ObservationKey, Observation>, env: Env, batch: seq<Observation>, i: nat)
    requires batch != [] && Stores(db, before, env, batch[..|batch| - 1])
    requires i < |batch| - 1 && IsNew(db, env, batch, i)
    ensures var k := ObservationKey(env.tenant, batch[i].sourceId, batch[i].entityId, batch[i].observedAt);
            k in before && before[k] == batch[i]
  {
    NewBefore(db, env, batch, |batch| - 1, i);
    assert batch[..|batch| - 1][i] == batch[i];
  }

  lemma StoresOnly(db: Db, before: map<ObservationKey, Observation>, env: Env, batch: seq<Observation>, k: ObservationKey)
    requires batch != [] && Stores(db, before, env, batch[..|batch| - 1]) && k in before && k !in db.observations
    ensures exists i :: 0 <= i < |batch| && k == ObservationKey(env.tenant, batch[i].sourceId, batch[i].entityId, batch[i].observedAt)
  {
    var init := batch[..|batch| - 1];
    var i :| 0 <= i < |init| && k == ObservationKey(env.tenant, init[i].sourceId, init[i].entityId, init[i].observedAt);
    assert batch[i] == init[i];
  }

  lemma StoresStep(db: Db, before: map<ObservationKey, Observation>, env: Env, batch: seq<Observation>)
    requires batch != [] && Stores(db, before, env, batch[..|batch| - 1])
    requires Key(env, batch[|batch| - 1]) !in before <==> IsNew(db, env, batch, |batch| - 1)
    ensures Stores(db, if Key(env, batch[|batch| - 1]) in before then before else before[Key(env, batch[|batch| - 1]) := batch[|batch| - 1]],
                   env, batch)
  {
    var n := |batch| - 1;
    var last := Key(env, batch[n]);
    var after := if last in before then before else before[last := batch[n]];
    forall i: nat | i < |batch| && IsNew(db, env, batch, i)
      ensures var k := ObservationKey(env.tenant, batch[i].sourceId, batch[i].entityId, batch[i].observedAt);
              k in after && after[k] == batch[i]
    {
      if i < n {
        StoresNew(db, before, env, batch, i);
      }
    }
    forall k | k in after && k !in db.observations
      ensures exists i :: 0 <= i < |batch| && k == ObservationKey(env.tenant, batch[i].sourceId, batch[i].entityId, batch[i].observedAt)
    {
      if k in before {
        StoresOnly(db, before, env, batch, k);
      } else {
        assert k == ObservationKey(env.tenant, batch[n].sourceId, batch[n].entityId, batch[n].observedAt);
      }
    }
  }

  lemma {:induction false} FoldStores(db: Db, env: Env, batch: seq<Observation>)
    ensures Stores(db, Fold(Tally(db, 0, 0, []), env, batch).db.observations, env, batch)
  {
    if batch == [] {
    } else {
      FoldStores(db, env, batch[..|batch| - 1]);
      NewLast(db, env, batch);
      StoresStep(db, Fold(Tally(db, 0, 0, []), env, batch[..|batch| - 1]).db.observations, env, batch);
    }
  }

  lemma {:induction false} FoldNewOnes(db: Db, env: Env, batch: seq<Observation>) returns (picked: seq<nat>)
    ensures var f := Fold(Tally(db, 0, 0, []), env, batch);
            && NewOnes(picked, db, env, batch) && RowsOf(f.rows, picked, batch)
            && f.seen == |batch| && f.inserted == |picked| && f.db.runs == db.runs
  {
    if batch == [] {
      picked := [];
    } else {
      picked := FoldNewOnes(db, env, batch[..|batch| - 1]);
      NewLast(db, env, batch);
      NewOnesStep(picked, db, env, batch);
      RowsOfStep(Fold(Tally(db, 0, 0, []), env, batch[..|batch| - 1]).rows, picked, batch);
      picked := picked + if IsNew(db, env, batch, |batch| - 1) then [|batch| - 1] else [];
    }
  }

  lemma FinishCloses(f: Tally, env: Env)
    ensures var outbox, n := Finish(f, env).outbox, |f.db.outbox|;
            && n <= |outbox|
            && outbox[n..] == [OutboxMessage(env.tenant, Completed(env.source, f.inserted, env.jobType), 0, None)]
                              + if env.analyticsEnabled && f.rows != []
                                then [OutboxMessage(env.tenant, Analytics(env.tenant, f.rows), 0, None)] else []
  {
  }

  /**
   One execution stores exactly the observations whose key is neither in the table nor earlier in the
   batch.  Their number is in the run row, beside that of all, and in the completion notice; and their
   rows, in order, are in one analytics message exactly when the sink is on and there are any.
   */
  lemma ExecuteStores(db: Db, env: Env, batch: seq<Observation>) returns (picked: seq<nat>, rows: seq<AnalyticsRow>)
    ensures NewOnes(picked, db, env, batch) && RowsOf(rows, picked, batch)
    ensures var after, n := Execute(db, env, batch), |Fold(Tally(db, 0, 0, []), env, batch).db.outbox|;
            && Stores(db, after.observations, env, batch)
            && after.runs == db.runs + [SourceRun(env.tenant, env.source, |batch|, |picked|)]
            && n <= |after.outbox|
            && after.outbox[n..] == [OutboxMessage(env.tenant, Completed(env.source, |picked|, env.jobType), 0, None)]
                                    + if env.analyticsEnabled && picked != []
                                      then [OutboxMessage(env.tenant, Analytics(env.tenant, rows), 0, None)] else []
  {
    picked := FoldNewOnes(db, env, batch);
    FoldStores(db, env, batch);
    rows := Fold(Tally(db, 0, 0, []), env, batch).rows;
    FinishCloses(Fold(Tally(db, 0, 0, []), env, batch), env);
  }

  // ---------------------------------------------------------------- entities

  /** The first observation of the entity, if any. */
  ghost predicate FirstOf(batch: seq<Observation>, id: string, i: nat) {
    i < |batch| && batch[i].entityId == id && forall j :: 0 <= j < i ==> batch[j].entityId != id
  }

  /** The last observation of the entity that writes the attribute. */
  ghost predicate LastWrite(batch: seq<Observation>, id: string, name: string, i: nat) {
    && i < |batch| && batch[i].entityId == id && name in batch[i].attributes
    && forall j :: i < j < |batch| ==> !(batch[j].entityId == id && name in batch[j].attributes)
  }

  ghost predicate Written(batch: seq<Observation>, id: string, name: string) {
    exists i :: 0 <= i < |batch| && batch[i].entityId == id && name in batch[i].attributes
  }

  function PropertiesOf(e: Option<Entity>): map<string, string> {
    if e.Some? then e.value.properties.GetOr(map[]) else map[]
  }

  /** An entity of the batch afterwards: type and first sighting are those of its row or of its first observation. */
  ghost predicate Introduced(e: Option<Entity>, q: Entity, batch: seq<Observation>, id: string) {
    if e.Some? then q.entityType == e.value.entityType && q.firstSeen == e.value.firstSeen
    else exists i: nat :: FirstOf(batch, id, i) && q.entityType == batch[i].entityType && q.firstSeen == Some(batch[i].observedAt)
  }

  /** Its last sighting is the latest of its row's and its observations'. */
  ghost predicate SeenLast(e: Option<Entity>, q: Entity, batch: seq<Observation>, id: string) {
    && q.lastSeen.Some?
    && (e.Some? && e.value.lastSeen.Some? ==> e.value.lastSeen.value <= q.lastSeen.value)
    && (forall i :: 0 <= i < |batch| && batch[i].entityId == id ==> batch[i].observedAt <= q.lastSeen.value)
    && ((e.Some? && e.value.lastSeen == q.lastSeen)
        || exists i :: 0 <= i < |batch| && batch[i].entityId == id && Some(batch[i].observedAt) == q.lastSeen)
  }

  /** Each attribute has the value last written, or, unwritten, the one it had. */
  ghost predicate Attributed(e: Option<Entity>, q: Entity, batch: seq<Observation>, id: string) {
    && (forall name, i: nat :: LastWrite(batch, id, name, i) ==>
          name in PropertiesOf(Some(q)) && PropertiesOf(Some(q))[name] == batch[i].attributes[name])
    && (forall name :: !Written(batch, id, name) ==>
          && (name in PropertiesOf(Some(q)) <==> name in PropertiesOf(e))
          && (name in PropertiesOf(e) ==> PropertiesOf(Some(q))[name] == PropertiesOf(e)[name]))
  }

  /** What a batch makes of an entity's row, without reference to how it is applied. */
  ghost predicate Becomes(e: Option<Entity>, q: Option<Entity>, batch: seq<Observation>, id: string) {
    if Replay.Mentions(batch, id) then
      q.Some? && Introduced(e, q.value, batch, id) && SeenLast(e, q.value, batch, id) && Attributed(e, q.value, batch, id)
    else q == e
  }

  lemma IntroducedStep(e: Option<Entity>, p: Option<Entity>, batch: seq<Observation>, id: string)
    requires batch != [] && batch[|batch| - 1].entityId == id && Becomes(e, p, batch[..|batch| - 1], id)
    ensures Introduced(e, Absorb(p, batch[|batch| - 1]), batch, id)
  {
    var init, n := batch[..|batch| - 1], |batch| - 1;
    assert forall j :: 0 <= j < n ==> init[j] == batch[j];
    if e.None? {
      if Replay.Mentions(init, id) {
        var i: nat :| FirstOf(init, id, i) && p.value.entityType == init[i].entityType && p.value.firstSeen == Some(init[i].observedAt);
        assert FirstOf(batch, id, i);
      } else {
        assert FirstOf(batch, id, n);
      }
    }
  }

  lemma SeenLastStep(e: Option<Entity>, p: Option<Entity>, batch: seq<Observation>, id: string)
    requires batch != [] && batch[|batch| - 1].entityId == id && Becomes(e, p, batch[..|batch| - 1], id)
    ensures SeenLast(e, Absorb(p, batch[|batch| - 1]), batch, id)
  {
    var init, n := batch[..|batch| - 1], |batch| - 1;
    assert forall j :: 0 <= j < n ==> init[j] == batch[j];
    assert !Replay.Mentions(init, id) ==> forall j :: 0 <= j < n ==> batch[j].entityId != id;
    var q := Absorb(p, batch[n]);
    if q.lastSeen != Some(batch[n].observedAt) && !(e.Some? && e.value.lastSeen == q.lastSeen) {
      var i :| 0 <= i < |init| && init[i].entityId == id && Some(init[i].observedAt) == q.lastSeen;
      assert batch[i] == init[i];
    }
  }

  lemma AttributedStep(e: Option<Entity>, p: Option<Entity>, batch: seq<Observation>, id: string)
    requires batch != [] && batch[|batch| - 1].entityId == id && Becomes(e, p, batch[..|batch| - 1], id)
    ensures Attributed(e, Absorb(p, batch[|batch| - 1]), batch, id)
  {
    var init, n := batch[..|batch| - 1], |batch| - 1;
    var o, q := batch[n], Absorb(p, batch[n]);
    assert forall j :: 0 <= j < n ==> init[j] == batch[j];
    assert PropertiesOf(Some(q)) == PropertiesOf(p) + o.attributes;
    forall name, i: nat | LastWrite(batch, id, name, i)
      ensures name in PropertiesOf(Some(q)) && PropertiesOf(Some(q))[name] == batch[i].attributes[name]
    {
      if name !in o.attributes {
        assert LastWrite(init, id, name, i) && Replay.Mentions(init, id);
      } else {
        assert i == n;
      }
    }
    forall name | !Written(batch, id, name)
      ensures name in PropertiesOf(Some(q)) <==> name in PropertiesOf(e)
      ensures name in PropertiesOf(e) ==> PropertiesOf(Some(q))[name] == PropertiesOf(e)[name]
    {
      assert name !in o.attributes && !Written(init, id, name);
    }
  }

  lemma {:induction false} AbsorbAllBecomes(e: Option<Entity>, batch: seq<Observation>, id: string)
    ensures Becomes(e, Replay.AbsorbAll(e, batch, id), batch, id)
  {
    if batch == [] {
    } else {
      var init, n := batch[..|batch| - 1], |batch| - 1;
      AbsorbAllBecomes(e, init, id);
      var p := Replay.AbsorbAll(e, init, id);
      if batch[n].entityId == id {
        IntroducedStep(e, p, batch, id);
        SeenLastStep(e, p, batch, id);
        AttributedStep(e, p, batch, id);
      } else {
        BecomesMore(e, p, batch, id);
      }
    }
  }

  /** Observations of other entities change nothing. */
  lemma BecomesMore(e: Option<Entity>, q: Option<Entity>, batch: seq<Observation>, id: string)
    requires batch != [] && batch[|batch| - 1].entityId != id && Becomes(e, q, batch[..|batch| - 1], id)
    ensures Becomes(e, q, batch, id)
  {
    var init, n := batch[..|batch| - 1], |batch| - 1;
    assert forall j :: 0 <= j < n ==> init[j] == batch[j];
    assert Replay.Mentions(init, id) <==> Replay.Mentions(batch, id);
    if Replay.Mentions(batch, id) {
      if e.None? {
        var i: nat :| FirstOf(init, id, i) && q.value.entityType == init[i].entityType && q.value.firstSeen == Some(init[i].observedAt);
        assert FirstOf(batch, id, i);
      }
      forall name, i: nat | LastWrite(batch, id, name, i)
        ensures LastWrite(init, id, name, i)
      {
      }
      forall name | !Written(batch, id, name)
        ensures !Written(init, id, name)
      {
      }
    }
  }

  /** After an execution every entity of the tenant is what the batch makes of it, and others are as they were. */
  lemma EntitiesBecome(db: Db, env: Env, batch: seq<Observation>, k: EntityKey)
    ensures var before, after := Lookup(db.entities, k), Lookup(Execute(db, env, batch).entities, k);
            if k.tenant == env.tenant then Becomes(before, after, batch, k.entity) else after == before
  {
    Replay.FoldEntities(Tally(db, 0, 0, []), env, batch);
    Replay.EntityFoldAt(db.entities, env.tenant, batch, k);
    AbsorbAllBecomes(Lookup(db.entities, k), batch, k.entity);
  }
}
