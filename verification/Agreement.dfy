/** The tables ingestion derives agree with the observations it inserts. */
module Agreement {
  import opened Wrappers
  import opened Database
  import opened Ingestion
  import Geofencing
  import GeofenceHistory
  import Alerts
  import AnalyticsAgreement
  import Replay

  // ---------------------------------------------------------------- counts

  predicate Completes(m: OutboxMessage) { m.payload.Completed? }

  lemma {:induction false} NoneComplete(added: seq<OutboxMessage>)
    requires forall i :: 0 <= i < |added| ==> !Completes(added[i])
    ensures Filter(added, Completes) == []
  {
    if added == [] {
    } else {
      NoneComplete(added[..|added| - 1]);
    }
  }

  lemma OneAmong(before: seq<OutboxMessage>, m: OutboxMessage, rest: seq<OutboxMessage>)
    requires forall i :: 0 <= i < |before| ==> !Completes(before[i])
    requires Completes(m) && forall i :: 0 <= i < |rest| ==> !Completes(rest[i])
    ensures Filter(before + [m] + rest, Completes) == [m]
  {
    NoneComplete(before);
    NoneComplete(rest);
    FilterAppend(before, [m], Completes);
    FilterAppend(before + [m], rest, Completes);
  }

  /** A transaction's closing messages hold the one completion, if those before hold none. */
  lemma OneCompletes(f: Tally, env: Env, before: seq<OutboxMessage>)
    requires AnalyticsAgreement.Grows(before, f.db.outbox)
    ensures |before| <= |Finish(f, env).outbox| && Finish(f, env).outbox[..|before|] == before
    ensures Filter(Finish(f, env).outbox[|before|..], Completes)
            == [NewMessage(env.tenant, Completed(env.source, f.inserted, env.jobType))]
  {
    var outbox, n := Finish(f, env).outbox, |f.db.outbox|;
    assert outbox[|before|..] == f.db.outbox[|before|..] + [outbox[n]] + outbox[n + 1..];
    OneAmong(f.db.outbox[|before|..], outbox[n], outbox[n + 1..]);
  }

  lemma FoldCounts(db: Db, env: Env, batch: seq<Observation>)
    ensures var f := Fold(Tally(db, 0, 0, []), env, batch);
            f.seen == |batch| && f.inserted == |f.db.observations| - |db.observations| && f.db.runs == db.runs
  {
    Replay.FoldObservations(Tally(db, 0, 0, []), env, batch);
  }

  lemma FoldQuiet(db: Db, env: Env, batch: seq<Observation>)
    ensures AnalyticsAgreement.Grows(db.outbox, Fold(Tally(db, 0, 0, []), env, batch).db.outbox)
  {
    AnalyticsAgreement.FoldRowsMatch(db, env, batch);
  }

  /**
   The run row and the one "completed" message among those the execution adds both carry exactly
   the growth of the observation table.
   */
  lemma ExecuteCounts(db: Db, env: Env, batch: seq<Observation>)
    ensures var after := Execute(db, env, batch);
            var growth := |after.observations| - |db.observations|;
            && growth >= 0
            && after.runs == db.runs + [SourceRun(env.tenant, env.source, |batch|, growth)]
            && |db.outbox| <= |after.outbox| && after.outbox[..|db.outbox|] == db.outbox
            && Filter(after.outbox[|db.outbox|..], Completes) == [NewMessage(env.tenant, Completed(env.source, growth, env.jobType))]
  {
    var f := Fold(Tally(db, 0, 0, []), env, batch);
    FoldCounts(db, env, batch);
    FoldQuiet(db, env, batch);
    OneCompletes(f, env, db.outbox);
  }

  // ---------------------------------------------------------------- geofence states follow the last fix

  ghost predicate WellFormedStates(db: Db) {
    GeofenceHistory.WellFormed(Geofencing.Progress(db.states, db.stateOrder, [], []))
  }

  /** The position of the last fresh, positioned observation of an entity in the batch, if any. */
  function LastFix(t: Tally, env: Env, batch: seq<Observation>, entity: string): Option<Position> {
    if batch == [] then None
    else
      var init, o := batch[..|batch| - 1], batch[|batch| - 1];
      if o.entityId == entity && o.position.Some? && Key(env, o) !in Fold(t, env, init).db.observations then o.position
      else LastFix(t, env, init, entity)
  }

  lemma EvaluateStates(db: Db, env: Env, o: Observation, position: Position, fault: Option<Fault>, k: StateKey)
    requires WellFormedStates(db) && Geofencing.UniqueFences(env.world.fences)
    ensures WellFormedStates(Evaluate(db, env, o, position, fault))
    ensures Geofencing.Inside(Evaluate(db, env, o, position, fault).states, k) <==>
              if k.tenant == env.tenant && k.entity == o.entityId
              then k.fence in Geofencing.FindContaining(env.world, env.world.fences, env.tenant, position)
              else Geofencing.Inside(db.states, k)
  {
    var s := Geofencing.SightingOf(env.world, env.tenant, o.entityId, position, o.observedAt, None, env.now);
    var p := Geofencing.Progress(db.states, db.stateOrder, db.outbox, []);
    Geofencing.FindContainingMembers(env.world, env.world.fences, env.tenant, position);
    GeofenceHistory.StepRefinement(p, s);
    assert GeofenceHistory.Settles(p, Geofencing.Evaluate(p, s), s, k);
  }

  lemma StepStates(t: Tally, env: Env, o: Observation, k: StateKey)
    requires WellFormedStates(t.db) && Geofencing.UniqueFences(env.world.fences)
    ensures WellFormedStates(Step(t, env, o).db)
    ensures Geofencing.Inside(Step(t, env, o).db.states, k) <==>
              if k.tenant == env.tenant && k.entity == o.entityId && o.position.Some? && Key(env, o) !in t.db.observations
              then k.fence in Geofencing.FindContaining(env.world, env.world.fences, env.tenant, o.position.value)
              else Geofencing.Inside(t.db.states, k)
  {
    if Key(env, o) !in t.db.observations && o.position.Some? {
      var db := t.db.(entities := UpsertEntity(t.db.entities, env.tenant, o), observations := t.db.observations[Key(env, o) := o]);
      EvaluateStates(db, env, o, o.position.value, Lookup(env.faults, t.seen), k);
    }
  }

  lemma {:induction false} FoldStates(t: Tally, env: Env, batch: seq<Observation>, k: StateKey)
    requires WellFormedStates(t.db) && Geofencing.UniqueFences(env.world.fences)
    ensures WellFormedStates(Fold(t, env, batch).db)
    ensures var fix := if k.tenant == env.tenant then LastFix(t, env, batch, k.entity) else None;
            Geofencing.Inside(Fold(t, env, batch).db.states, k) <==>
              if fix.Some? then k.fence in Geofencing.FindContaining(env.world, env.world.fences, env.tenant, fix.value)
              else Geofencing.Inside(t.db.states, k)
  {
    if batch == [] {
    } else {
      FoldStates(t, env, batch[..|batch| - 1], k);
      StepStates(Fold(t, env, batch[..|batch| - 1]), env, batch[|batch| - 1], k);
    }
  }

  /**
   After an execution, an entity is inside exactly the fences containing its last fresh position
   of the batch; an entity without one, and every entity of another tenant, is where it was.
   */
  lemma StatesFollowLastFix(db: Db, env: Env, batch: seq<Observation>)
    requires WellFormedStates(db) && Geofencing.UniqueFences(env.world.fences)
    ensures WellFormedStates(Execute(db, env, batch))
    ensures forall k: StateKey :: InsideByFix(db, env, batch, k)
  {
    var t := Tally(db, 0, 0, []);
    forall k: StateKey
      ensures InsideByFix(db, env, batch, k)
    {
      FoldStates(t, env, batch, k);
      var fix := LastFix(t, env, batch, k.entity);
      if fix.Some? {
        Geofencing.FindContainingMembers(env.world, env.world.fences, env.tenant, fix.value);
      }
    }
    FoldStates(t, env, batch, StateKey("", 0, ""));
  }

  ghost predicate InsideByFix(db: Db, env: Env, batch: seq<Observation>, k: StateKey) {
    var fix := if k.tenant == env.tenant then LastFix(Tally(db, 0, 0, []), env, batch, k.entity) else None;
    Geofencing.Inside(Execute(db, env, batch).states, k) <==>
      if fix.Some? then
        exists f :: f in env.world.fences && f.id == k.fence && f.tenant == env.tenant && f.enabled
                    && env.world.covers(f.id, fix.value)
                    && (fix.value.altitude.Some? ==>
                          && (f.minAltitude.Some? ==> f.minAltitude.value <= fix.value.altitude.value)
                          && (f.maxAltitude.Some? ==> fix.value.altitude.value <= f.maxAltitude.value))
      else Geofencing.Inside(db.states, k)
  }

  // ---------------------------------------------------------------- rules filtered by entity type

  function Untyped(rules: seq<Rule>): seq<Rule> {
    if rules == [] then []
    else Untyped(rules[..|rules| - 1]) + if rules[|rules| - 1].entityTypes == [] then [rules[|rules| - 1]] else []
  }

  function WithoutTypedRules(env: Env): Env {
    env.(world := env.world.(rules := Untyped(env.world.rules)))
  }

  lemma {:induction false} TypedRulesIgnored(d: Alerts.Desk, channels: map<nat, Channel>, tenant: string, event: GeofenceEvent,
                                             rules: seq<Rule>, now: Time)
    requires event.entityType == None
    ensures Alerts.EmitFold(d, channels, tenant, event, rules, now)
            == Alerts.EmitFold(d, channels, tenant, event, Untyped(rules), now)
  {
    if rules == [] {
    } else {
      var init, last := rules[..|rules| - 1], rules[|rules| - 1];
      TypedRulesIgnored(d, channels, tenant, event, init, now);
      if last.entityTypes == [] {
        assert (Untyped(init) + [last])[..|Untyped(init)|] == Untyped(init);
      } else {
        assert Untyped(rules) == Untyped(init);
      }
    }
  }

  lemma {:induction false} TypedRulesCutShort(d: Alerts.Desk, channels: map<nat, Channel>, tenant: string, event: GeofenceEvent,
                                              rules: seq<Rule>, now: Time, n: nat)
    requires event.entityType == None
    ensures Alerts.EmitUpTo(d, channels, tenant, event, rules, now, n)
            == Alerts.EmitUpTo(d, channels, tenant, event, Untyped(rules), now, n)
  {
    if rules == [] {
    } else {
      var init, last := rules[..|rules| - 1], rules[|rules| - 1];
      TypedRulesCutShort(d, channels, tenant, event, init, now, n);
      if last.entityTypes == [] {
        assert (Untyped(init) + [last])[..|Untyped(init)|] == Untyped(init);
      } else {
        assert Untyped(rules) == Untyped(init);
      }
    }
  }

  ghost predicate NoTypes(events: seq<GeofenceEvent>) {
    forall i :: 0 <= i < |events| ==> events[i].entityType == None
  }

  lemma {:induction false} EmitEventsUntyped(d: Alerts.Desk, world: World, tenant: string, events: seq<GeofenceEvent>, now: Time)
    requires NoTypes(events)
    ensures EmitEvents(d, world, tenant, events, now)
            == EmitEvents(d, world.(rules := Untyped(world.rules)), tenant, events, now)
  {
    if events == [] {
    } else {
      var init := events[..|events| - 1];
      EmitEventsUntyped(d, world, tenant, init, now);
      TypedRulesIgnored(EmitEvents(d, world, tenant, init, now), world.channels, tenant, events[|events| - 1], world.rules, now);
    }
  }

  lemma EmitSomeUntyped(d: Alerts.Desk, world: World, tenant: string, events: seq<GeofenceEvent>, now: Time, fault: Option<Fault>)
    requires NoTypes(events)
    ensures EmitSome(d, world, tenant, events, now, fault)
            == EmitSome(d, world.(rules := Untyped(world.rules)), tenant, events, now, fault)
  {
    if Raises(events, fault) {
      var j := fault.value.event;
      EmitEventsUntyped(d, world, tenant, events[..j], now);
      TypedRulesCutShort(EmitEvents(d, world, tenant, events[..j], now), world.channels, tenant, events[j], world.rules, now,
                         fault.value.rows);
    } else {
      EmitEventsUntyped(d, world, tenant, events, now);
    }
  }

  lemma {:induction false} EnterFoldUntyped(p: Geofencing.Progress, s: Geofencing.Sighting, ids: seq<nat>)
    requires NoTypes(p.events) && s.entityType == None
    ensures NoTypes(Geofencing.EnterFold(p, s, ids).events)
  {
    if ids == [] {
    } else {
      EnterFoldUntyped(p, s, ids[..|ids| - 1]);
    }
  }

  lemma {:induction false} ExitFoldUntyped(p: Geofencing.Progress, s: Geofencing.Sighting, keys: seq<StateKey>)
    requires NoTypes(p.events) && s.entityType == None
    ensures NoTypes(Geofencing.ExitFold(p, s, keys).events)
  {
    if keys == [] {
    } else {
      ExitFoldUntyped(p, s, keys[..|keys| - 1]);
    }
  }

  lemma {:induction false} FindContainingIgnoresRules(world: World, rules: seq<Rule>, fences: seq<Fence>, tenant: string, position: Position)
    ensures Geofencing.FindContaining(world.(rules := rules), fences, tenant, position)
            == Geofencing.FindContaining(world, fences, tenant, position)
  {
    if fences == [] {
    } else {
      FindContainingIgnoresRules(world, rules, fences[..|fences| - 1], tenant, position);
    }
  }

  lemma EvaluateUntyped(db: Db, env: Env, o: Observation, position: Position, fault: Option<Fault>)
    ensures Evaluate(db, env, o, position, fault) == Evaluate(db, WithoutTypedRules(env), o, position, fault)
  {
    var w := env.world;
    FindContainingIgnoresRules(w, Untyped(w.rules), w.fences, env.tenant, position);
    var s := Geofencing.SightingOf(w, env.tenant, o.entityId, position, o.observedAt, None, env.now);
    var p := Geofencing.Progress(db.states, db.stateOrder, db.outbox, []);
    EnterFoldUntyped(p, s, s.ids);
    ExitFoldUntyped(Geofencing.EnterFold(p, s, s.ids), s, Geofencing.Concerning(p.order, s.tenant, s.entity));
    var g := Geofencing.Evaluate(p, s);
    EmitSomeUntyped(Alerts.Desk(db.alerts, db.deliveries), w, env.tenant, g.events, env.now, fault);
  }

  lemma {:induction false} FoldUntyped(t: Tally, env: Env, batch: seq<Observation>)
    ensures Fold(t, env, batch) == Fold(t, WithoutTypedRules(env), batch)
  {
    if batch == [] {
    } else {
      var init, o := batch[..|batch| - 1], batch[|batch| - 1];
      FoldUntyped(t, env, init);
      var f := Fold(t, env, init);
      if o.position.Some? {
        var db := f.db.(entities := UpsertEntity(f.db.entities, env.tenant, o), observations := f.db.observations[Key(env, o) := o]);
        EvaluateUntyped(db, env, o, o.position.value, Lookup(env.faults, f.seen));
      }
    }
  }

  /**
   Ingestion passes no entity type into the evaluation, so rules filtered by entity type are dead:
   deleting them all changes nothing an execution does, for any database and batch.
   */
  lemma TypedRulesAreDead(db: Db, env: Env, batch: seq<Observation>)
    ensures Execute(db, env, batch) == Execute(db, WithoutTypedRules(env), batch)
  {
    FoldUntyped(Tally(db, 0, 0, []), env, batch);
  }
}
