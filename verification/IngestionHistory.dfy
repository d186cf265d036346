/** What leaves the ingestion pipeline about geofences: the messages tell the history of the state rows. */
module IngestionHistory {
  import opened Wrappers
  import opened Database
  import opened Ingestion
  import Geofencing
  import GeofenceHistory
  import Replay
  import Worker
  import WorkerRuns

  /** The geofence events among some messages, in order. */
  function Told(messages: seq<OutboxMessage>): seq<GeofenceEvent> {
    if messages == [] then []
    else
      var m := messages[|messages| - 1];
      Told(messages[..|messages| - 1]) + if m.payload.Geofence? then [m.payload.event] else []
  }

  lemma {:induction false} ToldAppend(a: seq<OutboxMessage>, b: seq<OutboxMessage>)
    ensures Told(a + b) == Told(a) + Told(b)
  {
    if b == [] {
      assert a + b == a;
    } else {
      ToldAppend(a, b[..|b| - 1]);
      assert (a + b)[..|a + b| - 1] == a + b[..|b| - 1];
    }
  }

  lemma {:induction false} ToldMessages(events: seq<GeofenceEvent>)
    ensures Told(GeofenceHistory.Messages(events)) == events
  {
    if events == [] {
    } else {
      var init, e := events[..|events| - 1], events[|events| - 1];
      var m := NewMessage(e.key.tenant, Geofence(e));
      ToldMessages(init);
      ToldAppend(GeofenceHistory.Messages(init), [m]);
      assert [m][..0] == [];
      assert Told([m]) == [e];
    }
  }

  lemma ToldOne(m: OutboxMessage)
    requires !m.payload.Geofence?
    ensures Told([m]) == []
  {
    assert [m][..0] == [];
  }

  lemma {:induction false} ToldFindings(tenant: string, findings: seq<string>)
    ensures Told(Findings(tenant, findings)) == []
  {
    if findings == [] {
    } else {
      var init := findings[..|findings| - 1];
      ToldFindings(tenant, init);
      assert Findings(tenant, findings)[..|Findings(tenant, init)|] == Findings(tenant, init);
    }
  }

  lemma {:induction false} ForJoin(a: seq<GeofenceEvent>, b: seq<GeofenceEvent>, k: StateKey)
    ensures GeofenceHistory.For(a + b, k) == GeofenceHistory.For(a, k) + GeofenceHistory.For(b, k)
  {
    if b == [] {
      assert a + b == a;
    } else {
      ForJoin(a, b[..|b| - 1], k);
      assert (a + b)[..|a + b| - 1] == a + b[..|b| - 1];
    }
  }

  // ---------------------------------------------------------------- one execution

  function StatesOf(db: Db): Geofencing.Progress { Geofencing.Progress(db.states, db.stateOrder, [], []) }

  /** The events about `k` told since `base` are the history of its row since `base`. */
  ghost predicate Tells(base: Db, db: Db, k: StateKey) {
    && |base.outbox| <= |db.outbox| && db.outbox[..|base.outbox|] == base.outbox
    && GeofenceHistory.WellFormed(StatesOf(db))
    && GeofenceHistory.Chronicle(StatesOf(base), StatesOf(db), k, GeofenceHistory.For(Told(db.outbox[|base.outbox|..]), k))
  }

  /** Messages that tell of no geofence change nothing. */
  lemma TellsMore(base: Db, db: Db, after: Db, k: StateKey, more: seq<OutboxMessage>)
    requires Tells(base, db, k) && Told(more) == []
    requires after.states == db.states && after.stateOrder == db.stateOrder && after.outbox == db.outbox + more
    ensures Tells(base, after, k)
  {
    assert after.outbox[|base.outbox|..] == db.outbox[|base.outbox|..] + more;
    ToldAppend(db.outbox[|base.outbox|..], more);
    assert Told(db.outbox[|base.outbox|..]) + [] == Told(db.outbox[|base.outbox|..]);
    assert after.outbox[..|base.outbox|] == db.outbox[..|base.outbox|];
  }

  /** The events of one evaluation about `k` are the transition its row makes. */
  lemma EvaluateTransition(db: Db, s: Geofencing.Sighting, k: StateKey)
    requires GeofenceHistory.WellFormed(StatesOf(db)) && Distinct(s.ids)
    ensures var p := Geofencing.Progress(db.states, db.stateOrder, db.outbox, []);
            var q := Geofencing.Evaluate(p, s);
            && GeofenceHistory.WellFormed(q) && GeofenceHistory.Settles(p, q, s, k)
            && q.outbox == db.outbox + GeofenceHistory.Messages(q.events)
            && GeofenceHistory.For(q.events, k) == GeofenceHistory.Transition(db.states, s, k)
  {
    var p := Geofencing.Progress(db.states, db.stateOrder, db.outbox, []);
    GeofenceHistory.StepRefinement(p, s);
    GeofenceHistory.EvaluateAnnounced(db.outbox, p, s);
    assert GeofenceHistory.Settles(p, Geofencing.Evaluate(p, s), s, k);
    assert GeofenceHistory.For([], k) == [];
  }

  lemma ToldSince(outbox: seq<OutboxMessage>, n: nat, events: seq<GeofenceEvent>, k: StateKey)
    requires n <= |outbox|
    ensures GeofenceHistory.For(Told((outbox + GeofenceHistory.Messages(events))[n..]), k)
            == GeofenceHistory.For(Told(outbox[n..]), k) + GeofenceHistory.For(events, k)
  {
    assert (outbox + GeofenceHistory.Messages(events))[n..] == outbox[n..] + GeofenceHistory.Messages(events);
    ToldAppend(outbox[n..], GeofenceHistory.Messages(events));
    ToldMessages(events);
    ForJoin(Told(outbox[n..]), events, k);
  }

  lemma ChronicleThrough(base: Geofencing.Progress, db: Db, q: Geofencing.Progress, s: Geofencing.Sighting, k: StateKey,
                         log: seq<GeofenceEvent>)
    requires GeofenceHistory.Chronicle(base, StatesOf(db), k, log)
    requires GeofenceHistory.Settles(Geofencing.Progress(db.states, db.stateOrder, db.outbox, []), q, s, k)
    ensures GeofenceHistory.Chronicle(base, Geofencing.Progress(q.states, q.order, [], []), k,
                                      log + GeofenceHistory.Transition(db.states, s, k))
  {
    GeofenceHistory.ChronicleStep(base, Geofencing.Progress(db.states, db.stateOrder, db.outbox, []), q, s, k, log);
  }

  /** The tables and messages an evaluation leaves before the alert block. */
  function Evaluated(db: Db, s: Geofencing.Sighting): Db {
    var q := Geofencing.Evaluate(Geofencing.Progress(db.states, db.stateOrder, db.outbox, []), s);
    db.(states := q.states, stateOrder := q.order, outbox := q.outbox)
  }

  lemma TellsDiff(base: Db, db: Db, s: Geofencing.Sighting, k: StateKey)
    requires Tells(base, db, k) && Distinct(s.ids)
    ensures Tells(base, Evaluated(db, s), k)
  {
    var q := Geofencing.Evaluate(Geofencing.Progress(db.states, db.stateOrder, db.outbox, []), s);
    EvaluateTransition(db, s, k);
    ToldSince(db.outbox, |base.outbox|, q.events, k);
    ChronicleThrough(StatesOf(base), db, q, s, k, GeofenceHistory.For(Told(db.outbox[|base.outbox|..]), k));
    assert q.outbox[..|base.outbox|] == db.outbox[..|base.outbox|];
  }

  lemma TellsEvaluate(base: Db, db: Db, env: Env, o: Observation, position: Position, fault: Option<Fault>, k: StateKey)
    requires Tells(base, db, k) && Geofencing.UniqueFences(env.world.fences)
    ensures Tells(base, Ingestion.Evaluate(db, env, o, position, fault), k)
  {
    var s := Geofencing.SightingOf(env.world, env.tenant, o.entityId, position, o.observedAt, None, env.now);
    assert Distinct(s.ids) by {
      Geofencing.FindContainingMembers(env.world, env.world.fences, env.tenant, position);
    }
    TellsDiff(base, db, s, k);
    var events := Geofencing.Evaluate(Geofencing.Progress(db.states, db.stateOrder, db.outbox, []), s).events;
    ToldRetry(env.tenant, events, fault);
    TellsMore(base, Evaluated(db, s), Ingestion.Evaluate(db, env, o, position, fault), k, Retry(env.tenant, events, fault));
  }

  lemma ToldRetry(tenant: string, events: seq<GeofenceEvent>, fault: Option<Fault>)
    ensures Told(Retry(tenant, events, fault)) == []
  {
    ToldOne(NewMessage(tenant, AlertRetry(events)));
  }

  lemma TellsStep(base: Db, t: Tally, env: Env, o: Observation, k: StateKey)
    requires Tells(base, t.db, k) && Geofencing.UniqueFences(env.world.fences)
    ensures Tells(base, Step(t, env, o).db, k)
  {
    var recorded := Recorded(t.db, env, o);
    assert t.db.outbox + [] == t.db.outbox;
    TellsMore(base, t.db, recorded, k, []);
    if Key(env, o) !in t.db.observations {
      var fault := Lookup(env.faults, t.seen);
      var evaluated := recorded;
      if o.position.Some? {
        TellsEvaluate(base, recorded, env, o, o.position.value, fault, k);
        evaluated := Ingestion.Evaluate(recorded, env, o, o.position.value, fault);
      }
      ToldFindings(env.tenant, env.world.detect(o));
      TellsMore(base, evaluated, Derive(recorded, env, o, fault), k, Findings(env.tenant, env.world.detect(o)));
    }
  }

  lemma {:induction false} TellsFold(base: Db, t: Tally, env: Env, batch: seq<Observation>, k: StateKey)
    requires Tells(base, t.db, k) && Geofencing.UniqueFences(env.world.fences)
    ensures Tells(base, Fold(t, env, batch).db, k)
  {
    if batch == [] {
    } else {
      TellsFold(base, t, env, batch[..|batch| - 1], k);
      TellsStep(base, Fold(t, env, batch[..|batch| - 1]), env, batch[|batch| - 1], k);
    }
  }

  lemma TellsExecute(base: Db, db: Db, env: Env, batch: seq<Observation>, k: StateKey)
    requires Tells(base, db, k) && Geofencing.UniqueFences(env.world.fences)
    ensures Tells(base, Execute(db, env, batch), k)
  {
    TellsFold(base, Tally(db, 0, 0, []), env, batch, k);
    var f := Fold(Tally(db, 0, 0, []), env, batch);
    var notice := NewMessage(env.tenant, Completed(env.source, f.inserted, env.jobType));
    ToldOne(notice);
    var noted := f.db.(outbox := f.db.outbox + [notice]);
    TellsMore(base, f.db, noted, k, [notice]);
    if env.analyticsEnabled && f.rows != [] {
      var rows := NewMessage(env.tenant, Analytics(env.tenant, f.rows));
      ToldOne(rows);
      TellsMore(base, noted, Execute(db, env, batch), k, [rows]);
    } else {
      assert noted.outbox + [] == noted.outbox;
      TellsMore(base, noted, Execute(db, env, batch), k, []);
    }
  }

  // ---------------------------------------------------------------- any executions

  ghost predicate AllUnique(jobs: seq<Replay.Job>) {
    forall i :: 0 <= i < |jobs| ==> Geofencing.UniqueFences(jobs[i].env.world.fences)
  }

  /**
   Over any list of executions of any tenants, replays and faulty emissions included, the geofence
   messages enqueued about a key alternate, beginning with the opposite of where its row started;
   enters minus exits is the row's change; and its `since` is the time of the last.
   */
  lemma {:induction false} ExecutionsTell(db: Db, jobs: seq<Replay.Job>, k: StateKey)
    requires GeofenceHistory.WellFormed(StatesOf(db)) && AllUnique(jobs)
    ensures Tells(db, Replay.ExecuteAll(db, jobs), k)
  {
    if jobs == [] {
      assert db.outbox[|db.outbox|..] == [] && db.outbox[..|db.outbox|] == db.outbox;
      assert GeofenceHistory.For(Told([]), k) == [];
    } else {
      var init, job := jobs[..|jobs| - 1], jobs[|jobs| - 1];
      assert AllUnique(init) && Geofencing.UniqueFences(job.env.world.fences);
      ExecutionsTell(db, init, k);
      TellsExecute(db, Replay.ExecuteAll(db, init), job.env, job.batch, k);
    }
  }

  /** And so for any interleaving of the workers that make the executions. */
  lemma WorkersTell(s: Worker.State, actions: seq<WorkerRuns.Action>, k: StateKey)
    requires GeofenceHistory.WellFormed(StatesOf(s.db)) && AllUnique(WorkerRuns.Run(s, actions).executed)
    ensures Tells(s.db, WorkerRuns.Run(s, actions).state.db, k)
  {
    WorkerRuns.RunExecutes(s, actions);
    ExecutionsTell(s.db, WorkerRuns.Run(s, actions).executed, k);
  }
}
