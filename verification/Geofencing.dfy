/**
 Geofence enter/exit detection: an incremental diff over aliased state rows, shown to be exactly
 "membership now versus membership before", and its history over any run of evaluations.
 */
module Geofencing {
  import opened Wrappers
  import opened Database

  // ---------------------------------------------------------------- containment query

  predicate Contains(world: World, tenant: string, position: Position, f: Fence) {
    && f.tenant == tenant
    && f.enabled
    && world.covers(f.id, position)
    && (position.altitude.Some? ==>
          && (f.minAltitude.None? || f.minAltitude.value <= position.altitude.value)
          && (f.maxAltitude.None? || f.maxAltitude.value >= position.altitude.value))
  }

  function FindContaining(world: World, fences: seq<Fence>, tenant: string, position: Position): seq<nat> {
    if fences == [] then []
    else
      FindContaining(world, fences[..|fences| - 1], tenant, position)
      + if Contains(world, tenant, position, fences[|fences| - 1]) then [fences[|fences| - 1].id] else []
  }

  /** Fence ids are a primary key. */
  ghost predicate UniqueFences(fences: seq<Fence>) {
    forall i, j :: 0 <= i < j < |fences| ==> fences[i].id != fences[j].id
  }

  /** The ids found are, each once, those of the tenant's enabled fences that cover the point and, when its
      altitude is known, whose band has no lower bound above it and no upper bound below it. */
  lemma {:induction false} FindContainingMembers(world: World, fences: seq<Fence>, tenant: string, position: Position)
    requires UniqueFences(fences)
    ensures Distinct(FindContaining(world, fences, tenant, position))
    ensures forall id :: id in FindContaining(world, fences, tenant, position) <==>
              exists f :: f in fences && f.id == id && f.tenant == tenant && f.enabled && world.covers(f.id, position)
                          && (position.altitude.Some? ==>
                                && (f.minAltitude.Some? ==> f.minAltitude.value <= position.altitude.value)
                                && (f.maxAltitude.Some? ==> position.altitude.value <= f.maxAltitude.value))
  {
    if fences == [] {
    } else {
      var init, last := fences[..|fences| - 1], fences[|fences| - 1];
      FindContainingMembers(world, init, tenant, position);
      assert fences == init + [last];
      assert last.id !in FindContaining(world, init, tenant, position) by {
        assert forall f :: f in init ==> f.id != last.id;
      }
    }
  }

  // ---------------------------------------------------------------- the specification

  /** One evaluation: which entity, which fences contain it now, and when. */
  datatype Sighting = Sighting(
    tenant: string,
    entity: string,
    ids: seq<nat>,
    position: Position,
    entityType: Option<string>,
    at: Time,
    now: Time)
  {
    function Key(fence: nat): StateKey { StateKey(tenant, fence, entity) }
    predicate Concerns(k: StateKey) { k.tenant == tenant && k.entity == entity }
    function Event(direction: Direction, k: StateKey): GeofenceEvent {
      GeofenceEvent(direction, k, at, position, entityType)
    }
  }

  function SightingOf(world: World, tenant: string, entity: string, position: Position, at: Time,
                      entityType: Option<string>, now: Time): Sighting
  {
    Sighting(tenant, entity, FindContaining(world, world.fences, tenant, position), position, entityType, at, now)
  }

  predicate Inside(t: StateTable, k: StateKey) { k in t && t[k].inside }

  function Upsert(t: StateTable, k: StateKey, inside: bool, at: Time, now: Time): StateTable {
    if k in t then
      t[k := StateCell(inside, if t[k].inside != inside then at else t[k].since, at)]
    else
      t[k := StateCell(inside, at, now)]
  }

  /** The part of the database an evaluation has written so far, and the events it has emitted. */
  datatype Progress = Progress(states: StateTable, order: seq<StateKey>, outbox: seq<OutboxMessage>, events: seq<GeofenceEvent>)
  {
    function Emit(e: GeofenceEvent): Progress {
      this.(outbox := outbox + [NewMessage(e.key.tenant, Geofence(e))], events := events + [e])
    }
  }

  /** One pass of the first loop, over the fences that contain the sighting. */
  function EnterStep(p: Progress, s: Sighting, id: nat): Progress {
    var k := s.Key(id);
    var q := p.(states := Upsert(p.states, k, true, s.at, s.now), order := p.order + if k in p.states then [] else [k]);
    if Inside(p.states, k) then q else q.Emit(s.Event(Enter, k))
  }

  function EnterFold(p: Progress, s: Sighting, ids: seq<nat>): Progress {
    if ids == [] then p else EnterStep(EnterFold(p, s, ids[..|ids| - 1]), s, ids[|ids| - 1])
  }

  /** One pass of the second loop, over the states the entity had before the first. */
  function ExitStep(p: Progress, s: Sighting, k: StateKey): Progress {
    if Inside(p.states, k) && k.fence !in s.ids then
      p.(states := Upsert(p.states, k, false, s.at, s.now)).Emit(s.Event(Exit, k))
    else p
  }

  function ExitFold(p: Progress, s: Sighting, keys: seq<StateKey>): Progress {
    if keys == [] then p else ExitStep(ExitFold(p, s, keys[..|keys| - 1]), s, keys[|keys| - 1])
  }

  function Concerning(order: seq<StateKey>, tenant: string, entity: string): seq<StateKey> {
    if order == [] then []
    else
      var k := order[|order| - 1];
      Concerning(order[..|order| - 1], tenant, entity) + if k.tenant == tenant && k.entity == entity then [k] else []
  }

  /** The incremental diff, as the code computes it. */
  function Evaluate(p: Progress, s: Sighting): Progress {
    ExitFold(EnterFold(p, s, s.ids), s, Concerning(p.order, s.tenant, s.entity))
  }

  // ---------------------------------------------------------------- rows and their aliases

  /** Rows are only ever added, and the added ones did not exist in the old state. */
  twostate predicate Grown(before: set<StateRow>, new rows: set<StateRow>) {
    before <= rows && fresh(rows - before)
  }

  method GetState(session: Session, k: StateKey) returns (row: StateRow?)
    requires session.Valid()
    ensures row != null ==> row in session.Repr && row.key == k
    ensures row == null ==> k !in session.states
  {
    for i := 0 to |session.rows|
      invariant forall j :: 0 <= j < i ==> session.rows[j].key != k
    {
      if session.rows[i].key == k {
        return session.rows[i];
      }
    }
    row := null;
  }

  lemma ListedAppend(rows: seq<StateRow>, order: seq<StateKey>, index: map<StateKey, StateRow>, k: StateKey, row: StateRow)
    requires Session.Listed(rows, order, index) && k !in index
    ensures Session.Listed(rows + [row], order + [k], index[k := row])
  {
  }

  method AddRow(session: Session, k: StateKey, inside: bool, at: Time, now: Time)
    requires session.Valid() && k !in session.states
    modifies session`rows, session`order, session`states, session`index, session`Repr
    ensures session.Valid()
    ensures session.states == old(session.states)[k := StateCell(inside, at, now)]
    ensures session.order == old(session.order) + [k]
    ensures Grown(old(session.Repr), session.Repr)
  {
    var row := new StateRow(k, inside, at, now);
    ListedAppend(session.rows, session.order, session.index, k, row);
    session.rows := session.rows + [row];
    session.order := session.order + [k];
    session.index := session.index[k := row];
    session.Repr := session.Repr + {row};
    session.states := session.states[k := StateCell(inside, at, now)];
  }

  method TouchRow(session: Session, row: StateRow, inside: bool, at: Time, ghost now: Time)
    requires session.Valid() && row in session.Repr
    modifies session`states, row
    ensures session.Valid()
    ensures session.states == Upsert(old(session.states), row.key, inside, at, now)
  {
    row.Update(inside, at);
    session.states := session.states[row.key := row.Cell()];
  }

  method UpsertState(session: Session, k: StateKey, inside: bool, at: Time, now: Time, existing: StateRow?)
    requires session.Valid()
    requires existing != null ==> existing in session.Repr && existing.key == k
    modifies session`rows, session`order, session`states, session`index, session`Repr, session.Repr
    ensures session.Valid()
    ensures session.states == Upsert(old(session.states), k, inside, at, now)
    ensures session.order == old(session.order) + if k in old(session.states) then [] else [k]
    ensures Grown(old(session.Repr), session.Repr)
  {
    var row := existing;
    if row == null {
      row := GetState(session, k);
    }
    if row == null {
      AddRow(session, k, inside, at, now);
    } else {
      TouchRow(session, row, inside, at, now);
    }
  }

  /** The rows of one entity: the very objects of the table, not copies. */
  method ListStates(session: Session, tenant: string, entity: string) returns (prior: seq<StateRow>)
    requires session.Valid()
    ensures |prior| == |Concerning(session.order, tenant, entity)|
    ensures forall i :: 0 <= i < |prior| ==>
              prior[i] in session.Repr && prior[i].key == Concerning(session.order, tenant, entity)[i]
  {
    prior := [];
    for n := 0 to |session.rows|
      invariant |prior| == |Concerning(session.order[..n], tenant, entity)|
      invariant forall i :: 0 <= i < |prior| ==>
                  prior[i] in session.Repr && prior[i].key == Concerning(session.order[..n], tenant, entity)[i]
    {
      var row := session.rows[n];
      assert session.order[..n + 1][..n] == session.order[..n];
      if row.key.tenant == tenant && row.key.entity == entity {
        prior := prior + [row];
      }
    }
    assert session.order[..|session.rows|] == session.order;
  }

  lemma {:induction false} ConcerningMembers(order: seq<StateKey>, tenant: string, entity: string)
    requires Distinct(order)
    ensures Distinct(Concerning(order, tenant, entity))
    ensures forall k :: k in Concerning(order, tenant, entity) <==> k in order && k.tenant == tenant && k.entity == entity
  {
    if order == [] {
    } else {
      ConcerningMembers(order[..|order| - 1], tenant, entity);
      assert order == order[..|order| - 1] + [order[|order| - 1]];
    }
  }

  // ---------------------------------------------------------------- the engine

  ghost function Now(session: Session, events: seq<GeofenceEvent>): Progress
    reads session
  {
    Progress(session.states, session.order, session.outbox, events)
  }

  /** One pass of the first loop: the fence's row is marked inside; a transition is enqueued. */
  method EnterFence(session: Session, s: Sighting, id: nat, prev: StateRow?, before: seq<GeofenceEvent>)
    returns (events: seq<GeofenceEvent>)
    requires session.Valid()
    requires if prev != null then prev in session.Repr && prev.key == s.Key(id) else s.Key(id) !in session.states
    modifies session`rows, session`order, session`states, session`index, session`outbox, session`Repr, session.Repr
    ensures session.Valid() && Grown(old(session.Repr), session.Repr)
    ensures Now(session, events) == EnterStep(old(Now(session, before)), s, id)
  {
    var k := s.Key(id);
    events := before;
    var wasInside := if prev != null then prev.inside else false;
    UpsertState(session, k, true, s.at, s.now, prev);
    if !wasInside {
      events := events + [s.Event(Enter, k)];
      session.Enqueue(s.tenant, Geofence(s.Event(Enter, k)));
    }
  }

  lemma {:induction false} EnterFoldKeys(p: Progress, s: Sighting, ids: seq<nat>, k: StateKey)
    requires !(s.Concerns(k) && k.fence in ids)
    ensures k in EnterFold(p, s, ids).states <==> k in p.states
    ensures k in p.states ==> EnterFold(p, s, ids).states[k] == p.states[k]
  {
    if ids == [] {
    } else {
      EnterFoldKeys(p, s, ids[..|ids| - 1], k);
    }
  }

  /** Every containing fence is marked inside, through the rows loaded beforehand. */
  method EnterAll(session: Session, s: Sighting, byFence: map<nat, StateRow>) returns (events: seq<GeofenceEvent>)
    requires session.Valid() && Distinct(s.ids)
    requires forall f :: f in byFence ==> byFence[f] in session.Repr && byFence[f].key == s.Key(f)
    requires forall f :: s.Key(f) in session.states ==> f in byFence
    modifies session`rows, session`order, session`states, session`index, session`outbox, session`Repr, session.Repr
    ensures session.Valid() && Grown(old(session.Repr), session.Repr)
    ensures Now(session, events) == EnterFold(old(Now(session, [])), s, s.ids)
  {
    events := [];
    ghost var p := Now(session, []);
    for i := 0 to |s.ids|
      invariant session.Valid() && Grown(old(session.Repr), session.Repr)
      invariant Now(session, events) == EnterFold(p, s, s.ids[..i])
    {
      var id := s.ids[i];
      assert s.ids[..i + 1][..i] == s.ids[..i];
      EnterFoldKeys(p, s, s.ids[..i], s.Key(id));
      events := EnterFence(session, s, id, if id in byFence then byFence[id] else null, events);
    }
    assert s.ids[..|s.ids|] == s.ids;
  }

  /** One pass of the second loop: a row that is inside a fence not containing the sighting is left. */
  method ExitFence(session: Session, s: Sighting, state: StateRow, before: seq<GeofenceEvent>)
    returns (events: seq<GeofenceEvent>)
    requires session.Valid()
    requires state in session.Repr && s.Concerns(state.key)
    modifies session`rows, session`order, session`states, session`index, session`outbox, session`Repr, session.Repr
    ensures session.Valid() && Grown(old(session.Repr), session.Repr)
    ensures Now(session, events) == ExitStep(old(Now(session, before)), s, state.key)
  {
    events := before;
    if state.inside && state.key.fence !in s.ids {
      UpsertState(session, s.Key(state.key.fence), false, s.at, s.now, state);
      events := events + [s.Event(Exit, state.key)];
      session.Enqueue(s.tenant, Geofence(s.Event(Exit, state.key)));
    }
  }

  /** Every row of the entity that was inside a fence no longer containing it is marked outside. */
  method ExitAll(session: Session, s: Sighting, prior: seq<StateRow>, ghost keys: seq<StateKey>, before: seq<GeofenceEvent>)
    returns (events: seq<GeofenceEvent>)
    requires session.Valid()
    requires |keys| == |prior| && forall i :: 0 <= i < |prior| ==> prior[i] in session.Repr && prior[i].key == keys[i]
    requires forall i :: 0 <= i < |keys| ==> s.Concerns(keys[i])
    modifies session`rows, session`order, session`states, session`index, session`outbox, session`Repr, session.Repr
    ensures session.Valid() && Grown(old(session.Repr), session.Repr)
    ensures Now(session, events) == ExitFold(old(Now(session, before)), s, keys)
  {
    events := before;
    ghost var p := Now(session, before);
    for i := 0 to |prior|
      invariant session.Valid() && Grown(old(session.Repr), session.Repr)
      invariant Now(session, events) == ExitFold(p, s, keys[..i])
    {
      assert keys[..i + 1][..i] == keys[..i];
      events := ExitFence(session, s, prior[i], events);
    }
    assert keys[..|prior|] == keys;
  }

  method IndexByFence(prior: seq<StateRow>, s: Sighting) returns (byFence: map<nat, StateRow>)
    requires forall i :: 0 <= i < |prior| ==> s.Concerns(prior[i].key)
    ensures forall f :: f in byFence ==> byFence[f] in prior && byFence[f].key == s.Key(f)
    ensures forall i :: 0 <= i < |prior| ==> prior[i].key.fence in byFence
  {
    byFence := map[];
    for i := 0 to |prior|
      invariant forall f :: f in byFence ==> byFence[f] in prior && byFence[f].key == s.Key(f)
      invariant forall j :: 0 <= j < i ==> prior[j].key.fence in byFence
    {
      byFence := byFence[prior[i].key.fence := prior[i]];
    }
  }

  /** The entity's states as a list and by fence: two routes to the same rows. */
  method LoadStates(session: Session, s: Sighting) returns (prior: seq<StateRow>, byFence: map<nat, StateRow>)
    requires session.Valid()
    ensures var keys := Concerning(session.order, s.tenant, s.entity);
            && |prior| == |keys|
            && forall i :: 0 <= i < |prior| ==> prior[i] in session.Repr && prior[i].key == keys[i] && s.Concerns(keys[i])
    ensures forall f :: f in byFence ==> byFence[f] in session.Repr && byFence[f].key == s.Key(f)
    ensures forall f :: s.Key(f) in session.states ==> f in byFence
  {
    ghost var keys := Concerning(session.order, s.tenant, s.entity);
    ConcerningMembers(session.order, s.tenant, s.entity);
    prior := ListStates(session, s.tenant, s.entity);
    byFence := IndexByFence(prior, s);
    forall f | s.Key(f) in session.states
      ensures f in byFence
    {
      assert s.Key(f) in keys;
    }
  }

  /** The two loops, over the rows loaded before the first. */
  method RunLoops(session: Session, s: Sighting, prior: seq<StateRow>, byFence: map<nat, StateRow>, ghost keys: seq<StateKey>)
    returns (events: seq<GeofenceEvent>)
    requires session.Valid() && Distinct(s.ids)
    requires |keys| == |prior|
    requires forall i :: 0 <= i < |prior| ==> prior[i] in session.Repr && prior[i].key == keys[i] && s.Concerns(keys[i])
    requires forall f :: f in byFence ==> byFence[f] in session.Repr && byFence[f].key == s.Key(f)
    requires forall f :: s.Key(f) in session.states ==> f in byFence
    modifies session`rows, session`order, session`states, session`index, session`outbox, session`Repr, session.Repr
    ensures session.Valid() && Grown(old(session.Repr), session.Repr)
    ensures Now(session, events) == ExitFold(EnterFold(old(Now(session, [])), s, s.ids), s, keys)
  {
    events := EnterAll(session, s, byFence);
    events := ExitAll(session, s, prior, keys, events);
  }

  method EvaluateObservation(session: Session, world: World, tenant: string, entity: string, position: Position,
                             at: Time, entityType: Option<string>, now: Time)
    returns (events: seq<GeofenceEvent>)
    requires session.Valid() && UniqueFences(world.fences)
    modifies session`rows, session`order, session`states, session`index, session`outbox, session`Repr, session.Repr
    ensures session.Valid() && Grown(old(session.Repr), session.Repr)
    ensures var s := SightingOf(world, tenant, entity, position, at, entityType, now);
            Now(session, events) == Evaluate(old(Now(session, [])), s)
  {
    var s := SightingOf(world, tenant, entity, position, at, entityType, now);
    assert Distinct(s.ids) by {
      FindContainingMembers(world, world.fences, tenant, position);
    }
    ghost var keys := Concerning(session.order, tenant, entity);
    var prior, byFence := LoadStates(session, s);
    events := RunLoops(session, s, prior, byFence, keys);
  }
}
