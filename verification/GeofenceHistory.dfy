/** What the incremental diff means: membership now versus before, and its history over any run. */
module GeofenceHistory {
  import opened Database
  import opened Geofencing

  /** The events about one (tenant, fence, entity), in emission order. */
  function For(events: seq<GeofenceEvent>, k: StateKey): seq<GeofenceEvent> {
    if events == [] then []
    else
      var e := events[|events| - 1];
      For(events[..|events| - 1], k) + if e.key == k then [e] else []
  }

  ghost predicate WellFormed(p: Progress) {
    Distinct(p.order) && forall k :: k in p.states <==> k in p.order
  }

  predicate Member(s: Sighting, k: StateKey) { s.Concerns(k) && k.fence in s.ids }

  /** The transition a sighting makes at `k`, by comparing membership before and now. */
  function Transition(t: StateTable, s: Sighting, k: StateKey): seq<GeofenceEvent> {
    if !s.Concerns(k) || Member(s, k) == Inside(t, k) then []
    else [s.Event(if Member(s, k) then Enter else Exit, k)]
  }

  /** Everything one sighting does to `k`, without reference to how it is computed. */
  ghost predicate Settles(p: Progress, q: Progress, s: Sighting, k: StateKey) {
    && (k in q.states <==> k in p.states || Member(s, k))
    && (s.Concerns(k) ==> (Inside(q.states, k) <==> k.fence in s.ids))
    && (k in p.states && (!s.Concerns(k) || (!Member(s, k) && !Inside(p.states, k))) ==> q.states[k] == p.states[k])
    && (k in p.states && Transition(p.states, s, k) == [] ==> q.states[k].since == p.states[k].since)
    && (Transition(p.states, s, k) != [] ==> q.states[k].since == s.at)
    && (k in p.states && Member(s, k) ==> q.states[k].updatedAt == s.at)
    && (Transition(p.states, s, k) == [s.Event(Exit, k)] ==> q.states[k].updatedAt == s.at)
    && (k !in p.states && Member(s, k) ==> q.states[k].updatedAt == s.now)
    && For(q.events, k) == For(p.events, k) + Transition(p.states, s, k)
  }

  // ---------------------------------------------------------------- the two loops, key by key

  lemma ForAppend(events: seq<GeofenceEvent>, e: GeofenceEvent, k: StateKey)
    ensures For(events + [e], k) == For(events, k) + if e.key == k then [e] else []
  {
    assert (events + [e])[..|events|] == events;
  }

  lemma {:induction false} EnterFoldAt(p: Progress, s: Sighting, ids: seq<nat>, k: StateKey)
    requires Distinct(ids)
    ensures var q := EnterFold(p, s, ids);
            if s.Concerns(k) && k.fence in ids then
              && k in q.states && q.states[k] == Upsert(p.states, k, true, s.at, s.now)[k]
              && For(q.events, k) == For(p.events, k) + if Inside(p.states, k) then [] else [s.Event(Enter, k)]
            else
              && (k in q.states <==> k in p.states) && (k in p.states ==> q.states[k] == p.states[k])
              && For(q.events, k) == For(p.events, k)
  {
    if ids == [] {
    } else {
      var init, id := ids[..|ids| - 1], ids[|ids| - 1];
      EnterFoldAt(p, s, init, k);
      ForAppend(EnterFold(p, s, init).events, s.Event(Enter, s.Key(id)), k);
    }
  }

  lemma {:induction false} ExitFoldAt(p: Progress, s: Sighting, keys: seq<StateKey>, k: StateKey)
    requires Distinct(keys)
    ensures var q := ExitFold(p, s, keys);
            if k in keys && Inside(p.states, k) && k.fence !in s.ids then
              && k in q.states && q.states[k] == Upsert(p.states, k, false, s.at, s.now)[k]
              && For(q.events, k) == For(p.events, k) + [s.Event(Exit, k)]
            else
              && (k in q.states <==> k in p.states) && (k in p.states ==> q.states[k] == p.states[k])
              && For(q.events, k) == For(p.events, k)
  {
    if keys == [] {
    } else {
      var init, last := keys[..|keys| - 1], keys[|keys| - 1];
      ExitFoldAt(p, s, init, k);
      ForAppend(ExitFold(p, s, init).events, s.Event(Exit, last), k);
    }
  }

  lemma {:induction false} EnterFoldWellFormed(p: Progress, s: Sighting, ids: seq<nat>)
    requires WellFormed(p)
    ensures WellFormed(EnterFold(p, s, ids))
  {
    if ids == [] {
    } else {
      EnterFoldWellFormed(p, s, ids[..|ids| - 1]);
    }
  }

  lemma {:induction false} ExitFoldWellFormed(p: Progress, s: Sighting, keys: seq<StateKey>)
    requires WellFormed(p)
    ensures WellFormed(ExitFold(p, s, keys)) && ExitFold(p, s, keys).order == p.order
  {
    if keys == [] {
    } else {
      ExitFoldWellFormed(p, s, keys[..|keys| - 1]);
    }
  }

  // ---------------------------------------------------------------- one evaluation

  lemma EvaluateAt(p: Progress, s: Sighting, k: StateKey)
    requires WellFormed(p) && Distinct(s.ids)
    ensures Settles(p, Evaluate(p, s), s, k)
  {
    var mid, keys := EnterFold(p, s, s.ids), Concerning(p.order, s.tenant, s.entity);
    ConcerningMembers(p.order, s.tenant, s.entity);
    EnterFoldAt(p, s, s.ids, k);
    ExitFoldAt(mid, s, keys, k);
  }

  /**
   Although the engine mutates the very rows it is still reading, one evaluation leaves the entity
   inside exactly the fences that contain it, emits exactly one enter per fence gained and one exit
   per fence lost, dates `since` by the transition, keeps one row per key, and touches nobody else.
   */
  lemma StepRefinement(p: Progress, s: Sighting)
    requires WellFormed(p) && Distinct(s.ids)
    ensures WellFormed(Evaluate(p, s))
    ensures forall k :: Settles(p, Evaluate(p, s), s, k)
  {
    EnterFoldWellFormed(p, s, s.ids);
    ExitFoldWellFormed(EnterFold(p, s, s.ids), s, Concerning(p.order, s.tenant, s.entity));
    forall k
      ensures Settles(p, Evaluate(p, s), s, k)
    {
      EvaluateAt(p, s, k);
    }
  }

  /** The outbox message of each event, in emission order. */
  function Messages(events: seq<GeofenceEvent>): seq<OutboxMessage> {
    if events == [] then []
    else
      var e := events[|events| - 1];
      Messages(events[..|events| - 1]) + [NewMessage(e.key.tenant, Geofence(e))]
  }

  ghost predicate Announced(base: seq<OutboxMessage>, p: Progress) {
    p.outbox == base + Messages(p.events)
  }

  lemma EmitAnnounced(base: seq<OutboxMessage>, p: Progress, e: GeofenceEvent)
    requires Announced(base, p)
    ensures Announced(base, p.Emit(e))
  {
    assert (p.events + [e])[..|p.events|] == p.events;
  }

  lemma {:induction false} EnterFoldAnnounced(base: seq<OutboxMessage>, p: Progress, s: Sighting, ids: seq<nat>)
    requires Announced(base, p)
    ensures Announced(base, EnterFold(p, s, ids))
  {
    if ids == [] {
    } else {
      var mid, k := EnterFold(p, s, ids[..|ids| - 1]), s.Key(ids[|ids| - 1]);
      EnterFoldAnnounced(base, p, s, ids[..|ids| - 1]);
      EmitAnnounced(base, mid, s.Event(Enter, k));
    }
  }

  lemma {:induction false} ExitFoldAnnounced(base: seq<OutboxMessage>, p: Progress, s: Sighting, keys: seq<StateKey>)
    requires Announced(base, p)
    ensures Announced(base, ExitFold(p, s, keys))
  {
    if keys == [] {
    } else {
      var mid, k := ExitFold(p, s, keys[..|keys| - 1]), keys[|keys| - 1];
      ExitFoldAnnounced(base, p, s, keys[..|keys| - 1]);
      EmitAnnounced(base, mid, s.Event(Exit, k));
    }
  }

  /** The messages an evaluation enqueues are exactly its events, in order. */
  lemma EvaluateAnnounced(base: seq<OutboxMessage>, p: Progress, s: Sighting)
    requires Announced(base, p)
    ensures Announced(base, Evaluate(p, s))
  {
    EnterFoldAnnounced(base, p, s, s.ids);
    ExitFoldAnnounced(base, EnterFold(p, s, s.ids), s, Concerning(p.order, s.tenant, s.entity));
  }

  // ---------------------------------------------------------------- any run of evaluations

  function Run(p: Progress, sightings: seq<Sighting>): Progress {
    if sightings == [] then p
    else Evaluate(Run(p, sightings[..|sightings| - 1]), sightings[|sightings| - 1])
  }

  ghost predicate Faithful(sightings: seq<Sighting>) {
    forall i :: 0 <= i < |sightings| ==> Distinct(sightings[i].ids)
  }

  function Count(log: seq<GeofenceEvent>, d: Direction): nat {
    if log == [] then 0 else Count(log[..|log| - 1], d) + if log[|log| - 1].direction == d then 1 else 0
  }

  function Bit(t: StateTable, k: StateKey): int { if Inside(t, k) then 1 else 0 }

  /** The log of one key since `p`, against the state rows it began and ended with. */
  ghost predicate Chronicle(p: Progress, q: Progress, k: StateKey, log: seq<GeofenceEvent>) {
    && (forall i :: 0 <= i < |log| ==>
          log[i].key == k && (log[i].direction == Enter <==> (i % 2 == 0) != Inside(p.states, k)))
    && (|log| % 2 == 0 <==> Inside(p.states, k) == Inside(q.states, k))
    && Count(log, Enter) - Count(log, Exit) == Bit(q.states, k) - Bit(p.states, k)
    && (if log == [] then (k in q.states <==> k in p.states) && (k in p.states ==> q.states[k].since == p.states[k].since)
        else k in q.states && q.states[k].since == log[|log| - 1].occurredAt)
  }

  lemma ChronicleStep(p: Progress, mid: Progress, q: Progress, s: Sighting, k: StateKey, log: seq<GeofenceEvent>)
    requires Chronicle(p, mid, k, log) && Settles(mid, q, s, k)
    ensures Chronicle(p, q, k, log + Transition(mid.states, s, k))
  {
    var more := Transition(mid.states, s, k);
    if more == [] {
      assert log + more == log;
    } else {
      assert (log + more)[..|log|] == log;
    }
  }

  /**
   Over any run, the events of a key alternate beginning with the opposite of where it started,
   enters minus exits is the change of membership, and `since` is the time of the last event.
   */
  lemma {:induction false} History(p: Progress, sightings: seq<Sighting>, k: StateKey)
    requires WellFormed(p) && p.events == [] && Faithful(sightings)
    ensures WellFormed(Run(p, sightings))
    ensures Chronicle(p, Run(p, sightings), k, For(Run(p, sightings).events, k))
  {
    if sightings == [] {
    } else {
      var init, s := sightings[..|sightings| - 1], sightings[|sightings| - 1];
      History(p, init, k);
      var mid := Run(p, init);
      StepRefinement(mid, s);
      assert Settles(mid, Evaluate(mid, s), s, k);
      ChronicleStep(p, mid, Evaluate(mid, s), s, k, For(mid.events, k));
    }
  }

  /** From an empty table: events start with enter, and a key is inside exactly after an odd number of them. */
  lemma HistoryFromEmpty(sightings: seq<Sighting>, outbox: seq<OutboxMessage>, k: StateKey)
    requires Faithful(sightings)
    ensures var q := Run(Progress(map[], [], outbox, []), sightings);
            var log := For(q.events, k);
            && (forall i :: 0 <= i < |log| ==> (log[i].direction == Enter <==> i % 2 == 0))
            && Count(log, Enter) - Count(log, Exit) == (if Inside(q.states, k) then 1 else 0)
            && (k in q.states <==> log != [])
            && (log != [] ==> q.states[k].since == log[|log| - 1].occurredAt)
  {
    History(Progress(map[], [], outbox, []), sightings, k);
  }
}
