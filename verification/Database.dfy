/**
 The tables the pipeline reads and writes, and the session that updates them.

 `Db` is the value of the whole database; `Session` is the object the services mutate, and
 `Session.View()` is the `Db` it currently holds.  Only the geofence-state rows are objects of
 their own, because only they are reached through two aliases at once.
 */
module Database {
  import opened Wrappers

  /** Microseconds since 1970-01-01 UTC; negative before it. */
  type Time = int
  const SECOND: Time := 1_000_000

  // ---------------------------------------------------------------- observations and entities

  datatype Position = Position(lon: real, lat: real, altitude: Option<real>)

  datatype Observation = Observation(
    entityId: string,
    entityType: string,
    sourceId: string,
    observedAt: Time,
    position: Option<Position>,
    attributes: map<string, string>,
    detail: string)

  datatype ObservationKey = ObservationKey(tenant: string, source: string, entity: string, observedAt: Time)

  datatype EntityKey = EntityKey(tenant: string, entity: string)

  datatype Entity = Entity(
    entityType: string,
    firstSeen: Option<Time>,
    lastSeen: Option<Time>,
    properties: Option<map<string, string>>)

  datatype SourceRun = SourceRun(tenant: string, source: string, seen: nat, normalized: nat)

  // ---------------------------------------------------------------- geofences

  datatype Fence = Fence(
    id: nat,
    tenant: string,
    enabled: bool,
    minAltitude: Option<real>,
    maxAltitude: Option<real>)

  datatype StateKey = StateKey(tenant: string, fence: nat, entity: string)

  datatype StateCell = StateCell(inside: bool, since: Time, updatedAt: Time)

  type StateTable = map<StateKey, StateCell>

  datatype Direction = Enter | Exit

  datatype GeofenceEvent = GeofenceEvent(
    direction: Direction,
    key: StateKey,
    occurredAt: Time,
    position: Position,
    entityType: Option<string>)

  // ---------------------------------------------------------------- alerts

  /** An entry of a rule's channel list: text that either parses to a channel id or does not. */
  datatype ChannelRef = ChannelId(id: nat) | Malformed(text: string)

  datatype Channel = Channel(tenant: string, channelType: string, enabled: bool)

  datatype Rule = Rule(
    id: nat,
    tenant: string,
    fence: nat,
    onEnter: bool,
    onExit: bool,
    channels: seq<ChannelRef>,
    entityTypes: seq<string>,
    severity: string,
    enabled: bool,
    silenceUntil: Option<Time>)

  datatype AlertStatus = Open | Acked | Resolved

  datatype Alert = Alert(
    id: nat,
    tenant: string,
    rule: nat,
    severity: string,
    status: AlertStatus,
    event: GeofenceEvent)

  datatype DeliveryStatus = Pending | Sending | Delivered | Failed | Skipped

  datatype Delivery = Delivery(
    id: nat,
    tenant: string,
    alert: nat,
    channel: nat,
    channelType: string,
    status: DeliveryStatus,
    attempts: nat,
    maxAttempts: nat,
    nextAttemptAt: Option<Time>,
    claimedBy: Option<string>,
    leaseUntil: Option<Time>)

  // ---------------------------------------------------------------- outbox

  datatype AnalyticsRow = AnalyticsRow(
    entityId: string,
    entityType: string,
    sourceId: string,
    observedAt: Time,
    position: Option<Position>)

  datatype Payload =
    | Geofence(event: GeofenceEvent)
    | Correlation(finding: string)
    | AlertRetry(events: seq<GeofenceEvent>)
    | Completed(source: string, inserted: nat, jobType: string)
    | Analytics(rowsTenant: string, rows: seq<AnalyticsRow>)

  datatype OutboxMessage = OutboxMessage(
    tenant: string,
    payload: Payload,
    attempts: nat,
    publishedAt: Option<Time>)

  function NewMessage(tenant: string, payload: Payload): OutboxMessage {
    OutboxMessage(tenant, payload, 0, None)
  }

  // ---------------------------------------------------------------- the database

  /** What ingestion only reads: configuration rows, and the spatial and correlation tests. */
  datatype World = World(
    fences: seq<Fence>,
    rules: seq<Rule>,
    channels: map<nat, Channel>,
    covers: (nat, Position) -> bool,
    detect: Observation -> seq<string>)

  /** `stateOrder` lists the geofence-state keys in row order. */
  datatype Db = Db(
    entities: map<EntityKey, Entity>,
    observations: map<ObservationKey, Observation>,
    states: StateTable,
    stateOrder: seq<StateKey>,
    alerts: seq<Alert>,
    deliveries: seq<Delivery>,
    outbox: seq<OutboxMessage>,
    runs: seq<SourceRun>)

  class StateRow {
    const key: StateKey
    var inside: bool
    var since: Time
    var updatedAt: Time

    constructor (key: StateKey, inside: bool, since: Time, updatedAt: Time)
      ensures this.key == key && Cell() == StateCell(inside, since, updatedAt)
    {
      this.key := key;
      this.inside := inside;
      this.since := since;
      this.updatedAt := updatedAt;
    }

    ghost function Cell(): StateCell
      reads this
    {
      StateCell(inside, since, updatedAt)
    }

    /** Sets membership; `since` moves only when it changes. */
    method Update(inside: bool, at: Time)
      modifies this
      ensures Cell() == StateCell(inside, if old(this.inside) != inside then at else old(since), at)
    {
      if this.inside != inside {
        this.inside := inside;
        since := at;
      }
      updatedAt := at;
    }
  }

  ghost predicate Distinct<T(!new)>(s: seq<T>) {
    forall i, j :: 0 <= i < j < |s| ==> s[i] != s[j]
  }

  class Session {
    var entities: map<EntityKey, Entity>
    var observations: map<ObservationKey, Observation>
    var rows: seq<StateRow>
    var alerts: seq<Alert>
    var deliveries: seq<Delivery>
    var outbox: seq<OutboxMessage>
    var runs: seq<SourceRun>

    /** The geofence-state rows by key and what they hold, their keys in row order, and the rows as a set. */
    ghost var index: map<StateKey, StateRow>
    ghost var states: StateTable
    ghost var order: seq<StateKey>
    ghost var Repr: set<StateRow>

    /** Rows are unique per (tenant, geofence, entity), and the ghost fields say what they are. */
    ghost predicate Valid()
      reads `rows, `index, `states, `order, `Repr, Repr
    {
      && (forall r :: r in Repr ==> r.key in index && index[r.key] == r)
      && (forall k :: k in index ==> index[k] in Repr && index[k].key == k)
      && (forall k :: k in index ==> k in states && states[k] == index[k].Cell())
      && (forall k :: k in states ==> k in index)
      && Listed(rows, order, index)
    }

    /** The rows in table order are those of the index, each once. */
    static ghost predicate Listed(rows: seq<StateRow>, order: seq<StateKey>, index: map<StateKey, StateRow>) {
      && |order| == |rows| && Distinct(order)
      && (forall i :: 0 <= i < |rows| ==> order[i] in index && index[order[i]] == rows[i])
      && (forall k :: k in index ==> k in order)
    }

    ghost function View(): Db
      reads this
    {
      Db(entities, observations, states, order, alerts, deliveries, outbox, runs)
    }

    method Enqueue(tenant: string, payload: Payload)
      modifies this`outbox
      ensures outbox == old(outbox) + [NewMessage(tenant, payload)]
    {
      outbox := outbox + [NewMessage(tenant, payload)];
    }
  }
}
