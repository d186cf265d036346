/** The transactional outbox: claim in creation order, publish or write, mark, commit. */
module Outbox {
  import opened Wrappers
  import opened Database
  import Analytics

  /** How one publication ends: it may take effect and still be reported as an error. */
  datatype Effect = Done | DoneButReported | NotDone

  /** The outbox rows, and what has irrevocably left: publications, and analytics ids written. */
  datatype Relay = Relay(messages: seq<OutboxMessage>, stream: seq<nat>, warehouse: seq<string>)

  function Backlog(messages: seq<OutboxMessage>): seq<nat> {
    if messages == [] then []
    else
      var n := |messages| - 1;
      Backlog(messages[..n]) + if messages[n].publishedAt.None? then [n] else []
  }

  function Take(s: seq<nat>, limit: nat): seq<nat> { if |s| <= limit then s else s[..limit] }

  function Claim(messages: seq<OutboxMessage>, limit: nat): seq<nat> { Take(Backlog(messages), limit) }

  function Mark(messages: seq<OutboxMessage>, i: nat, effect: Effect, now: Time): seq<OutboxMessage>
    requires i < |messages|
  {
    if effect == Done then messages[i := messages[i].(publishedAt := Some(now))]
    else messages[i := messages[i].(attempts := messages[i].attempts + 1)]
  }

  /** The ids a message writes to the warehouse, and whether doing so calls the server at all. */
  function Ids(sink: Analytics.Sink, m: OutboxMessage): seq<string> {
    if m.payload.Analytics? && sink.enabled then Analytics.Identities(sink.hash, m.payload.rowsTenant, m.payload.rows) else []
  }

  function Outcome(sink: Analytics.Sink, m: OutboxMessage, effect: Effect): Effect {
    if m.payload.Analytics? && Ids(sink, m) == [] then Done else effect
  }

  function Process(r: Relay, sink: Analytics.Sink, i: nat, effect: Effect, now: Time): Relay {
    if i >= |r.messages| then r
    else
      var m, e := r.messages[i], Outcome(sink, r.messages[i], effect);
      var out := if e == NotDone then r
                 else if m.payload.Analytics? then r.(warehouse := r.warehouse + Ids(sink, m))
                 else r.(stream := r.stream + [i]);
      out.(messages := Mark(r.messages, i, e, now))
  }

  function ProcessAll(r: Relay, sink: Analytics.Sink, ids: seq<nat>, effects: nat -> Effect, now: Time): Relay {
    if ids == [] then r
    else
      var last := ids[|ids| - 1];
      Process(ProcessAll(r, sink, ids[..|ids| - 1], effects, now), sink, last, effects(last), now)
  }

  /** One batch.  A crash after `crash` messages loses the marks, not what has already left. */
  function Batch(r: Relay, sink: Analytics.Sink, limit: nat, effects: nat -> Effect, now: Time, crash: Option<nat>): Relay {
    var ids := Claim(r.messages, limit);
    if crash.Some? && crash.value <= |ids| then
      ProcessAll(r, sink, ids[..crash.value], effects, now).(messages := r.messages)
    else ProcessAll(r, sink, ids, effects, now)
  }

  // ---------------------------------------------------------------- the dispatcher

  /** What is outside the transaction: the message stream and the analytics store. */
  class Broker {
    var stream: seq<nat>
    var warehouse: seq<string>
  }

  ghost function View(session: Session, broker: Broker): Relay
    reads session, broker
  {
    Relay(session.outbox, broker.stream, broker.warehouse)
  }

  lemma {:induction false} BacklogSorted(messages: seq<OutboxMessage>)
    ensures forall j :: 0 <= j < |Backlog(messages)| ==> Backlog(messages)[j] < |messages|
    ensures forall j, k :: 0 <= j < k < |Backlog(messages)| ==> Backlog(messages)[j] < Backlog(messages)[k]
  {
    if messages == [] {
    } else {
      BacklogSorted(messages[..|messages| - 1]);
    }
  }

  lemma {:induction false} BacklogMember(messages: seq<OutboxMessage>, i: nat)
    ensures i in Backlog(messages) <==> i < |messages| && messages[i].publishedAt.None?
  {
    if messages == [] {
    } else {
      var init := messages[..|messages| - 1];
      BacklogMember(init, i);
      assert i < |init| ==> init[i] == messages[i];
    }
  }

  lemma BacklogMembers(messages: seq<OutboxMessage>)
    ensures forall i: nat :: i in Backlog(messages) <==> i < |messages| && messages[i].publishedAt.None?
    ensures forall j, k :: 0 <= j < k < |Backlog(messages)| ==> Backlog(messages)[j] < Backlog(messages)[k]
  {
    BacklogSorted(messages);
    forall i: nat
      ensures i in Backlog(messages) <==> i < |messages| && messages[i].publishedAt.None?
    {
      BacklogMember(messages, i);
    }
  }

  /** One message of a batch: the outside effect now, the mark in the transaction's working copy. */
  method PublishOne(broker: Broker, sink: Analytics.Sink, messages: seq<OutboxMessage>, i: nat, effect: Effect, now: Time)
    returns (marked: seq<OutboxMessage>)
    requires i < |messages|
    modifies broker
    ensures Relay(marked, broker.stream, broker.warehouse)
            == Process(Relay(messages, old(broker.stream), old(broker.warehouse)), sink, i, effect, now)
  {
    var m, e := messages[i], effect;
    if m.payload.Analytics? {
      var written := [];
      if m.payload.rows != [] {
        written := Analytics.WriteObservations(sink, m.payload.rows, m.payload.rowsTenant);
      }
      if written == [] {
        e := Done;
      } else if e != NotDone {
        broker.warehouse := broker.warehouse + written;
      }
    } else if e != NotDone {
      broker.stream := broker.stream + [i];
    }
    marked := Mark(messages, i, e, now);
  }

  /** `OutboxDispatcher.process_batch`; the marks become visible only with the final assignment, the commit. */
  method ProcessBatch(session: Session, broker: Broker, sink: Analytics.Sink, limit: nat, effects: nat -> Effect,
                      now: Time, crash: Option<nat>)
    modifies session`outbox, broker
    ensures View(session, broker) == Batch(old(View(session, broker)), sink, limit, effects, now, crash)
  {
    ghost var r := View(session, broker);
    var messages := session.outbox;
    var ids := Claim(messages, limit);
    BacklogMembers(messages);
    for n := 0 to |ids|
      invariant crash.Some? ==> n <= crash.value
      invariant session.outbox == r.messages && |messages| == |r.messages|
      invariant Relay(messages, broker.stream, broker.warehouse) == ProcessAll(r, sink, ids[..n], effects, now)
    {
      if crash == Some(n) {
        return;
      }
      assert ids[..n + 1][..n] == ids[..n];
      assert ids[n] in Backlog(session.outbox);
      messages := PublishOne(broker, sink, messages, ids[n], effects(ids[n]), now);
    }
    assert ids[..|ids|] == ids;
    if crash != Some(|ids|) {
      session.outbox := messages;
    }
  }
}
