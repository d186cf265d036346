/** Head-of-line blocking in the outbox: exactly which pending messages are never published. */
module OutboxBlocking {
  import opened Arithmetic
  import opened Wrappers
  import opened Database
  import opened Outbox
  import opened OutboxLaws
  import Analytics

  predicate Waits(messages: seq<OutboxMessage>, i: nat) { i < |messages| && messages[i].publishedAt.None? }

  /** How many pending messages are older than `i`. */
  function Older(messages: seq<OutboxMessage>, i: nat): nat
    requires i <= |messages|
  {
    if i == 0 then 0 else Older(messages, i - 1) + if Waits(messages, i - 1) then 1 else 0
  }

  /** `i` waits, and publishing it fails. */
  predicate Hopeless(r: Relay, sink: Analytics.Sink, effects: nat -> Effect, i: nat) {
    Waits(r.messages, i) && Outcome(sink, r.messages[i], effects(i)) != Done
  }

  /** How many pending messages older than `i` fail. */
  function OlderHopeless(r: Relay, sink: Analytics.Sink, effects: nat -> Effect, i: nat): nat
    requires i <= |r.messages|
  {
    if i == 0 then 0 else OlderHopeless(r, sink, effects, i - 1) + if Hopeless(r, sink, effects, i - 1) then 1 else 0
  }

  // ---------------------------------------------------------------- places in the backlog

  lemma {:induction false} OlderIsBacklog(messages: seq<OutboxMessage>, i: nat)
    requires i <= |messages|
    ensures |Backlog(messages[..i])| == Older(messages, i)
  {
    if i == 0 {
    } else {
      OlderIsBacklog(messages, i - 1);
      assert messages[..i][..i - 1] == messages[..i - 1];
    }
  }

  /** A waiting message stands in the backlog behind its older ones. */
  lemma PlaceInBacklog(messages: seq<OutboxMessage>, i: nat)
    requires Waits(messages, i)
    ensures Older(messages, i) < |Backlog(messages)| && Backlog(messages)[Older(messages, i)] == i
  {
    var b := Backlog(messages[..i + 1]);
    assert messages[..i + 1][..i] == messages[..i];
    OlderIsBacklog(messages, i);
    assert b == Backlog(messages[..i]) + [i];
    BacklogExtends(messages[..i + 1], messages[i + 1..]);
    assert messages[..i + 1] + messages[i + 1..] == messages;
    assert Backlog(messages)[..|b|][|b| - 1] == b[|b| - 1];
  }

  /** It is claimed if and only if fewer than `limit` older ones wait. */
  lemma ClaimedIff(messages: seq<OutboxMessage>, limit: nat, i: nat)
    ensures i in Claim(messages, limit) <==> Waits(messages, i) && Older(messages, i) < limit
  {
    BacklogMembers(messages);
    var b, c := Backlog(messages), Claim(messages, limit);
    if Waits(messages, i) {
      PlaceInBacklog(messages, i);
      if Older(messages, i) < limit {
        assert c[Older(messages, i)] == i;
      } else {
        assert forall j :: 0 <= j < |c| ==> c[j] == b[j] && b[j] != i;
      }
    } else {
      assert forall j :: 0 <= j < |c| ==> c[j] == b[j] && b[j] in b;
    }
  }

  lemma {:induction false} HopelessFewer(r: Relay, sink: Analytics.Sink, effects: nat -> Effect, i: nat)
    requires i <= |r.messages|
    ensures OlderHopeless(r, sink, effects, i) <= Older(r.messages, i)
  {
    if i == 0 {
    } else {
      HopelessFewer(r, sink, effects, i - 1);
    }
  }

  /** If fewer than `limit` of the older ones are hopeless, one of the first `limit` older ones is not. */
  lemma {:induction false} HopefulAmongFirst(r: Relay, sink: Analytics.Sink, effects: nat -> Effect, limit: nat, i: nat)
    returns (j: nat)
    requires i <= |r.messages|
    requires OlderHopeless(r, sink, effects, i) < Min(limit, Older(r.messages, i))
    ensures j < i && Waits(r.messages, j) && Older(r.messages, j) < limit && !Hopeless(r, sink, effects, j)
  {
    if Waits(r.messages, i - 1) && Older(r.messages, i - 1) < limit && !Hopeless(r, sink, effects, i - 1) {
      j := i - 1;
    } else {
      j := HopefulAmongFirst(r, sink, effects, limit, i - 1);
    }
  }

  // ---------------------------------------------------------------- one batch

  /** What a batch does to a message: still the same one, and marked only when claimed and successful. */
  ghost predicate Step(r: Relay, q: Relay, sink: Analytics.Sink, limit: nat, effects: nat -> Effect, j: nat) {
    && j < |r.messages| <= |q.messages| && q.messages[j].payload == r.messages[j].payload
    && (Waits(q.messages, j) ==> Waits(r.messages, j))
    && (Waits(r.messages, j) && !Waits(q.messages, j) ==>
          j in Claim(r.messages, limit) && Outcome(sink, r.messages[j], effects(j)) == Done)
  }

  lemma BatchStep(r: Relay, sink: Analytics.Sink, limit: nat, effects: nat -> Effect, now: Time, crash: Option<nat>, j: nat)
    requires MarkedHaveLeft(r, sink) && j < |r.messages|
    ensures Step(r, Batch(r, sink, limit, effects, now, crash), sink, limit, effects, j)
    ensures crash.None? && j in Claim(r.messages, limit) && Outcome(sink, r.messages[j], effects(j)) == Done ==>
              !Waits(Batch(r, sink, limit, effects, now, crash).messages, j)
  {
    var ids := Claim(r.messages, limit);
    var n := if crash.Some? && crash.value <= |ids| then crash.value else |ids|;
    ClaimClaimable(r, limit, n);
    assert ids[..|ids|] == ids;
    ProcessAllKeeps(r, sink, ids[..n], effects, now);
    BatchKeeps(r, sink, limit, effects, now, crash);
  }

  lemma BatchLength(r: Relay, sink: Analytics.Sink, limit: nat, effects: nat -> Effect, now: Time, crash: Option<nat>)
    requires MarkedHaveLeft(r, sink)
    ensures |Batch(r, sink, limit, effects, now, crash).messages| == |r.messages|
  {
    var ids := Claim(r.messages, limit);
    var n := if crash.Some? && crash.value <= |ids| then crash.value else |ids|;
    ClaimClaimable(r, limit, n);
    assert ids[..|ids|] == ids;
    ProcessAllKeeps(r, sink, ids[..n], effects, now);
  }

  lemma {:induction false} OlderFalls(p: seq<OutboxMessage>, q: seq<OutboxMessage>, i: nat, j: nat)
    requires i <= |p| <= |q|
    requires forall k: nat :: k < i ==> (Waits(q, k) ==> Waits(p, k))
    ensures Older(q, i) <= Older(p, i)
    ensures j < i && Waits(p, j) && !Waits(q, j) ==> Older(q, i) < Older(p, i)
  {
    if i == 0 {
    } else {
      OlderFalls(p, q, i - 1, j);
    }
  }

  lemma {:induction false} HopelessStay(r: Relay, q: Relay, sink: Analytics.Sink, effects: nat -> Effect, i: nat)
    requires i <= |r.messages| <= |q.messages|
    requires forall k: nat :: k < i ==> (Hopeless(q, sink, effects, k) <==> Hopeless(r, sink, effects, k))
    ensures OlderHopeless(q, sink, effects, i) == OlderHopeless(r, sink, effects, i)
  {
    if i == 0 {
    } else {
      HopelessStay(r, q, sink, effects, i - 1);
    }
  }

  lemma OutcomeByPayload(sink: Analytics.Sink, a: OutboxMessage, b: OutboxMessage, effect: Effect)
    requires a.payload == b.payload
    ensures Outcome(sink, a, effect) == Outcome(sink, b, effect)
  {
  }

  lemma StepKeepsHopeless(r: Relay, q: Relay, sink: Analytics.Sink, limit: nat, effects: nat -> Effect, j: nat)
    requires Step(r, q, sink, limit, effects, j)
    ensures Hopeless(q, sink, effects, j) <==> Hopeless(r, sink, effects, j)
  {
    OutcomeByPayload(sink, q.messages[j], r.messages[j], effects(j));
  }

  // ---------------------------------------------------------------- rounds of batches

  function Rounds(r: Relay, sink: Analytics.Sink, limit: nat, effects: nat -> Effect, now: Time, n: nat): Relay {
    if n == 0 then r else Batch(Rounds(r, sink, limit, effects, now, n - 1), sink, limit, effects, now, None)
  }

  /** What the rounds so far keep of the messages up to `i`. */
  ghost predicate Kept(r: Relay, q: Relay, sink: Analytics.Sink, effects: nat -> Effect, i: nat) {
    && MarkedHaveLeft(q, sink) && i < |r.messages| == |q.messages| && q.messages[i].payload == r.messages[i].payload
    && OlderHopeless(q, sink, effects, i) == OlderHopeless(r, sink, effects, i)
  }

  lemma BatchKept(r: Relay, q: Relay, sink: Analytics.Sink, limit: nat, effects: nat -> Effect, now: Time, i: nat)
    requires Kept(r, q, sink, effects, i)
    ensures Kept(r, Batch(q, sink, limit, effects, now, None), sink, effects, i)
    ensures Older(Batch(q, sink, limit, effects, now, None).messages, i) <= Older(q.messages, i)
  {
    var b := Batch(q, sink, limit, effects, now, None);
    BatchKeeps(q, sink, limit, effects, now, None);
    BatchLength(q, sink, limit, effects, now, None);
    forall k: nat | k <= i
      ensures Step(q, b, sink, limit, effects, k) && (Hopeless(b, sink, effects, k) <==> Hopeless(q, sink, effects, k))
    {
      BatchStep(q, sink, limit, effects, now, None, k);
      StepKeepsHopeless(q, b, sink, limit, effects, k);
    }
    HopelessStay(q, b, sink, effects, i);
    OlderFalls(q.messages, b.messages, i, 0);
  }

  lemma {:induction false} RoundsKept(r: Relay, sink: Analytics.Sink, limit: nat, effects: nat -> Effect, now: Time, i: nat, n: nat)
    requires MarkedHaveLeft(r, sink) && i < |r.messages|
    ensures Kept(r, Rounds(r, sink, limit, effects, now, n), sink, effects, i)
  {
    if n == 0 {
    } else {
      RoundsKept(r, sink, limit, effects, now, i, n - 1);
      BatchKept(r, Rounds(r, sink, limit, effects, now, n - 1), sink, limit, effects, now, i);
    }
  }

  /** One more batch publishes a hopeful message or one older than it. */
  lemma RoundProgress(q: Relay, sink: Analytics.Sink, limit: nat, effects: nat -> Effect, now: Time, i: nat)
    requires MarkedHaveLeft(q, sink) && Waits(q.messages, i) && !Hopeless(q, sink, effects, i)
    requires OlderHopeless(q, sink, effects, i) < limit
    ensures var b := Batch(q, sink, limit, effects, now, None);
            |b.messages| == |q.messages| && (!Waits(b.messages, i) || Older(b.messages, i) < Older(q.messages, i))
  {
    var b := Batch(q, sink, limit, effects, now, None);
    BatchLength(q, sink, limit, effects, now, None);
    if Older(q.messages, i) < limit {
      ClaimedIff(q.messages, limit, i);
      BatchStep(q, sink, limit, effects, now, None, i);
    } else {
      var j := HopefulAmongFirst(q, sink, effects, limit, i);
      ClaimedIff(q.messages, limit, j);
      BatchStep(q, sink, limit, effects, now, None, j);
      forall k: nat | k < i
        ensures Waits(b.messages, k) ==> Waits(q.messages, k)
      {
        BatchStep(q, sink, limit, effects, now, None, k);
      }
      OlderFalls(q.messages, b.messages, i, j);
    }
  }

  predicate PublishedBy(r: Relay, sink: Analytics.Sink, limit: nat, effects: nat -> Effect, now: Time, i: nat, n: nat) {
    var q := Rounds(r, sink, limit, effects, now, n);
    i < |q.messages| && q.messages[i].publishedAt.Some?
  }

  lemma HopefulStays(r: Relay, q: Relay, sink: Analytics.Sink, effects: nat -> Effect, i: nat)
    requires Kept(r, q, sink, effects, i) && Outcome(sink, r.messages[i], effects(i)) == Done
    ensures !Hopeless(q, sink, effects, i)
  {
    OutcomeByPayload(sink, q.messages[i], r.messages[i], effects(i));
  }

  /** One round more: the message has left, or has fewer older ones. */
  lemma OneRound(r: Relay, sink: Analytics.Sink, limit: nat, effects: nat -> Effect, now: Time, i: nat, n: nat)
    requires MarkedHaveLeft(r, sink) && i < |r.messages| && Outcome(sink, r.messages[i], effects(i)) == Done
    requires OlderHopeless(r, sink, effects, i) < limit
    ensures var q, b := Rounds(r, sink, limit, effects, now, n).messages, Rounds(r, sink, limit, effects, now, n + 1).messages;
            && i < |q| == |b|
            && if Waits(q, i) then !Waits(b, i) || Older(b, i) < Older(q, i) else PublishedBy(r, sink, limit, effects, now, i, n)
  {
    var q := Rounds(r, sink, limit, effects, now, n);
    RoundsKept(r, sink, limit, effects, now, i, n);
    HopefulStays(r, q, sink, effects, i);
    if Waits(q.messages, i) {
      RoundProgress(q, sink, limit, effects, now, i);
    } else {
      BatchLength(q, sink, limit, effects, now, None);
    }
  }

  /** A hopeful message with fewer than `limit` hopeless ones before it leaves within as many rounds as it has
      older ones, and one. */
  lemma {:induction false} ReachedFrom(r: Relay, sink: Analytics.Sink, limit: nat, effects: nat -> Effect, now: Time, i: nat, n: nat, k: nat)
    returns (m: nat)
    requires MarkedHaveLeft(r, sink) && i < |r.messages| && Outcome(sink, r.messages[i], effects(i)) == Done
    requires OlderHopeless(r, sink, effects, i) < limit
    requires i < |Rounds(r, sink, limit, effects, now, n).messages|
    requires Older(Rounds(r, sink, limit, effects, now, n).messages, i) <= k
    ensures PublishedBy(r, sink, limit, effects, now, i, m) && m <= n + k + 1
    decreases k
  {
    OneRound(r, sink, limit, effects, now, i, n);
    if Waits(Rounds(r, sink, limit, effects, now, n).messages, i) {
      if k == 0 || !Waits(Rounds(r, sink, limit, effects, now, n + 1).messages, i) {
        OneRound(r, sink, limit, effects, now, i, n + 1);
        m := n + 1;
      } else {
        m := ReachedFrom(r, sink, limit, effects, now, i, n + 1, k - 1);
      }
    } else {
      m := n;
    }
  }

  lemma BatchSkips(r: Relay, q: Relay, sink: Analytics.Sink, limit: nat, effects: nat -> Effect, now: Time, i: nat)
    requires Kept(r, q, sink, effects, i) && Waits(q.messages, i) && OlderHopeless(r, sink, effects, i) >= limit
    ensures var b := Batch(q, sink, limit, effects, now, None); Kept(r, b, sink, effects, i) && Waits(b.messages, i)
  {
    BatchKept(r, q, sink, limit, effects, now, i);
    HopelessFewer(q, sink, effects, i);
    ClaimedIff(q.messages, limit, i);
    BatchStep(q, sink, limit, effects, now, None, i);
  }

  lemma {:induction false} NeverReached(r: Relay, sink: Analytics.Sink, limit: nat, effects: nat -> Effect, now: Time, i: nat, n: nat)
    requires MarkedHaveLeft(r, sink) && Waits(r.messages, i) && OlderHopeless(r, sink, effects, i) >= limit
    ensures Kept(r, Rounds(r, sink, limit, effects, now, n), sink, effects, i)
    ensures Waits(Rounds(r, sink, limit, effects, now, n).messages, i)
  {
    if n == 0 {
    } else {
      NeverReached(r, sink, limit, effects, now, i, n - 1);
      BatchSkips(r, Rounds(r, sink, limit, effects, now, n - 1), sink, limit, effects, now, i);
    }
  }

  /**
   The exact condition: under fixed outcomes a pending message that can be published is published
   after some number of batches if and only if fewer than `limit` pending messages older than it
   fail; and then within as many batches as it has older ones, and one.
   */
  lemma PublishedIff(r: Relay, sink: Analytics.Sink, limit: nat, effects: nat -> Effect, now: Time, i: nat)
    requires MarkedHaveLeft(r, sink) && Waits(r.messages, i) && Outcome(sink, r.messages[i], effects(i)) == Done
    ensures (exists n: nat :: PublishedBy(r, sink, limit, effects, now, i, n)) <==> OlderHopeless(r, sink, effects, i) < limit
    ensures OlderHopeless(r, sink, effects, i) < limit ==>
              exists n: nat :: n <= Older(r.messages, i) + 1 && PublishedBy(r, sink, limit, effects, now, i, n)
  {
    if OlderHopeless(r, sink, effects, i) < limit {
      var m := ReachedFrom(r, sink, limit, effects, now, i, 0, Older(r.messages, i));
      assert PublishedBy(r, sink, limit, effects, now, i, m) && m <= Older(r.messages, i) + 1;
    } else {
      forall n: nat
        ensures !PublishedBy(r, sink, limit, effects, now, i, n)
      {
        NeverReached(r, sink, limit, effects, now, i, n);
      }
    }
  }

  // ---------------------------------------------------------------- any run

  /** Attempts take `limit` messages, and those that fail under `effects` among the older ones fail again. */
  ghost predicate FailAgain(r: Relay, sink: Analytics.Sink, limit: nat, effects: nat -> Effect, i: nat, actions: seq<Action>) {
    forall n :: 0 <= n < |actions| ==>
      match actions[n]
      case Enqueue(messages) => Unmarked(messages)
      case Attempt(l, again, _, _) =>
        l == limit && forall j: nat :: j < i && Hopeless(r, sink, effects, j) ==> Outcome(sink, r.messages[j], again(j)) != Done
  }

  /** The message still waits, and so do the hopeless ones before it. */
  ghost predicate StillWaits(r: Relay, q: Relay, sink: Analytics.Sink, effects: nat -> Effect, i: nat) {
    && i < |r.messages| <= |q.messages| && Waits(q.messages, i)
    && (forall j: nat :: j < i ==> q.messages[j].payload == r.messages[j].payload)
    && (forall j: nat :: j < i && Hopeless(r, sink, effects, j) ==> Waits(q.messages, j))
  }

  lemma {:induction false} OlderCountsHopeless(r: Relay, q: Relay, sink: Analytics.Sink, effects: nat -> Effect, i: nat)
    requires i <= |r.messages| <= |q.messages|
    requires forall j: nat :: j < i && Hopeless(r, sink, effects, j) ==> Waits(q.messages, j)
    ensures OlderHopeless(r, sink, effects, i) <= Older(q.messages, i)
  {
    if i == 0 {
    } else {
      OlderCountsHopeless(r, q, sink, effects, i - 1);
    }
  }

  lemma AttemptStillWaits(r: Relay, q: Relay, sink: Analytics.Sink, limit: nat, effects: nat -> Effect, i: nat,
                          again: nat -> Effect, now: Time, crash: Option<nat>)
    requires MarkedHaveLeft(q, sink) && StillWaits(r, q, sink, effects, i) && OlderHopeless(r, sink, effects, i) >= limit
    requires forall j: nat :: j < i && Hopeless(r, sink, effects, j) ==> Outcome(sink, r.messages[j], again(j)) != Done
    ensures StillWaits(r, Batch(q, sink, limit, again, now, crash), sink, effects, i)
  {
    var b := Batch(q, sink, limit, again, now, crash);
    BatchLength(q, sink, limit, again, now, crash);
    OlderCountsHopeless(r, q, sink, effects, i);
    ClaimedIff(q.messages, limit, i);
    BatchStep(q, sink, limit, again, now, crash, i);
    forall j: nat | j < i
      ensures b.messages[j].payload == r.messages[j].payload && (Hopeless(r, sink, effects, j) ==> Waits(b.messages, j))
    {
      BatchStep(q, sink, limit, again, now, crash, j);
      OutcomeByPayload(sink, q.messages[j], r.messages[j], again(j));
    }
  }

  /** Behind `limit` failing messages a message waits for good: over any run of enqueues and attempts,
      crashing or not, in which those keep failing, it is never published. */
  lemma {:induction false} WaitsForGood(r: Relay, sink: Analytics.Sink, limit: nat, effects: nat -> Effect, i: nat, actions: seq<Action>)
    requires MarkedHaveLeft(r, sink) && Waits(r.messages, i) && OlderHopeless(r, sink, effects, i) >= limit
    requires FailAgain(r, sink, limit, effects, i, actions)
    ensures StillWaits(r, Run(r, sink, actions), sink, effects, i)
  {
    if actions == [] {
    } else {
      var init, a := actions[..|actions| - 1], actions[|actions| - 1];
      assert forall n :: 0 <= n < |init| ==> init[n] == actions[n];
      WaitsForGood(r, sink, limit, effects, i, init);
      AtLeastOnce(r, sink, init);
      match a
      case Enqueue(_) =>
      case Attempt(_, again, now, crash) => AttemptStillWaits(r, Run(r, sink, init), sink, limit, effects, i, again, now, crash);
    }
  }
}
