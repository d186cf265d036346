/** The outbox over whole runs: nothing is marked that did not leave, nothing is dropped, and how it drains. */
module OutboxLaws {
  import opened Arithmetic
  import opened Wrappers
  import opened Database
  import opened Outbox
  import Analytics

  // ---------------------------------------------------------------- at least once

  ghost predicate Left(r: Relay, sink: Analytics.Sink, i: nat)
    requires i < |r.messages|
  {
    if r.messages[i].payload.Analytics? then forall id :: id in Ids(sink, r.messages[i]) ==> id in r.warehouse
    else i in r.stream
  }

  ghost predicate MarkedHaveLeft(r: Relay, sink: Analytics.Sink) {
    forall i: nat :: i < |r.messages| && r.messages[i].publishedAt.Some? ==> Left(r, sink, i)
  }

  /** Messages keep their place and payload, marks are never undone, and what has left stays left. */
  ghost predicate Extends(r: Relay, q: Relay) {
    && |r.messages| <= |q.messages|
    && (forall i :: 0 <= i < |r.messages| ==>
          && q.messages[i].payload == r.messages[i].payload && q.messages[i].tenant == r.messages[i].tenant
          && q.messages[i].attempts >= r.messages[i].attempts
          && (r.messages[i].publishedAt.Some? ==> q.messages[i] == r.messages[i]))
    && (forall i :: i in r.stream ==> i in q.stream)
    && (forall id :: id in r.warehouse ==> id in q.warehouse)
  }

  ghost predicate Unmarked(messages: seq<OutboxMessage>) {
    forall i :: 0 <= i < |messages| ==> messages[i].publishedAt.None?
  }

  /**
   One message, written out.  An analytics message that writes nothing, because the sink is off or no row
   has a position, is marked without an effect.  Otherwise what is sent or written has left unless the
   effect was not done, and the message is marked only when that was reported; else an attempt is counted.
   */
  lemma ProcessExactly(r: Relay, sink: Analytics.Sink, i: nat, effect: Effect, now: Time)
    requires i < |r.messages|
    ensures var m, q := r.messages[i], Process(r, sink, i, effect, now);
            var idle := m.payload.Analytics? && (!sink.enabled || Analytics.Identities(sink.hash, m.payload.rowsTenant, m.payload.rows) == []);
            && |q.messages| == |r.messages| && (forall j :: 0 <= j < |r.messages| && j != i ==> q.messages[j] == r.messages[j])
            && q.messages[i] == (if idle || effect == Done then m.(publishedAt := Some(now)) else m.(attempts := m.attempts + 1))
            && q.stream == (if m.payload.Analytics? || effect == NotDone then r.stream else r.stream + [i])
            && q.warehouse == (if !m.payload.Analytics? || idle || effect == NotDone then r.warehouse
                               else r.warehouse + Analytics.Identities(sink.hash, m.payload.rowsTenant, m.payload.rows))
  {
    assert r.warehouse + [] == r.warehouse;
  }

  lemma ProcessKeeps(r: Relay, sink: Analytics.Sink, i: nat, effect: Effect, now: Time)
    requires MarkedHaveLeft(r, sink) && i < |r.messages| && r.messages[i].publishedAt.None?
    ensures var q := Process(r, sink, i, effect, now);
            && MarkedHaveLeft(q, sink) && Extends(r, q) && |q.messages| == |r.messages|
            && (forall j :: 0 <= j < |r.messages| && j != i ==> q.messages[j] == r.messages[j])
            && (q.messages[i].publishedAt.Some? <==> Outcome(sink, r.messages[i], effect) == Done)
  {
  }

  ghost predicate Claimable(r: Relay, ids: seq<nat>) {
    && Distinct(ids)
    && forall j :: 0 <= j < |ids| ==> ids[j] < |r.messages| && r.messages[ids[j]].publishedAt.None?
  }

  lemma {:induction false} ProcessAllKeeps(r: Relay, sink: Analytics.Sink, ids: seq<nat>, effects: nat -> Effect, now: Time)
    requires MarkedHaveLeft(r, sink) && Claimable(r, ids)
    ensures var q := ProcessAll(r, sink, ids, effects, now);
            && MarkedHaveLeft(q, sink) && Extends(r, q) && |q.messages| == |r.messages|
            && (forall i: nat :: i < |r.messages| && i !in ids ==> q.messages[i] == r.messages[i])
            && (forall i: nat :: i < |r.messages| && i in ids ==>
                  (q.messages[i].publishedAt.Some? <==> Outcome(sink, r.messages[i], effects(i)) == Done))
  {
    if ids == [] {
    } else {
      var init, last := ids[..|ids| - 1], ids[|ids| - 1];
      ProcessAllKeeps(r, sink, init, effects, now);
      assert ids == init + [last];
      assert last !in init;
      ProcessKeeps(ProcessAll(r, sink, init, effects, now), sink, last, effects(last), now);
    }
  }

  lemma ClaimClaimable(r: Relay, limit: nat, n: nat)
    requires n <= |Claim(r.messages, limit)|
    ensures Claimable(r, Claim(r.messages, limit)[..n])
  {
    BacklogMembers(r.messages);
    var p := Backlog(r.messages);
    assert forall j :: 0 <= j < |p| ==> p[j] in p;
  }

  lemma BatchKeeps(r: Relay, sink: Analytics.Sink, limit: nat, effects: nat -> Effect, now: Time, crash: Option<nat>)
    requires MarkedHaveLeft(r, sink)
    ensures MarkedHaveLeft(Batch(r, sink, limit, effects, now, crash), sink)
    ensures Extends(r, Batch(r, sink, limit, effects, now, crash))
  {
    var ids := Claim(r.messages, limit);
    var n := if crash.Some? && crash.value <= |ids| then crash.value else |ids|;
    ClaimClaimable(r, limit, n);
    assert ids[..|ids|] == ids;
    ProcessAllKeeps(r, sink, ids[..n], effects, now);
  }

  /** A run of the outbox: transactions that enqueue, and dispatcher batches that may fail or crash. */
  datatype Action =
    | Enqueue(messages: seq<OutboxMessage>)
    | Attempt(limit: nat, effects: nat -> Effect, now: Time, crash: Option<nat>)

  function Perform(r: Relay, sink: Analytics.Sink, a: Action): Relay {
    match a
    case Enqueue(messages) => r.(messages := r.messages + messages)
    case Attempt(limit, effects, now, crash) => Batch(r, sink, limit, effects, now, crash)
  }

  function Run(r: Relay, sink: Analytics.Sink, actions: seq<Action>): Relay {
    if actions == [] then r
    else Perform(Run(r, sink, actions[..|actions| - 1]), sink, actions[|actions| - 1])
  }

  /**
   Over any run, with failures and crashes anywhere: every marked message was really published or
   written, no message disappears or changes, and no mark is undone.
   */
  lemma {:induction false} AtLeastOnce(r: Relay, sink: Analytics.Sink, actions: seq<Action>)
    requires MarkedHaveLeft(r, sink)
    requires forall i :: 0 <= i < |actions| && actions[i].Enqueue? ==> Unmarked(actions[i].messages)
    ensures MarkedHaveLeft(Run(r, sink, actions), sink) && Extends(r, Run(r, sink, actions))
  {
    if actions == [] {
    } else {
      var init, a := actions[..|actions| - 1], actions[|actions| - 1];
      AtLeastOnce(r, sink, init);
      match a
      case Enqueue(_) =>
      case Attempt(limit, effects, now, crash) => BatchKeeps(Run(r, sink, init), sink, limit, effects, now, crash);
    }
  }

  /** With the sink disabled a marked analytics message was not written: it is written iff the sink is on. */
  lemma WrittenIffEnabled(r: Relay, sink: Analytics.Sink, i: nat, now: Time, id: string)
    requires i < |r.messages| && r.messages[i].payload.Analytics?
    requires id in Analytics.Identities(sink.hash, r.messages[i].payload.rowsTenant, r.messages[i].payload.rows)
    requires id !in r.warehouse
    ensures var q := Process(r, sink, i, Done, now);
            q.messages[i].publishedAt.Some? && (id in q.warehouse <==> sink.enabled)
  {
  }

  // ---------------------------------------------------------------- draining

  lemma NoMembers(t: seq<nat>)
    requires forall i: nat :: i !in t
    ensures t == []
  {
    var first := if t == [] then 0 else t[0];
    assert t == [] || first in t;
  }

  lemma {:induction false} IncreasingUnique(s: seq<nat>, t: seq<nat>)
    requires forall j, k :: 0 <= j < k < |s| ==> s[j] < s[k]
    requires forall j, k :: 0 <= j < k < |t| ==> t[j] < t[k]
    requires forall i: nat :: i in s <==> i in t
    ensures s == t
  {
    if s == [] {
      NoMembers(t);
    } else {
      assert s[|s| - 1] in t;
      var a, b := s[|s| - 1], t[|t| - 1];
      assert b in s;
      assert a == b;
      var s', t' := s[..|s| - 1], t[..|t| - 1];
      assert s == s' + [a] && t == t' + [a];
      assert a !in s' && a !in t';
      forall i: nat
        ensures i in s' <==> i in t'
      {
        assert i in s <==> i in s' || i == a;
        assert i in t <==> i in t' || i == a;
      }
      IncreasingUnique(s', t');
    }
  }

  lemma SuffixMembers(p: seq<nat>, c: nat, i: nat)
    requires c <= |p| && forall j, k :: 0 <= j < k < |p| ==> p[j] < p[k]
    ensures i in p[c..] <==> i in p && i !in p[..c]
  {
    assert p == p[..c] + p[c..];
    forall k | 0 <= k < |p[c..]|
      ensures p[c..][k] !in p[..c]
    {
      assert p[c..][k] == p[c + k];
    }
  }

  function Succeeds(): nat -> Effect { i => Done }

  /** The stream positions among `ids`: everything but the analytics messages, in order. */
  function Streamed(messages: seq<OutboxMessage>, ids: seq<nat>): seq<nat> {
    if ids == [] then []
    else
      var i := ids[|ids| - 1];
      Streamed(messages, ids[..|ids| - 1]) + if i < |messages| && !messages[i].payload.Analytics? then [i] else []
  }

  lemma {:induction false} ProcessAllStreams(r: Relay, sink: Analytics.Sink, ids: seq<nat>, now: Time)
    requires MarkedHaveLeft(r, sink) && Claimable(r, ids)
    ensures ProcessAll(r, sink, ids, Succeeds(), now).stream == r.stream + Streamed(r.messages, ids)
  {
    if ids == [] {
    } else {
      var init := ids[..|ids| - 1];
      assert Claimable(r, init);
      ProcessAllKeeps(r, sink, init, Succeeds(), now);
      ProcessAllStreams(r, sink, init, now);
    }
  }

  /** A batch without failures publishes the oldest `limit` pending messages, in creation order. */
  lemma BatchDrains(r: Relay, sink: Analytics.Sink, limit: nat, now: Time)
    requires MarkedHaveLeft(r, sink)
    ensures var q, p := Batch(r, sink, limit, Succeeds(), now, None), Backlog(r.messages);
            var c := if |p| <= limit then |p| else limit;
            && Backlog(q.messages) == p[c..]
            && q.stream == r.stream + Streamed(r.messages, p[..c])
            && Extends(r, q)
  {
    var q, p, ids := Batch(r, sink, limit, Succeeds(), now, None), Backlog(r.messages), Claim(r.messages, limit);
    var c := if |p| <= limit then |p| else limit;
    ClaimClaimable(r, limit, |ids|);
    assert ids[..|ids|] == ids && ids == p[..c];
    ProcessAllKeeps(r, sink, ids, Succeeds(), now);
    ProcessAllStreams(r, sink, ids, now);
    BacklogMembers(r.messages);
    BacklogMembers(q.messages);
    forall i: nat
      ensures i in Backlog(q.messages) <==> i in p[c..]
    {
      SuffixMembers(p, c, i);
      assert i in Backlog(q.messages) <==> i < |q.messages| && q.messages[i].publishedAt.None?;
      assert i in p <==> i < |r.messages| && r.messages[i].publishedAt.None?;
    }
    IncreasingUnique(Backlog(q.messages), p[c..]);
  }

  /**
   A crash after `n` messages of the claim, up to all of them, leaves every message unmarked although the
   first `n` have left; the next batch claims the same and sends them a second time.
   */
  lemma CrashRepeats(r: Relay, sink: Analytics.Sink, limit: nat, now: Time, n: nat)
    requires MarkedHaveLeft(r, sink)
    ensures var p, q := Backlog(r.messages), Batch(r, sink, limit, Succeeds(), now, Some(n));
            var c := if |p| <= limit then |p| else limit;
            if n <= c then
              && q.messages == r.messages && q.stream == r.stream + Streamed(r.messages, p[..n])
              && Batch(q, sink, limit, Succeeds(), now, None).stream == q.stream + Streamed(r.messages, p[..c])
            else q == Batch(r, sink, limit, Succeeds(), now, None)
  {
    var p, q, ids := Backlog(r.messages), Batch(r, sink, limit, Succeeds(), now, Some(n)), Claim(r.messages, limit);
    if n <= |ids| {
      assert ids[..n] == p[..n];
      ClaimClaimable(r, limit, n);
      ProcessAllStreams(r, sink, ids[..n], now);
      BatchKeeps(r, sink, limit, Succeeds(), now, Some(n));
      BatchDrains(q, sink, limit, now);
    }
  }

  function Drain(r: Relay, sink: Analytics.Sink, limit: nat, now: Time, batches: nat): Relay {
    if batches == 0 then r else Batch(Drain(r, sink, limit, now, batches - 1), sink, limit, Succeeds(), now, None)
  }

  lemma {:induction false} StreamedAppend(messages: seq<OutboxMessage>, a: seq<nat>, b: seq<nat>)
    ensures Streamed(messages, a + b) == Streamed(messages, a) + Streamed(messages, b)
  {
    if b == [] {
      assert a + b == a;
    } else {
      StreamedAppend(messages, a, b[..|b| - 1]);
      assert (a + b)[..|a + b| - 1] == a + b[..|b| - 1];
    }
  }

  lemma {:induction false} StreamedSame(r: Relay, q: Relay, ids: seq<nat>)
    requires Extends(r, q) && forall j :: 0 <= j < |ids| ==> ids[j] < |r.messages|
    ensures Streamed(r.messages, ids) == Streamed(q.messages, ids)
  {
    if ids == [] {
    } else {
      StreamedSame(r, q, ids[..|ids| - 1]);
    }
  }

  /** The relay after `c` of the pending messages `p` of `r` have been published. */
  ghost predicate Drained(r: Relay, q: Relay, sink: Analytics.Sink, p: seq<nat>, c: int) {
    && 0 <= c <= |p|
    && MarkedHaveLeft(q, sink) && Extends(r, q)
    && Backlog(q.messages) == p[c..]
    && q.stream == r.stream + Streamed(r.messages, p[..c])
  }

  lemma ExtendsTransitive(r: Relay, mid: Relay, q: Relay)
    requires Extends(r, mid) && Extends(mid, q)
    ensures Extends(r, q)
  {
  }

  lemma StreamedJoin(r: Relay, mid: Relay, c: nat, d: nat)
    requires Extends(r, mid) && c <= d <= |Backlog(r.messages)|
    ensures var p := Backlog(r.messages);
            Streamed(r.messages, p[..c]) + Streamed(mid.messages, p[c..d]) == Streamed(r.messages, p[..d])
  {
    var p := Backlog(r.messages);
    BacklogMembers(r.messages);
    forall j | 0 <= j < |p[c..d]|
      ensures p[c..d][j] < |r.messages|
    {
      assert p[c + j] in p;
    }
    StreamedSame(r, mid, p[c..d]);
    assert p[..c] + p[c..d] == p[..d];
    StreamedAppend(r.messages, p[..c], p[c..d]);
  }

  lemma SliceStep(p: seq<nat>, c: nat, limit: nat)
    requires c <= |p|
    ensures var n, d := if |p[c..]| <= limit then |p[c..]| else limit, Min(c + limit, |p|);
            c + n == d && p[c..][n..] == p[d..] && p[c..][..n] == p[c..d]
  {
  }

  lemma Regroup(a: seq<nat>, b: seq<nat>, c: seq<nat>)
    ensures (a + b) + c == a + (b + c)
  {
  }

  lemma DrainStream(mid: Relay, sink: Analytics.Sink, limit: nat, now: Time, p: seq<nat>, c: nat, base: seq<nat>, s0: seq<nat>)
    requires MarkedHaveLeft(mid, sink) && c <= |p|
    requires Backlog(mid.messages) == p[c..] && mid.stream == base + s0
    ensures var q, d := Batch(mid, sink, limit, Succeeds(), now, None), Min(c + limit, |p|);
            q.stream == base + (s0 + Streamed(mid.messages, p[c..d])) && Backlog(q.messages) == p[d..]
  {
    var d := Min(c + limit, |p|);
    SliceStep(p, c, limit);
    BatchDrains(mid, sink, limit, now);
    Regroup(base, s0, Streamed(mid.messages, p[c..d]));
  }

  lemma DrainStep(r: Relay, mid: Relay, sink: Analytics.Sink, limit: nat, now: Time, c: int)
    requires Drained(r, mid, sink, Backlog(r.messages), c)
    ensures Drained(r, Batch(mid, sink, limit, Succeeds(), now, None), sink, Backlog(r.messages),
                    Min(c + limit, |Backlog(r.messages)|))
  {
    var p := Backlog(r.messages);
    DrainStream(mid, sink, limit, now, p, c, r.stream, Streamed(r.messages, p[..c]));
    StreamedJoin(r, mid, c, Min(c + limit, |p|));
    BatchKeeps(mid, sink, limit, Succeeds(), now, None);
    ExtendsTransitive(r, mid, Batch(mid, sink, limit, Succeeds(), now, None));
  }

  /** How many of `total` pending messages have left after some batches. */
  function Reached(total: nat, limit: nat, batches: nat): (c: nat)
    ensures c <= total
  {
    if batches == 0 then 0 else Min(Reached(total, limit, batches - 1) + limit, total)
  }

  lemma DrainedAtStart(r: Relay, sink: Analytics.Sink)
    requires MarkedHaveLeft(r, sink)
    ensures Drained(r, r, sink, Backlog(r.messages), 0)
  {
    var p := Backlog(r.messages);
    assert p[0..] == p && p[..0] == [];
    assert r.stream + [] == r.stream;
  }

  lemma {:induction false} DrainReaches(r: Relay, sink: Analytics.Sink, limit: nat, now: Time, batches: nat)
    requires MarkedHaveLeft(r, sink)
    ensures Drained(r, Drain(r, sink, limit, now, batches), sink, Backlog(r.messages), Reached(|Backlog(r.messages)|, limit, batches))
  {
    if batches == 0 {
      DrainedAtStart(r, sink);
    } else {
      DrainReaches(r, sink, limit, now, batches - 1);
      var c := Reached(|Backlog(r.messages)|, limit, batches - 1);
      DrainStep(r, Drain(r, sink, limit, now, batches - 1), sink, limit, now, c);
      assert Reached(|Backlog(r.messages)|, limit, batches) == Min(c + limit, |Backlog(r.messages)|);
    }
  }

  lemma {:induction false} ReachedClosedForm(total: nat, limit: nat, batches: nat)
    ensures Reached(total, limit, batches) == Min(batches * limit, total)
  {
    if batches == 0 {
    } else {
      ReachedClosedForm(total, limit, batches - 1);
      assert batches * limit == (batches - 1) * limit + limit;
    }
  }

  /**
   With no failures and no enqueues, `n` pending messages leave oldest first, `limit` per batch, and
   the outbox is empty after exactly ceil(n / limit) batches.
   */
  lemma DrainsInOrder(r: Relay, sink: Analytics.Sink, limit: nat, now: Time, batches: nat)
    requires limit > 0 && MarkedHaveLeft(r, sink)
    ensures var q, p := Drain(r, sink, limit, now, batches), Backlog(r.messages);
            && Drained(r, q, sink, p, Min(batches * limit, |p|))
            && (Backlog(q.messages) == [] <==> batches >= (|p| + limit - 1) / limit)
  {
    var p := Backlog(r.messages);
    DrainReaches(r, sink, limit, now, batches);
    ReachedClosedForm(|p|, limit, batches);
    CeilingSteps(|p|, limit, batches);
  }

  // ---------------------------------------------------------------- head-of-line blocking

  /** Every message of the current claim keeps failing. */
  ghost predicate Blocked(r: Relay, sink: Analytics.Sink, limit: nat, effects: nat -> Effect) {
    forall i :: i in Claim(r.messages, limit) ==> i < |r.messages| && Outcome(sink, r.messages[i], effects(i)) != Done
  }

  /**
   Attempts are unbounded and claims are oldest first: while the oldest `limit` pending messages
   keep failing, no batch, crashing or not, ever marks anything, and nothing newer is ever claimed.
   */
  lemma BlockedClaimStays(r: Relay, sink: Analytics.Sink, limit: nat, effects: nat -> Effect, now: Time, crash: Option<nat>)
    requires MarkedHaveLeft(r, sink) && Blocked(r, sink, limit, effects)
    ensures var q := Batch(r, sink, limit, effects, now, crash);
            && Backlog(q.messages) == Backlog(r.messages)
            && Claim(q.messages, limit) == Claim(r.messages, limit)
            && Blocked(q, sink, limit, effects)
            && (forall i :: i in q.stream && i !in r.stream ==> i in Claim(r.messages, limit))
  {
    var q, ids := Batch(r, sink, limit, effects, now, crash), Claim(r.messages, limit);
    var n := if crash.Some? && crash.value <= |ids| then crash.value else |ids|;
    ClaimClaimable(r, limit, n);
    assert ids[..|ids|] == ids;
    ProcessAllKeeps(r, sink, ids[..n], effects, now);
    ProcessAllTouches(r, sink, ids[..n], effects, now);
    BacklogMembers(r.messages);
    BacklogMembers(q.messages);
    IncreasingUnique(Backlog(q.messages), Backlog(r.messages));
  }

  lemma {:induction false} BacklogExtends(a: seq<OutboxMessage>, b: seq<OutboxMessage>)
    ensures |Backlog(a)| <= |Backlog(a + b)| && Backlog(a + b)[..|Backlog(a)|] == Backlog(a)
    decreases |b|
  {
    if b == [] {
      assert a + b == a;
    } else {
      BacklogExtends(a, b[..|b| - 1]);
      assert (a + b)[..|a + b| - 1] == a + b[..|b| - 1];
    }
  }

  /** Attempts that take `limit` messages and fail on every one of `stuck`, between any enqueues. */
  ghost predicate Failing(r: Relay, sink: Analytics.Sink, limit: nat, actions: seq<Action>) {
    forall n :: 0 <= n < |actions| ==>
      match actions[n]
      case Enqueue(messages) => Unmarked(messages)
      case Attempt(l, effects, _, _) =>
        l == limit && forall i :: i in Claim(r.messages, limit) ==> i < |r.messages| && Outcome(sink, r.messages[i], effects(i)) != Done
  }

  /** The first `limit` pending messages of `r` are still the first of `q`, and nothing newer has left. */
  ghost predicate Stuck(r: Relay, q: Relay, limit: nat) {
    && Extends(r, q)
    && Claim(q.messages, limit) == Claim(r.messages, limit)
    && |Backlog(r.messages)| <= |Backlog(q.messages)| && Backlog(q.messages)[..|Backlog(r.messages)|] == Backlog(r.messages)
    && (forall i :: i in q.stream && i !in r.stream ==> i in Claim(r.messages, limit))
  }

  lemma StuckEnqueue(r: Relay, mid: Relay, limit: nat, messages: seq<OutboxMessage>)
    requires |Claim(r.messages, limit)| == limit && Stuck(r, mid, limit)
    ensures Stuck(r, mid.(messages := mid.messages + messages), limit)
  {
    var q := mid.messages + messages;
    var b, m := Backlog(q), Backlog(mid.messages);
    BacklogExtends(mid.messages, messages);
    assert b[..|Backlog(r.messages)|] == b[..|m|][..|Backlog(r.messages)|];
    assert Claim(q, limit) == b[..limit] == b[..|m|][..limit];
  }

  lemma StuckAttempt(r: Relay, mid: Relay, sink: Analytics.Sink, limit: nat, effects: nat -> Effect, now: Time, crash: Option<nat>)
    requires MarkedHaveLeft(mid, sink) && Stuck(r, mid, limit)
    requires forall i :: i in Claim(r.messages, limit) ==> i < |r.messages| && Outcome(sink, r.messages[i], effects(i)) != Done
    ensures Stuck(r, Batch(mid, sink, limit, effects, now, crash), limit)
  {
    var q := Batch(mid, sink, limit, effects, now, crash);
    assert Blocked(mid, sink, limit, effects);
    BlockedClaimStays(mid, sink, limit, effects, now, crash);
    BatchKeeps(mid, sink, limit, effects, now, crash);
    ExtendsTransitive(r, mid, q);
  }

  /**
   A full claim whose messages keep failing blocks the outbox for good: over any run of enqueues and
   attempts, crashing or not, the claim stays the same, none of its messages is ever marked, and
   nothing newer ever leaves.
   */
  lemma {:induction false} BlockedForGood(r: Relay, sink: Analytics.Sink, limit: nat, actions: seq<Action>)
    requires MarkedHaveLeft(r, sink) && |Claim(r.messages, limit)| == limit && Failing(r, sink, limit, actions)
    ensures Stuck(r, Run(r, sink, actions), limit)
  {
    if actions == [] {
    } else {
      var init, a := actions[..|actions| - 1], actions[|actions| - 1];
      assert Failing(r, sink, limit, init) && forall i :: 0 <= i < |init| ==> init[i] == actions[i];
      BlockedForGood(r, sink, limit, init);
      AtLeastOnce(r, sink, init);
      match a
      case Enqueue(messages) => StuckEnqueue(r, Run(r, sink, init), limit, messages);
      case Attempt(_, effects, now, crash) => StuckAttempt(r, Run(r, sink, init), sink, limit, effects, now, crash);
    }
  }

  /** With room for one more, a message enqueued next to failing ones leaves with the next batch. */
  lemma RoomLetsThrough(r: Relay, sink: Analytics.Sink, limit: nat, m: OutboxMessage, effects: nat -> Effect, now: Time)
    requires MarkedHaveLeft(r, sink) && |Claim(r.messages, limit)| < limit
    requires m.publishedAt.None? && effects(|r.messages|) == Done
    ensures var q := Batch(r.(messages := r.messages + [m]), sink, limit, effects, now, None);
            |q.messages| == |r.messages| + 1 && q.messages[|r.messages|].publishedAt.Some?
  {
    var s := r.(messages := r.messages + [m]);
    assert s.messages[..|r.messages|] == r.messages;
    var ids := Claim(s.messages, limit);
    assert ids == Backlog(r.messages) + [|r.messages|];
    assert |r.messages| in ids;
    ClaimClaimable(s, limit, |ids|);
    assert ids[..|ids|] == ids;
    assert MarkedHaveLeft(s, sink);
    ProcessAllKeeps(s, sink, ids, effects, now);
  }

  lemma {:induction false} ProcessAllTouches(r: Relay, sink: Analytics.Sink, ids: seq<nat>, effects: nat -> Effect, now: Time)
    ensures forall i :: i in ProcessAll(r, sink, ids, effects, now).stream && i !in r.stream ==> i in ids
  {
    if ids == [] {
    } else {
      ProcessAllTouches(r, sink, ids[..|ids| - 1], effects, now);
    }
  }
}
