/** Alert deliveries: leased claims, bounded retries with exponential backoff, terminal states. */
module Deliveries {
  import opened Arithmetic
  import opened Wrappers
  import opened Database

  // ---------------------------------------------------------------- one row

  /** Seconds until the next attempt after attempt `a` failed. */
  function Backoff(a: nat): int { Min(3600, 30 * Pow2(Max(0, a - 1))) }

  function LeaseUntil(now: Time, leaseSeconds: int): Time { now + Max(30, leaseSeconds) * SECOND }

  predicate Ready(d: Delivery, now: Time) {
    && d.attempts < d.maxAttempts
    && (|| ((d.status == Pending || d.status == Failed) && (d.nextAttemptAt.None? || d.nextAttemptAt.value <= now))
        || (d.status == Sending && d.leaseUntil.Some? && d.leaseUntil.value < now))
  }

  function Claimed(d: Delivery, worker: string, leaseUntil: Time): Delivery {
    d.(status := Sending, claimedBy := Some(worker), leaseUntil := Some(leaseUntil))
  }

  datatype Verdict = Skip | Accepted | Refused

  /** The row as processing writes it back, from the attempt number it read and its verdict. */
  function Concluded(d: Delivery, attempts: nat, verdict: Verdict, at: Time): Delivery {
    var e := d.(attempts := attempts, claimedBy := None, leaseUntil := None);
    match verdict
    case Skip => e.(status := Skipped)
    case Accepted => e.(status := Delivered)
    case Refused =>
      if attempts >= d.maxAttempts then e.(status := Failed)
      else e.(status := Pending, nextAttemptAt := Some(at + Backoff(attempts) * SECOND))
  }

  predicate Deliverable(alerts: seq<Alert>, channels: map<nat, Channel>, d: Delivery) {
    && d.alert < |alerts| && alerts[d.alert].status != Resolved
    && d.channel in channels && channels[d.channel].enabled
  }

  /** A claimed row after processing: untouched, lease and all, when the notifier raises. */
  function Processed(alerts: seq<Alert>, channels: map<nat, Channel>, d: Delivery, reply: Option<bool>, now: Time): Delivery {
    if !Deliverable(alerts, channels, d) then Concluded(d, d.attempts + 1, Skip, now)
    else match reply
      case None => d
      case Some(ok) => Concluded(d, d.attempts + 1, if ok then Accepted else Refused, now)
  }

  /**
   What processing does to a claimed row: skipped, with an attempt spent, when its alert is gone or resolved
   or its channel gone or disabled; left as it is, lease and all, when the notifier raises; delivered when
   it accepts; and when it refuses, failed after the last attempt, else pending again after the backoff.
   */
  lemma ProcessedExactly(alerts: seq<Alert>, channels: map<nat, Channel>, d: Delivery, reply: Option<bool>, now: Time)
    ensures var q, freed := Processed(alerts, channels, d, reply, now), d.(attempts := d.attempts + 1, claimedBy := None, leaseUntil := None);
            if d.alert >= |alerts| || alerts[d.alert].status == Resolved || d.channel !in channels || !channels[d.channel].enabled then
              q == freed.(status := Skipped)
            else if reply == None then q == d
            else if reply == Some(true) then q == freed.(status := Delivered)
            else if d.attempts + 1 >= d.maxAttempts then q == freed.(status := Failed)
            else q == freed.(status := Pending, nextAttemptAt := Some(now + Min(3600, 30 * Pow2(d.attempts)) * 1_000_000))
  {
  }

  // ---------------------------------------------------------------- the service

  /** Claims the first `limit` ready deliveries in creation order. */
  method ClaimBatch(session: Session, worker: string, limit: nat, leaseSeconds: int, now: Time) returns (ids: seq<nat>)
    modifies session`deliveries
    ensures |ids| <= limit && |session.deliveries| == |old(session.deliveries)|
    ensures forall j, k :: 0 <= j < k < |ids| ==> ids[j] < ids[k]
    ensures forall i: nat :: i in ids ==> i < |old(session.deliveries)| && Ready(old(session.deliveries)[i], now)
    ensures forall i: nat :: i < |old(session.deliveries)| && Ready(old(session.deliveries)[i], now) && i !in ids ==>
              |ids| == limit && forall j :: j in ids ==> j < i
    ensures forall i: nat :: i < |old(session.deliveries)| ==>
              session.deliveries[i] == if i in ids then Claimed(old(session.deliveries)[i], worker, LeaseUntil(now, leaseSeconds))
                                       else old(session.deliveries)[i]
  {
    ids := [];
    ghost var before := session.deliveries;
    for n := 0 to |session.deliveries|
      invariant |ids| <= limit && |session.deliveries| == |before|
      invariant forall j :: 0 <= j < |ids| ==> ids[j] < n
      invariant forall j, k :: 0 <= j < k < |ids| ==> ids[j] < ids[k]
      invariant forall i: nat :: i in ids ==> i < n && Ready(before[i], now)
      invariant forall i: nat :: i < n && Ready(before[i], now) && i !in ids ==> |ids| == limit && forall j :: j in ids ==> j < i
      invariant forall i: nat :: i < |before| ==>
                  session.deliveries[i] == if i in ids then Claimed(before[i], worker, LeaseUntil(now, leaseSeconds)) else before[i]
    {
      if |ids| < limit && Ready(session.deliveries[n], now) {
        session.deliveries := session.deliveries[n := Claimed(session.deliveries[n], worker, LeaseUntil(now, leaseSeconds))];
        ids := ids + [n];
      }
    }
  }

  datatype ProcessError = NotFound | LeaseNotOwned | NotifierRaised

  /** Processes one claimed delivery; `reply` is the notifier's answer, None when it raises. */
  method ProcessOne(session: Session, id: nat, worker: string, channels: map<nat, Channel>, now: Time, reply: Option<bool>)
    returns (r: Result<Delivery, ProcessError>)
    modifies session`deliveries
    ensures r.Failure? ==> session.deliveries == old(session.deliveries)
    ensures r == Failure(NotFound) <==> id >= |old(session.deliveries)|
    ensures id < |old(session.deliveries)| ==>
              var d := old(session.deliveries)[id];
              var owned := d.status == Sending && d.claimedBy == Some(worker);
              && (r == Failure(LeaseNotOwned) <==> !owned)
              && (r == Failure(NotifierRaised) <==> owned && Deliverable(old(session.alerts), channels, d) && reply.None?)
              && (owned ==> session.deliveries
                            == old(session.deliveries)[id := Processed(old(session.alerts), channels, d, reply, now)])
              && (r.Success? ==> r.value == session.deliveries[id])
  {
    if id >= |session.deliveries| {
      return Failure(NotFound);
    }
    var d := session.deliveries[id];
    if d.status != Sending || d.claimedBy != Some(worker) {
      return Failure(LeaseNotOwned);
    }
    d := d.(attempts := d.attempts + 1);
    if d.alert >= |session.alerts| || session.alerts[d.alert].status == Resolved
       || d.channel !in channels || !channels[d.channel].enabled {
      d := d.(status := Skipped);
    } else {
      if reply.None? {
        return Failure(NotifierRaised);
      }
      if reply.value {
        d := d.(status := Delivered);
      } else if d.attempts >= d.maxAttempts {
        d := d.(status := Failed);
      } else {
        d := d.(nextAttemptAt := Some(now + Backoff(d.attempts) * SECOND), status := Pending);
      }
    }
    d := d.(claimedBy := None, leaseUntil := None);
    session.deliveries := session.deliveries[id := d];
    r := Success(d);
  }

  /** One tick of the notifier: commit the claims, then process each in its own transaction. */
  method Tick(session: Session, worker: string, limit: nat, leaseSeconds: int, channels: map<nat, Channel>, now: Time,
              replies: nat -> Option<bool>)
    returns (ids: seq<nat>)
    modifies session`deliveries
    ensures |session.deliveries| == |old(session.deliveries)|
    ensures forall i: nat :: i < |old(session.deliveries)| ==>
              var d := old(session.deliveries)[i];
              session.deliveries[i] ==
                if i in ids
                then Processed(old(session.alerts), channels, Claimed(d, worker, LeaseUntil(now, leaseSeconds)), replies(i), now)
                else d
    ensures |ids| <= limit
    ensures forall i: nat :: i in ids ==> i < |old(session.deliveries)| && Ready(old(session.deliveries)[i], now)
    ensures forall i: nat :: i < |old(session.deliveries)| && Ready(old(session.deliveries)[i], now) && i !in ids ==>
              |ids| == limit && forall j :: j in ids ==> j < i
  {
    ids := ClaimBatch(session, worker, limit, leaseSeconds, now);
    ghost var mid := session.deliveries;
    for n := 0 to |ids|
      invariant |session.deliveries| == |mid|
      invariant forall i: nat :: i < |mid| && i !in ids[..n] ==> session.deliveries[i] == mid[i]
      invariant forall i: nat :: i < |mid| && i in ids[..n] ==>
                  session.deliveries[i] == Processed(session.alerts, channels, mid[i], replies(i), now)
    {
      assert ids[n] in ids && ids[n] !in ids[..n];
      assert ids[..n + 1] == ids[..n] + [ids[n]];
      var _ := ProcessOne(session, ids[n], worker, channels, now, replies(ids[n]));
    }
    assert ids[..|ids|] == ids;
  }
}
