/** Scheduled source jobs: distributed claims, retry bookkeeping, and the machine they form. */
module Jobs {
  import opened Arithmetic
  import opened Wrappers
  import opened Database

  datatype JobStatus = JobPending | JobQueued | JobRetry | JobFailed

  datatype SourceJob = SourceJob(
    tenant: string,
    source: string,
    enabled: bool,
    status: JobStatus,
    intervalSeconds: int,
    nextRunAt: Time,
    lockedUntil: Option<Time>,
    lockedBy: Option<string>,
    attempts: nat,
    maxAttempts: int)

  predicate Due(j: SourceJob, now: Time) {
    && j.enabled && j.nextRunAt <= now && (j.status == JobPending || j.status == JobRetry)
    && (j.lockedUntil.None? || j.lockedUntil.value < now)
  }

  function Claimed(j: SourceJob, worker: string, now: Time, leaseSeconds: int): SourceJob {
    j.(status := JobQueued, lockedUntil := Some(now + leaseSeconds * SECOND), lockedBy := Some(worker), attempts := j.attempts + 1)
  }

  function Succeeded(j: SourceJob, now: Time): SourceJob {
    j.(status := JobPending, nextRunAt := now + j.intervalSeconds * SECOND, lockedUntil := None, lockedBy := None, attempts := 0)
  }

  function FailedOnce(j: SourceJob, now: Time): SourceJob {
    var released := j.(lockedUntil := None, lockedBy := None);
    if j.attempts >= j.maxAttempts then released.(status := JobFailed)
    else released.(status := JobRetry, nextRunAt := now + Min(300, Pow2(Max(j.attempts - 1, 0))) * SECOND)
  }

  // ---------------------------------------------------------------- the repository

  class JobStore {
    var jobs: seq<SourceJob>

    /** The due job with the earliest `nextRunAt` not yet picked, if any. */
    method Earliest(picked: set<nat>, now: Time) returns (best: Option<nat>)
      ensures best.Some? ==> best.value < |jobs| && best.value !in picked && Due(jobs[best.value], now)
      ensures forall i: nat :: i < |jobs| && i !in picked && Due(jobs[i], now) ==>
                best.Some? && jobs[best.value].nextRunAt <= jobs[i].nextRunAt
    {
      best := None;
      for n := 0 to |jobs|
        invariant best.Some? ==> best.value < n && best.value !in picked && Due(jobs[best.value], now)
        invariant forall i: nat :: i < n && i !in picked && Due(jobs[i], now) ==>
                    best.Some? && jobs[best.value].nextRunAt <= jobs[i].nextRunAt
      {
        if n !in picked && Due(jobs[n], now) && (best.None? || jobs[n].nextRunAt < jobs[best.value].nextRunAt) {
          best := Some(n);
        }
      }
    }

    /** Claims up to `limit` due jobs, earliest first. */
    method ClaimDueJobs(worker: string, limit: nat, leaseSeconds: int, now: Time) returns (ids: seq<nat>)
      modifies this
      ensures |ids| <= limit && Distinct(ids) && |jobs| == |old(jobs)|
      ensures forall i: nat :: i in ids ==> i < |old(jobs)| && Due(old(jobs)[i], now)
      ensures forall i: nat :: i < |old(jobs)| && Due(old(jobs)[i], now) && i !in ids ==>
                |ids| == limit && forall j: nat :: j in ids ==> old(jobs)[j].nextRunAt <= old(jobs)[i].nextRunAt
      ensures forall i: nat :: i < |old(jobs)| ==>
                jobs[i] == if i in ids then Claimed(old(jobs)[i], worker, now, leaseSeconds) else old(jobs)[i]
    {
      ids := [];
      var picked: set<nat> := {};
      var more := true;
      while more && |ids| < limit
        invariant jobs == old(jobs)
        invariant |ids| <= limit && Distinct(ids) && forall i: nat :: i in picked <==> i in ids
        invariant forall i: nat :: i in ids ==> i < |jobs| && Due(jobs[i], now)
        invariant forall i: nat, j: nat :: i < |jobs| && Due(jobs[i], now) && i !in ids && j in ids ==>
                    jobs[j].nextRunAt <= jobs[i].nextRunAt
        invariant !more ==> forall i: nat :: i < |jobs| && Due(jobs[i], now) ==> i in ids
        decreases more, limit - |ids|
      {
        var best := Earliest(picked, now);
        if best.Some? {
          ids, picked := ids + [best.value], picked + {best.value};
        } else {
          more := false;
        }
      }
      for n := 0 to |ids|
        invariant |jobs| == |old(jobs)|
        invariant forall i: nat :: i < |jobs| ==>
                    jobs[i] == if i in ids[..n] then Claimed(old(jobs)[i], worker, now, leaseSeconds) else old(jobs)[i]
      {
        assert ids[n] in ids && ids[n] !in ids[..n];
        assert ids[..n + 1] == ids[..n] + [ids[n]];
        jobs := jobs[ids[n] := Claimed(jobs[ids[n]], worker, now, leaseSeconds)];
      }
      assert ids[..|ids|] == ids;
    }

    method MarkSuccess(id: nat, now: Time)
      modifies this
      ensures jobs == if id < |old(jobs)| then old(jobs)[id := Succeeded(old(jobs)[id], now)] else old(jobs)
    {
      if id < |jobs| {
        var j := jobs[id];
        j := j.(status := JobPending, nextRunAt := now + j.intervalSeconds * SECOND);
        j := j.(lockedUntil := None, lockedBy := None, attempts := 0);
        jobs := jobs[id := j];
      }
    }

    method MarkFailure(id: nat, now: Time)
      modifies this
      ensures jobs == if id < |old(jobs)| then old(jobs)[id := FailedOnce(old(jobs)[id], now)] else old(jobs)
    {
      if id < |jobs| {
        var j := jobs[id];
        if j.attempts >= j.maxAttempts {
          j := j.(status := JobFailed);
        } else {
          var backoff := Min(300, Pow2(Max(j.attempts - 1, 0)));
          j := j.(status := JobRetry, nextRunAt := now + backoff * SECOND);
        }
        j := j.(lockedUntil := None, lockedBy := None);
        jobs := jobs[id := j];
      }
    }

    /** One scheduler tick: claim, then publish each; a failed publish is a failure mark. */
    method Tick(worker: string, limit: nat, leaseSeconds: int, now: Time, publishes: nat -> bool) returns (ids: seq<nat>)
      modifies this
      ensures |jobs| == |old(jobs)| && |ids| <= limit && Distinct(ids)
      ensures forall i: nat :: i in ids ==> i < |old(jobs)| && Due(old(jobs)[i], now)
      ensures forall i: nat :: i < |old(jobs)| && Due(old(jobs)[i], now) && i !in ids ==>
                |ids| == limit && forall j: nat :: j in ids ==> old(jobs)[j].nextRunAt <= old(jobs)[i].nextRunAt
      ensures forall i: nat :: i < |old(jobs)| ==>
                var claimed := Claimed(old(jobs)[i], worker, now, leaseSeconds);
                jobs[i] == if i !in ids then old(jobs)[i] else if publishes(i) then claimed else FailedOnce(claimed, now)
    {
      ids := ClaimDueJobs(worker, limit, leaseSeconds, now);
      ghost var mid := jobs;
      for n := 0 to |ids|
        invariant |jobs| == |mid|
        invariant forall i: nat :: i < |mid| ==>
                    jobs[i] == if i in ids[..n] && !publishes(i) then FailedOnce(mid[i], now) else mid[i]
      {
        assert ids[n] in ids && ids[n] !in ids[..n];
        assert ids[..n + 1] == ids[..n] + [ids[n]];
        if !publishes(ids[n]) {
          MarkFailure(ids[n], now);
        }
      }
      assert ids[..|ids|] == ids;
    }
  }

  // ---------------------------------------------------------------- the machine of one job

  datatype Action =
    | Claim(worker: string, now: Time, leaseSeconds: int)
    | Success(now: Time)
    | Failure(now: Time)
    | Patch(enabled: bool, intervalSeconds: int)

  datatype Event = ClaimMade | SuccessMarked | FailureMarked

  datatype Machine = Machine(job: SourceJob, log: seq<Event>)

  /** Marks may come from anyone at any time; a claim that finds the job not due does nothing. */
  function Perform(m: Machine, a: Action): Machine {
    match a
    case Claim(w, now, lease) =>
      if Due(m.job, now) then Machine(Claimed(m.job, w, now, lease), m.log + [ClaimMade]) else m
    case Success(now) => Machine(Succeeded(m.job, now), m.log + [SuccessMarked])
    case Failure(now) => Machine(FailedOnce(m.job, now), m.log + [FailureMarked])
    case Patch(enabled, interval) => m.(job := m.job.(enabled := enabled, intervalSeconds := interval))
  }

  function Run(j: SourceJob, actions: seq<Action>): Machine {
    if actions == [] then Machine(j, [])
    else Perform(Run(j, actions[..|actions| - 1]), actions[|actions| - 1])
  }

  predicate New(j: SourceJob) {
    j.status == JobPending && j.attempts == 0 && j.lockedUntil == None && j.lockedBy == None
  }

  function ClaimsSinceSuccess(log: seq<Event>): nat {
    if log == [] then 0
    else match log[|log| - 1]
      case SuccessMarked => 0
      case ClaimMade => ClaimsSinceSuccess(log[..|log| - 1]) + 1
      case FailureMarked => ClaimsSinceSuccess(log[..|log| - 1])
  }

  ghost predicate Consistent(m: Machine) {
    && (m.job.status == JobQueued <==> m.job.lockedUntil.Some?)
    && (m.job.status == JobQueued <==> m.job.lockedBy.Some?)
    && (m.job.status == JobQueued <==> m.log != [] && m.log[|m.log| - 1] == ClaimMade)
    && m.job.attempts == ClaimsSinceSuccess(m.log)
    && (forall i :: 0 <= i < |m.log| - 1 ==> !(m.log[i] == ClaimMade && m.log[i + 1] == ClaimMade))
  }

  ghost predicate Bounded(m: Machine) {
    && m.job.attempts <= m.job.maxAttempts
    && (m.job.status == JobPending || m.job.status == JobRetry ==> m.job.attempts < m.job.maxAttempts)
    && (m.job.status == JobFailed ==> m.job.attempts == m.job.maxAttempts)
  }

  lemma PerformKeeps(m: Machine, a: Action)
    requires Consistent(m)
    ensures Consistent(Perform(m, a)) && Perform(m, a).job.maxAttempts == m.job.maxAttempts
    ensures m.job.maxAttempts >= 1 && Bounded(m) ==> Bounded(Perform(m, a))
  {
    var n := Perform(m, a);
    if n.log != m.log {
      assert n.log[..|m.log|] == m.log;
    }
  }

  /**
   Under any interleaving of schedulers, workers and administrators: a job is queued exactly while
   locked, which is exactly when the last claim is still unmarked, so two claims are always
   separated by a mark; and `attempts` counts the claims since the last success.
   */
  lemma {:induction false} JobAlwaysConsistent(j: SourceJob, actions: seq<Action>)
    requires New(j)
    ensures Consistent(Run(j, actions)) && Run(j, actions).job.maxAttempts == j.maxAttempts
    ensures j.maxAttempts >= 1 ==> Bounded(Run(j, actions))
  {
    if actions == [] {
    } else {
      JobAlwaysConsistent(j, actions[..|actions| - 1]);
      PerformKeeps(Run(j, actions[..|actions| - 1]), actions[|actions| - 1]);
    }
  }

  /** The claim filter does not look at `attempts`: they stay within bounds on every run iff one attempt is allowed. */
  lemma AttemptsBoundedIff(j: SourceJob)
    requires New(j)
    ensures (forall actions :: Run(j, actions).job.attempts <= j.maxAttempts) <==> j.maxAttempts >= 1
  {
    if j.maxAttempts >= 1 {
      forall actions
        ensures Run(j, actions).job.attempts <= j.maxAttempts
      {
        JobAlwaysConsistent(j, actions);
      }
    } else {
      var actions := [Patch(true, j.intervalSeconds), Claim("w", j.nextRunAt, 120)];
      assert actions[..1] == [actions[0]] && [actions[0]][..0] == [];
      assert Run(j, []) == Machine(j, []);
      assert Run(j, [actions[0]]) == Perform(Machine(j, []), actions[0]);
      assert Run(j, actions) == Perform(Run(j, [actions[0]]), actions[1]);
      assert Run(j, actions).job.attempts == 1;
    }
  }

  predicate Unmarked(actions: seq<Action>) {
    forall i :: 0 <= i < |actions| ==> actions[i].Claim? || actions[i].Patch?
  }

  function Continue(m: Machine, actions: seq<Action>): Machine {
    if actions == [] then m else Perform(Continue(m, actions[..|actions| - 1]), actions[|actions| - 1])
  }

  /**
   The lock never expires in effect.  The expiry test of the claim filter is dead, since no job that
   passes the status test is locked; and a queued job nobody marks stays queued and unclaimed, however
   long its lock has run out.
   */
  lemma LockExpiryIsDead(j: SourceJob, before: seq<Action>, after: seq<Action>, now: Time)
    requires New(j) && Unmarked(after)
    ensures var m := Run(j, before);
            && (Due(m.job, now) <==> m.job.enabled && m.job.nextRunAt <= now && (m.job.status == JobPending || m.job.status == JobRetry))
            && (m.job.status == JobQueued ==> Continue(m, after).job.status == JobQueued && Continue(m, after).log == m.log)
  {
    JobAlwaysConsistent(j, before);
    if Run(j, before).job.status == JobQueued {
      QueuedStays(Run(j, before), after);
    }
  }

  lemma {:induction false} QueuedStays(m: Machine, after: seq<Action>)
    requires m.job.status == JobQueued && Unmarked(after)
    ensures Continue(m, after).job.status == JobQueued && Continue(m, after).log == m.log
  {
    if after == [] {
    } else {
      assert forall i :: 0 <= i < |after| - 1 ==> after[..|after| - 1][i] == after[i];
      QueuedStays(m, after[..|after| - 1]);
    }
  }

  // ---------------------------------------------------------------- when a job runs again

  /** A claim takes the job, with one more attempt, if and only if it is enabled, due, pending or to be
      retried, and not locked. */
  lemma ClaimTakesIff(m: Machine, w: string, now: Time, leaseSeconds: int)
    ensures var j := m.job;
            Perform(m, Claim(w, now, leaseSeconds))
            == if && j.enabled && j.nextRunAt <= now && (j.status == JobPending || j.status == JobRetry)
                  && (j.lockedUntil.Some? ==> j.lockedUntil.value < now)
               then Machine(j.(status := JobQueued, lockedUntil := Some(now + leaseSeconds * 1_000_000), lockedBy := Some(w),
                               attempts := j.attempts + 1), m.log + [ClaimMade])
               else m
  {
  }

  /** What administrators last asked for. */
  function Patched(j: SourceJob, actions: seq<Action>): (bool, int) {
    if actions == [] then (j.enabled, j.intervalSeconds)
    else if actions[|actions| - 1].Patch? then (actions[|actions| - 1].enabled, actions[|actions| - 1].intervalSeconds)
    else Patched(j, actions[..|actions| - 1])
  }

  /** The job's switch and interval are always those last asked for. */
  lemma {:induction false} RunPatched(j: SourceJob, actions: seq<Action>)
    ensures (Run(j, actions).job.enabled, Run(j, actions).job.intervalSeconds) == Patched(j, actions)
  {
    if actions == [] {
    } else {
      RunPatched(j, actions[..|actions| - 1]);
    }
  }

  /** Claims before `due` and patches. */
  predicate Early(actions: seq<Action>, due: Time) {
    forall i :: 0 <= i < |actions| ==> actions[i].Patch? || (actions[i].Claim? && actions[i].now < due)
  }

  /** While nobody claims at its time or later, a job that waits keeps waiting. */
  lemma {:induction false} Waits(m: Machine, actions: seq<Action>)
    requires Early(actions, m.job.nextRunAt) || (m.job.status == JobFailed && Unmarked(actions))
    ensures var n := Continue(m, actions);
            && n.log == m.log && n.job == m.job.(enabled := n.job.enabled, intervalSeconds := n.job.intervalSeconds)
  {
    if actions == [] {
    } else {
      var init := actions[..|actions| - 1];
      assert forall i :: 0 <= i < |init| ==> init[i] == actions[i];
      Waits(m, init);
    }
  }

  /** The time a mark gives the job: after its interval, or after min(300, 2^(attempts - 1)) seconds, or never. */
  function NextTime(j: SourceJob, mark: Action): Option<Time>
    requires mark.Success? || mark.Failure?
  {
    if mark.Success? then Some(mark.now + j.intervalSeconds * 1_000_000)
    else if j.attempts >= j.maxAttempts then None
    else Some(mark.now + Min(300, Pow2(if j.attempts >= 1 then j.attempts - 1 else 0)) * 1_000_000)
  }

  /**
   After a mark, and whatever claims are tried before its next time, the job is unclaimed, and a claim takes
   it if and only if it is enabled and that time has come.  After the last failure none ever does.
   */
  lemma NextRun(j: SourceJob, before: seq<Action>, mark: Action, after: seq<Action>, w: string, now: Time, leaseSeconds: int)
    requires New(j) && (mark.Success? || mark.Failure?)
    requires var due := NextTime(Run(j, before).job, mark); if due.Some? then Early(after, due.value) else Unmarked(after)
    ensures var due, m := NextTime(Run(j, before).job, mark), Continue(Perform(Run(j, before), mark), after);
            && m.log == Run(j, before).log + [if mark.Success? then SuccessMarked else FailureMarked]
            && m.job.status == (if mark.Success? then JobPending else if due.Some? then JobRetry else JobFailed)
            && m.job.lockedUntil == None && m.job.lockedBy == None
            && m.job.attempts == (if mark.Success? then 0 else Run(j, before).job.attempts)
            && (Perform(m, Claim(w, now, leaseSeconds)) != m <==> m.job.enabled && due.Some? && due.value <= now)
  {
    var n := Perform(Run(j, before), mark);
    Waits(n, after);
    ClaimTakesIff(Continue(n, after), w, now, leaseSeconds);
    assert Continue(n, after).log + [ClaimMade] != Continue(n, after).log;
  }
}
