/** What a delivery does to its own job, and when the job is due again. */
module WorkerJobs {
  import opened Arithmetic
  import opened Wrappers
  import opened Database
  import opened Idempotency
  import opened Worker
  import opened WorkerLaws
  import Agreement
  import Breaker
  import Ingestion
  import Jobs
  import Rescheduling

  /** The delivery takes the claim, executes, and gets its job marked as succeeded. */
  predicate Succeeded(s: State, g: Settings, c: Call) {
    Owns(s, g, c) && Ingestion.Executes(EnvOf(c), c.request, g.breaker, s.circuit) && MarkSuccessFault !in c.faults
  }

  /** Some step raises, and what follows gets as far as the failure mark, which does not raise. */
  predicate FailureMarked(s: State, g: Settings, c: Call) {
    && Stumbles(s, g, c) && MarkFailureFault !in c.faults
    && (c.message.delivery < g.maxDeliver || (DlqPublishFault !in c.faults && DlqRowFault !in c.faults))
  }

  /** The job as it stands when the failure mark is due. */
  function BeforeFailure(s: State, g: Settings, c: Call, j: Jobs.SourceJob): Jobs.SourceJob {
    if Succeeded(s, g, c) then
      j.(status := Jobs.JobPending, nextRunAt := c.markedAt + j.intervalSeconds * 1_000_000, lockedUntil := None, lockedBy := None,
         attempts := 0)
    else j
  }

  lemma OwnerJob(s: State, g: Settings, c: Call, i: nat)
    requires Parses(c.message) && i < |s.jobs| && c.message.body.job == JobId(i)
    ensures |Own(s, g, c).state.jobs| == |s.jobs|
    ensures var j, ran := s.jobs[i], Ingestion.Executes(EnvOf(c), c.request, g.breaker, s.circuit) && MarkSuccessFault !in c.faults;
            Own(s, g, c).state.jobs[i]
            == if ran then j.(status := Jobs.JobPending, nextRunAt := c.markedAt + j.intervalSeconds * 1_000_000,
                              lockedUntil := None, lockedBy := None, attempts := 0)
               else j
  {
  }

  lemma AttemptJob(s: State, g: Settings, c: Call, i: nat)
    requires i < |s.jobs| && c.message.body.Body? && c.message.body.job == JobId(i)
    ensures |Attempt(s, g, c).state.jobs| == |s.jobs|
    ensures Attempt(s, g, c).state.jobs[i] == BeforeFailure(s, g, c, s.jobs[i])
  {
    if Owns(s, g, c) {
      OwnerJob(ClaimTaken(s, g, c), g, c, i);
    }
  }

  lemma AttemptRaises(s: State, g: Settings, c: Call)
    ensures Attempt(s, g, c).answer.None? <==> Stumbles(s, g, c)
  {
  }

  /**
   The delivery's own job.  When it owns the claim, executes and marks, the job is pending, unlocked, with
   no attempts, next due after its interval.  When any step raises and the failure mark is reached and
   does not raise, the job, successfully marked before or not, is failed if its attempts are used up, and
   otherwise to be retried after min(300, 2^(attempts - 1)) seconds.  In every other case it is as it was.
   */
  lemma OwnJob(s: State, g: Settings, c: Call, i: nat)
    requires i < |s.jobs| && c.message.body.Body? && c.message.body.job == JobId(i)
    ensures |Handled(s, g, c).0.jobs| == |s.jobs|
    ensures var j := BeforeFailure(s, g, c, s.jobs[i]);
            Handled(s, g, c).0.jobs[i]
            == if !FailureMarked(s, g, c) then j
               else if j.attempts >= j.maxAttempts then j.(status := Jobs.JobFailed, lockedUntil := None, lockedBy := None)
               else j.(status := Jobs.JobRetry, lockedUntil := None, lockedBy := None,
                       nextRunAt := c.failedAt + Min(300, Pow2(if j.attempts >= 1 then j.attempts - 1 else 0)) * 1_000_000)
  {
    AttemptJob(s, g, c, i);
    AttemptRaises(s, g, c);
  }

  /** The row a claim leaves: leased for twice the acknowledgement wait and two minutes at least, unless a live claim of one's own. */
  function ClaimedRow(s: State, g: Settings, c: Call): MessageRow
    requires Owns(s, g, c)
  {
    var row := RowOf(s, KeyOf(c.message));
    var wait := if 2 * g.ackWait >= 120 then 2 * g.ackWait else 120;
    if row.Some? && row.value.status == Processing && row.value.leaseUntil.Some? && row.value.leaseUntil.value >= c.claimedAt then row.value
    else MessageRow(Processing, Some(c.claimedAt + wait * 1_000_000), g.worker)
  }

  /**
   The message's row after a delivery: as it was when the claim is not taken; completed when the owner
   executes and no mark raises; otherwise released, or left claimed when the release raises.
   */
  lemma OwnMessage(s: State, g: Settings, c: Call)
    requires Parses(c.message)
    ensures var row := RowOf(Handled(s, g, c).0, KeyOf(c.message));
            row == if !Owns(s, g, c) then RowOf(s, KeyOf(c.message))
                   else if Succeeded(s, g, c) && MarkCompletedFault !in c.faults then Some(MessageRow(Done, None, g.worker))
                   else if MarkFailedFault in c.faults then Some(ClaimedRow(s, g, c))
                   else Some(MessageRow(Released, None, g.worker))
  {
    AnswerTouches(s, g, c);
    if Owns(s, g, c) {
      OwnRow(ClaimTaken(s, g, c), g, c);
      ClaimExactly(RowOf(s, KeyOf(c.message)), g.worker, c.claimedAt, Max(g.ackWait * 2, 120));
    }
  }

  /** A delivery of which no step raises, from the claim to the acknowledgement. */
  predicate Clean(s: State, g: Settings, c: Call) {
    Succeeded(s, g, c) && MarkCompletedFault !in c.faults && EarlyAnswerFault !in c.faults
  }

  /**
   After a clean delivery the job is due again exactly from its interval on: over any further ticks and
   deliveries of the job, none of them raising in publication, claim or answer, it is claimed again if and
   only if it is enabled and some tick comes at that time or later.
   */
  lemma DueAgain(s: State, g: Settings, c: Call, i: nat, actions: seq<Rescheduling.Action>)
    requires Clean(s, g, c) && i < |s.jobs| && c.message.body.job == JobId(i)
    requires Rescheduling.OfJob(actions, i, c.message) && Rescheduling.Smooth(actions)
    ensures Rescheduling.Run(Handled(s, g, c).0, i, actions).claims == 1 <==>
              s.jobs[i].enabled
              && exists n :: 0 <= n < |actions| && actions[n].Schedule?
                             && actions[n].now >= c.markedAt + s.jobs[i].intervalSeconds * 1_000_000
  {
    var t := Handled(s, g, c).0;
    OwnJob(s, g, c, i);
    CleanCompletes(s, g, c);
    Rescheduling.ClaimedAgainIff(t, i, actions, c.message);
    assert forall n :: 0 <= n < |actions| ==>
      (Rescheduling.DueAt(t, i, actions[n]) <==>
         actions[n].Schedule? && s.jobs[i].enabled && actions[n].now >= c.markedAt + s.jobs[i].intervalSeconds * 1_000_000);
  }

  /** Executed under a tenant, source and job type. */
  ghost predicate RunAs(before: Db, after: Db, tenant: string, source: string, jobType: string, seen: nat) {
    var growth := |after.observations| - |before.observations|;
    && growth >= 0
    && after.runs == before.runs + [SourceRun(tenant, source, seen, growth)]
    && |before.outbox| <= |after.outbox|
    && Filter(after.outbox[|before.outbox|..], Agreement.Completes)
       == [OutboxMessage(tenant, Completed(source, growth, jobType), 0, None)]
  }

  lemma ExecutesAs(db: Db, env: Ingestion.Env, batch: seq<Observation>)
    ensures RunAs(db, Ingestion.Execute(db, env, batch), env.tenant, env.source, env.jobType, |batch|)
  {
    Agreement.ExecuteCounts(db, env, batch);
  }

  /** A delivery that commits does so under the tenant, source and job type of its message. */
  lemma CommitsAs(s: State, g: Settings, c: Call)
    requires Commits(s, g, c)
    ensures var body := c.message.body;
            RunAs(s.db, Handled(s, g, c).0.db, body.tenant, body.source.value, body.jobType, |c.request.fetch.batch|)
  {
    CommitsOnce(s, g, c);
    ExecutesAs(s.db, EnvOf(c), c.request.fetch.batch);
  }

  /** The breaker: a delivery that takes the claim is one call of it, if its source and tenant are permitted. */
  lemma CircuitTold(s: State, g: Settings, c: Call)
    ensures var q := c.request;
            Handled(s, g, c).0.circuit
            == if Owns(s, g, c) && c.message.body.source.value in q.adapters && c.message.body.source.value in q.allowed
                  && Ingestion.TenantBound(c.message.body.tenant)
               then Breaker.Perform(g.breaker, Breaker.Trace(s.circuit, []),
                                    Breaker.Call(q.calledAt, q.doneAt, Ingestion.EndingOf(q.fetch))).circuit
               else s.circuit
  {
    AttemptCircuit(s, g, c);
    if Owns(s, g, c) {
      Ingestion.AfterCallPerforms(EnvOf(c), c.request, g.breaker, Breaker.Trace(s.circuit, []));
    }
  }

  lemma AttemptCircuit(s: State, g: Settings, c: Call)
    ensures Handled(s, g, c).0.circuit
            == if Owns(s, g, c) then Ingestion.AfterCall(EnvOf(c), c.request, g.breaker, s.circuit) else s.circuit
  {
    BuriedCircuit(Attempt(s, g, c).state, c);
    if Owns(s, g, c) {
      WorkedCircuit(ClaimTaken(s, g, c), g, c);
    }
  }

  lemma BuriedCircuit(s: State, c: Call)
    ensures Buried(s, c).circuit == s.circuit && MarkedFailure(s, c).circuit == s.circuit
  {
  }

  lemma WorkedCircuit(s: State, g: Settings, c: Call)
    requires Parses(c.message)
    ensures Own(s, g, c).state.circuit == Ingestion.AfterCall(EnvOf(c), c.request, g.breaker, s.circuit)
  {
  }

  lemma CleanCompletes(s: State, g: Settings, c: Call)
    requires Clean(s, g, c)
    ensures DoneIn(Handled(s, g, c).0, c.message)
  {
    OwnRow(ClaimTaken(s, g, c), g, c);
  }
}
