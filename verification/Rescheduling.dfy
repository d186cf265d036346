/**
 A scheduled job across its runs.  The message id is the job id, so every run of a job publishes a
 message of the same id, and the processed-message row of the first run answers for all later ones.
 */
module Rescheduling {
  import opened Wrappers
  import opened Database
  import opened Idempotency
  import opened Worker
  import opened WorkerLaws
  import Jobs

  /** What happens to one job: scheduler ticks that may fail to publish, and deliveries of its messages. */
  datatype Action =
    | Schedule(worker: string, now: Time, leaseSeconds: int, published: bool)
    | Arrive(settings: Settings, call: Call)

  /** `claims` counts the ticks that claimed the job. */
  datatype Life = Life(state: State, claims: nat)

  function Perform(l: Life, j: nat, a: Action): Life {
    match a
    case Schedule(w, now, lease, published) =>
      if j < |l.state.jobs| && Jobs.Due(l.state.jobs[j], now) then
        var claimed := Jobs.Claimed(l.state.jobs[j], w, now, lease);
        Life(l.state.(jobs := l.state.jobs[j := if published then claimed else Jobs.FailedOnce(claimed, now)]), l.claims + 1)
      else l
    case Arrive(settings, call) => l.(state := Handled(l.state, settings, call).0)
  }

  function Run(s: State, j: nat, actions: seq<Action>): Life {
    if actions == [] then Life(s, 0) else Perform(Run(s, j, actions[..|actions| - 1]), j, actions[|actions| - 1])
  }

  /** Every message delivered is a message of job `j`, whose id is the job's own. */
  predicate OfJob(actions: seq<Action>, j: nat, m: Message) {
    && Parses(m) && m.body.job == JobId(j)
    && forall i :: 0 <= i < |actions| && actions[i].Arrive? ==>
         Parses(actions[i].call.message) && KeyOf(actions[i].call.message) == KeyOf(m)
         && actions[i].call.message.body.job == JobId(j)
  }

  /** Publishing, claiming and answering never raise. */
  predicate Smooth(actions: seq<Action>) {
    forall i :: 0 <= i < |actions| ==>
      if actions[i].Arrive? then ClaimFault !in actions[i].call.faults && EarlyAnswerFault !in actions[i].call.faults
      else actions[i].published
  }

  lemma PerformDone(l: Life, j: nat, a: Action, m: Message)
    requires Parses(m) && DoneIn(l.state, m)
    requires a.Arrive? ==> Parses(a.call.message) && KeyOf(a.call.message) == KeyOf(m)
    ensures var n := Perform(l, j, a);
            && DoneIn(n.state, m) && n.state.db == l.state.db
            && (a.Arrive? && ClaimFault !in a.call.faults && EarlyAnswerFault !in a.call.faults ==> n == l)
  {
    if a.Arrive? {
      CompletedInert(l.state, a.settings, a.call);
    }
  }

  /** Once a message of the job has been completed the job never executes again: over any run, whatever
      raises, no table of the database changes and the message stays completed. */
  lemma {:induction false} NeverExecutesAgain(s: State, j: nat, actions: seq<Action>, m: Message)
    requires OfJob(actions, j, m) && DoneIn(s, m)
    ensures Run(s, j, actions).state.db == s.db && DoneIn(Run(s, j, actions).state, m)
  {
    if actions == [] {
    } else {
      var init := actions[..|actions| - 1];
      assert forall i :: 0 <= i < |init| ==> init[i] == actions[i];
      NeverExecutesAgain(s, j, init, m);
      PerformDone(Run(s, j, init), j, actions[|actions| - 1], m);
    }
  }

  /**
   And while nothing raises it is claimed at most once more: the message is published, acknowledged
   unexecuted, and the job stays queued for good.
   */
  lemma {:induction false} QueuedForGood(s: State, j: nat, actions: seq<Action>, m: Message)
    requires OfJob(actions, j, m) && DoneIn(s, m) && Smooth(actions)
    ensures var l := Run(s, j, actions);
            && DoneIn(l.state, m) && l.claims <= 1
            && (if l.claims == 0 then l.state == s else j < |l.state.jobs| && l.state.jobs[j].status == Jobs.JobQueued)
  {
    if actions == [] {
    } else {
      var init := actions[..|actions| - 1];
      assert forall i :: 0 <= i < |init| ==> init[i] == actions[i];
      QueuedForGood(s, j, init, m);
      PerformDone(Run(s, j, init), j, actions[|actions| - 1], m);
    }
  }

  /** A tick at which the job is due. */
  predicate DueAt(s: State, j: nat, a: Action) {
    a.Schedule? && j < |s.jobs| && Jobs.Due(s.jobs[j], a.now)
  }

  lemma FirstClaim(s: State, l: Life, j: nat, a: Action, m: Message)
    requires DoneIn(s, m) && Parses(m) && l == Life(s, 0) && Smooth([a])
    requires a.Arrive? ==> Parses(a.call.message) && KeyOf(a.call.message) == KeyOf(m)
    ensures Perform(l, j, a).claims == if DueAt(s, j, a) then 1 else 0
  {
    assert [a][0] == a;
    PerformDone(l, j, a, m);
  }

  /** The exact condition for another claim: the job is due at some tick. */
  lemma {:induction false} ClaimedAgainIff(s: State, j: nat, actions: seq<Action>, m: Message)
    requires OfJob(actions, j, m) && DoneIn(s, m) && Smooth(actions)
    ensures Run(s, j, actions).claims == 1 <==> exists i :: 0 <= i < |actions| && DueAt(s, j, actions[i])
  {
    if actions == [] {
    } else {
      var init, a := actions[..|actions| - 1], actions[|actions| - 1];
      assert forall i :: 0 <= i < |init| ==> init[i] == actions[i];
      ClaimedAgainIff(s, j, init, m);
      QueuedForGood(s, j, init, m);
      if Run(s, j, init).claims == 0 {
        FirstClaim(s, Run(s, j, init), j, a, m);
      } else {
        QueuedForGood(s, j, actions, m);
        assert Perform(Run(s, j, init), j, a).claims >= 1;
        var i :| 0 <= i < |init| && DueAt(s, j, init[i]);
        assert DueAt(s, j, actions[i]);
      }
    }
  }
}
