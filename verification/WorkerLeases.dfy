/** How often one message is executed: once for each time its claim is taken, and what a further take needs. */
module WorkerLeases {
  import opened Arithmetic
  import opened Wrappers
  import opened Database
  import opened Idempotency
  import opened Worker
  import opened WorkerRuns

  /** One taking of a message's claim, and whether its owner gave it back by failing. */
  datatype Take = Take(worker: string, at: Time, until: Time, released: bool)

  /** A step of a delivery of message `k` at `stage`. */
  predicate StepsAt(m: Crew, a: WorkerRuns.Action, k: MessageKey, stage: Stage) {
    && a.Proceed? && a.id in m.flights && m.flights[a.id].stage == stage
    && Fits(m.flights[a.id].call, stage) && m.flights[a.id].call.message.body.Body? && KeyOf(m.flights[a.id].call.message) == k
  }

  /** The step takes the claim: the delivery goes on to execute. */
  predicate TakesClaim(m: Crew, a: WorkerRuns.Action, k: MessageKey) {
    StepsAt(m, a, k, Claiming) && WorkerRuns.Perform(m, a).flights[a.id].stage == Executing
  }

  predicate GivesBack(m: Crew, a: WorkerRuns.Action, k: MessageKey) {
    StepsAt(m, a, k, Releasing) && RowOf(WorkerRuns.Perform(m, a).state, k) != RowOf(m.state, k)
  }

  predicate Executes(m: Crew, a: WorkerRuns.Action, k: MessageKey) {
    StepsAt(m, a, k, Executing) && WorkerRuns.Perform(m, a).flights[a.id].stage == MarkingJob
  }

  function Takes(s: State, actions: seq<WorkerRuns.Action>, k: MessageKey): seq<Take> {
    if actions == [] then []
    else
      var init, a := actions[..|actions| - 1], actions[|actions| - 1];
      var takes, m := Takes(s, init, k), WorkerRuns.Run(s, init);
      if TakesClaim(m, a, k) then
        var row := RowOf(WorkerRuns.Perform(m, a).state, k);
        takes + [Take(m.flights[a.id].settings.worker, m.flights[a.id].call.claimedAt,
                      if row.Some? then row.value.leaseUntil.GetOr(0) else 0, false)]
      else if GivesBack(m, a, k) && takes != [] then takes[|takes| - 1 := takes[|takes| - 1].(released := true)]
      else takes
  }

  function Executions(s: State, actions: seq<WorkerRuns.Action>, k: MessageKey): nat {
    if actions == [] then 0
    else
      var init := actions[..|actions| - 1];
      Executions(s, init, k) + if Executes(WorkerRuns.Run(s, init), actions[|actions| - 1], k) then 1 else 0
  }

  // ---------------------------------------------------------------- the row and the takes

  /** The row is what the last take, and what became of it, says. */
  predicate RowFromTakes(row: Option<MessageRow>, takes: seq<Take>) {
    && (row.None? <==> takes == [])
    && (row.Some? ==>
          var last := takes[|takes| - 1];
          && row.value.worker == last.worker
          && (row.value.status == Processing ==> row.value.leaseUntil == Some(last.until) && !last.released)
          && (row.value.status == Released ==> last.released)
          && (row.value.status != Processing ==> row.value.leaseUntil == None))
  }

  /** A take after another: that one was released, or its lease had run out, or it is the same worker's. */
  predicate Justly(before: Take, after: Take) {
    before.released || before.until < after.at || before.worker == after.worker
  }

  predicate AllJustly(takes: seq<Take>) {
    forall i :: 0 < i < |takes| ==> Justly(takes[i - 1], takes[i])
  }

  /** A step on any message leaves the rows of the others alone. */
  lemma RowFrame(s: State, g: Settings, c: Call, stage: Stage, k: MessageKey)
    requires Fits(c, stage)
    ensures !(c.message.body.Body? && KeyOf(c.message) == k) ==> RowOf(Advance(s, g, c, stage).0, k) == RowOf(s, k)
    ensures !stage.Claiming? && !stage.MarkingMessage? && !stage.Releasing? ==> RowOf(Advance(s, g, c, stage).0, k) == RowOf(s, k)
  {
  }

  lemma ClaimStep(row: Option<MessageRow>, takes: seq<Take>, worker: string, at: Time, leaseSeconds: int)
    requires RowFromTakes(row, takes) && AllJustly(takes) && ClaimOutcome(row, worker, at) == Claimed
    ensures var after := ClaimRow(row, worker, at, leaseSeconds);
            && after.Some? && after.value.leaseUntil.Some?
            && var more := takes + [Take(worker, at, after.value.leaseUntil.value, false)];
               RowFromTakes(after, more) && AllJustly(more)
  {
  }

  /** What a step does to the row and to the takes of a message. */
  lemma StepTakes(m: Crew, a: WorkerRuns.Action, k: MessageKey, takes: seq<Take>, more: seq<Take>)
    requires RowFromTakes(RowOf(m.state, k), takes) && AllJustly(takes)
    requires more == if TakesClaim(m, a, k) then
                       var row := RowOf(WorkerRuns.Perform(m, a).state, k);
                       takes + [Take(m.flights[a.id].settings.worker, m.flights[a.id].call.claimedAt,
                                     if row.Some? then row.value.leaseUntil.GetOr(0) else 0, false)]
                     else if GivesBack(m, a, k) && takes != [] then takes[|takes| - 1 := takes[|takes| - 1].(released := true)]
                     else takes
    ensures RowFromTakes(RowOf(WorkerRuns.Perform(m, a).state, k), more) && AllJustly(more)
  {
    if a.Proceed? && a.id in m.flights && Fits(m.flights[a.id].call, m.flights[a.id].stage) {
      var f, s := m.flights[a.id], m.state.(circuit := a.circuit);
      RowFrame(s, f.settings, f.call, f.stage, k);
      if StepsAt(m, a, k, Claiming) && Parses(f.call.message) && ClaimFault !in f.call.faults {
        if ClaimOutcome(RowOf(s, k), f.settings.worker, f.call.claimedAt) == Claimed {
          ClaimStep(RowOf(s, k), takes, f.settings.worker, f.call.claimedAt, Max(f.settings.ackWait * 2, 120));
        }
      }
    }
  }

  lemma {:induction false} TakesAreJust(s: State, actions: seq<WorkerRuns.Action>, k: MessageKey)
    requires k !in s.rows
    ensures RowFromTakes(RowOf(WorkerRuns.Run(s, actions).state, k), Takes(s, actions, k)) && AllJustly(Takes(s, actions, k))
  {
    if actions == [] {
    } else {
      var init := actions[..|actions| - 1];
      TakesAreJust(s, init, k);
      StepTakes(WorkerRuns.Run(s, init), actions[|actions| - 1], k, Takes(s, init, k), Takes(s, actions, k));
    }
  }

  // ---------------------------------------------------------------- executions and takes

  predicate Owes(f: Flight, k: MessageKey) {
    f.stage == Executing && f.call.message.body.Body? && KeyOf(f.call.message) == k
  }

  /** The deliveries of a message that have taken its claim and not executed yet. */
  function Owing(m: Crew, k: MessageKey): set<nat> {
    set id | id in m.flights && Owes(m.flights[id], k)
  }

  lemma SizesAround(a: set<nat>, b: set<nat>, x: nat)
    requires a - {x} == b - {x}
    ensures |a| == |b| + (if x in a then 1 else 0) - (if x in b then 1 else 0)
  {
    assert x in a ==> a == (a - {x}) + {x};
    assert x !in a ==> a == a - {x};
    assert x in b ==> b == (b - {x}) + {x};
    assert x !in b ==> b == b - {x};
  }

  /** Only delivery `x` differs. */
  lemma OwingElsewhere(m: Crew, n: Crew, x: nat, k: MessageKey)
    requires n.flights.Keys == m.flights.Keys && x in m.flights
    requires forall id :: id in m.flights && id != x ==> n.flights[id] == m.flights[id]
    ensures |Owing(n, k)| == |Owing(m, k)| + (if Owes(n.flights[x], k) then 1 else 0) - (if Owes(m.flights[x], k) then 1 else 0)
  {
    forall id: nat
      ensures id in Owing(n, k) - {x} <==> id in Owing(m, k) - {x}
    {
      if id in m.flights && id != x {
        assert n.flights[id] == m.flights[id];
      }
    }
    SizesAround(Owing(n, k), Owing(m, k), x);
  }

  lemma OwingStep(m: Crew, a: WorkerRuns.Action, k: MessageKey)
    ensures var n := WorkerRuns.Perform(m, a);
            |Owing(n, k)| + (if Executes(m, a, k) then 1 else 0) <= |Owing(m, k)| + if TakesClaim(m, a, k) then 1 else 0
  {
    var n := WorkerRuns.Perform(m, a);
    if a.Proceed? && a.id in m.flights {
      OwingElsewhere(m, n, a.id, k);
    } else {
      Subset(Owing(n, k), Owing(m, k));
    }
  }

  lemma {:induction false} Subset(a: set<nat>, b: set<nat>)
    requires a <= b
    ensures |a| <= |b|
  {
    if a == {} {
    } else {
      var x :| x in a;
      Subset(a - {x}, b - {x});
    }
  }

  lemma {:induction false} ExecutionsWithinTakes(s: State, actions: seq<WorkerRuns.Action>, k: MessageKey)
    ensures Executions(s, actions, k) + |Owing(WorkerRuns.Run(s, actions), k)| <= |Takes(s, actions, k)|
  {
    if actions == [] {
    } else {
      var init := actions[..|actions| - 1];
      ExecutionsWithinTakes(s, init, k);
      OwingStep(WorkerRuns.Run(s, init), actions[|actions| - 1], k);
    }
  }

  /**
   Under any interleaving, a message is executed at most once for each time its claim is taken, and the
   claim is taken again only after the owner released it, after its lease, or by the same worker; so a
   message is executed a second time only after a failure, an expired lease, or a restart.
   */
  lemma SecondExecution(s: State, actions: seq<WorkerRuns.Action>, k: MessageKey)
    requires k !in s.rows
    ensures var takes := Takes(s, actions, k);
            && Executions(s, actions, k) <= |takes|
            && (Executions(s, actions, k) >= 2 ==> exists i :: 0 < i < |takes| && Justly(takes[i - 1], takes[i]))
            && (forall i :: 0 < i < |takes| ==> Justly(takes[i - 1], takes[i]))
  {
    TakesAreJust(s, actions, k);
    ExecutionsWithinTakes(s, actions, k);
    var takes := Takes(s, actions, k);
    if |takes| >= 2 {
      assert Justly(takes[1 - 1], takes[1]);
    }
  }
}
