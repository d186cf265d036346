/**
 The source worker one transaction at a time: any number of deliveries of any messages in progress at
 once, each at its own stage, so that one may outlive its lease while others act in between.
 */
module WorkerRuns {
  import opened Arithmetic
  import opened Wrappers
  import opened Database
  import Breaker
  import opened Idempotency
  import opened Worker
  import Ingestion
  import Replay

  predicate DoneKey(s: State, k: MessageKey) { k in s.rows && s.rows[k].status == Done }

  // ---------------------------------------------------------------- one delivery, stage by stage

  datatype Stage =
    | Claiming
    | Answering(early: Verdict)
    | Executing
    | MarkingJob
    | MarkingMessage
    | Acknowledging
    | Releasing
    | Failing
    | Recording
    | Marking(after: Verdict)
    | Closing(last: Verdict)
    | Answered(verdict: Verdict)

  /** The owner's stages are reached by readable messages only. */
  predicate Fits(c: Call, g: Stage) {
    && (g.Executing? || g.MarkingJob? || g.MarkingMessage? || g.Acknowledging? || g.Releasing? ==> Parses(c.message))
    && (g.Recording? ==> c.message.body.Body?)
  }

  /** The next step of a delivery, and the stage it leads to. */
  function Advance(s: State, g: Settings, c: Call, stage: Stage): (r: (State, Stage))
    requires Fits(c, stage)
    ensures Fits(c, r.1)
  {
    match stage
    case Claiming =>
      if !Parses(c.message) || ClaimFault in c.faults then (s, Failing)
      else
        (ClaimTaken(s, g, c),
         match ClaimOutcome(RowOf(s, KeyOf(c.message)), g.worker, c.claimedAt)
         case AlreadyCompleted => Answering(Ack)
         case Busy => Answering(Nak)
         case Claimed => Executing)
    case Answering(v) => (s, if EarlyAnswerFault in c.faults then Failing else Answered(v))
    case Executing => (Executed(s, g, c), if Succeeds(s, g, c) then MarkingJob else Releasing)
    case MarkingJob => if MarkSuccessFault in c.faults then (s, Releasing) else (MarkedSuccess(s, c), MarkingMessage)
    case MarkingMessage => if MarkCompletedFault in c.faults then (s, Releasing) else (MarkedCompleted(s, g, c), Acknowledging)
    case Acknowledging => (s, if EarlyAnswerFault in c.faults then Releasing else Answered(Ack))
    case Releasing => (ClaimReleased(s, g, c), Failing)
    case Failing =>
      if c.message.delivery < g.maxDeliver then (s, Marking(Nak))
      else if c.message.body.Unreadable? || DlqPublishFault in c.faults then (s, Closing(Ack))
      else (s.(deadTopic := s.deadTopic + [LetterOf(c.message)]), Recording)
    case Recording =>
      if DlqRowFault in c.faults then (s, Closing(Ack)) else (s.(deadRows := s.deadRows + [LetterOf(c.message)]), Marking(Ack))
    case Marking(v) => (MarkedFailure(s, c), Closing(v))
    case Closing(v) => (s, Answered(Answer(c, v)))
    case Answered(_) => (s, stage)
  }

  function Rank(stage: Stage): nat {
    match stage
    case Claiming => 10
    case Executing => 9
    case MarkingJob => 8
    case MarkingMessage => 7
    case Acknowledging => 6
    case Releasing => 5
    case Answering(_) => 5
    case Failing => 4
    case Recording => 3
    case Marking(_) => 2
    case Closing(_) => 1
    case Answered(_) => 0
  }

  /** The delivery run to its answer without interruption. */
  function Finish(s: State, g: Settings, c: Call, stage: Stage): (State, Verdict)
    requires Fits(c, stage)
    decreases Rank(stage)
  {
    if stage.Answered? then (s, stage.verdict)
    else
      var r := Advance(s, g, c, stage);
      Finish(r.0, g, c, r.1)
  }

  lemma FinishMarking(s: State, g: Settings, c: Call, v: Verdict)
    ensures Finish(s, g, c, Marking(v)) == (MarkedFailure(s, c), Answer(c, v))
  {
    assert Finish(MarkedFailure(s, c), g, c, Closing(v)) == (MarkedFailure(s, c), Answer(c, v));
  }

  lemma FinishFailing(s: State, g: Settings, c: Call)
    ensures Finish(s, g, c, Failing)
            == if c.message.delivery >= g.maxDeliver then (Buried(s, c), Answer(c, Ack)) else (MarkedFailure(s, c), Answer(c, Nak))
  {
    var r := Advance(s, g, c, Failing);
    if r.1.Marking? {
      FinishMarking(s, g, c, Nak);
    } else if r.1.Recording? {
      var t := Advance(r.0, g, c, Recording);
      assert Finish(r.0, g, c, Recording) == Finish(t.0, g, c, t.1);
      if t.1.Marking? {
        FinishMarking(t.0, g, c, Ack);
      } else {
        assert Finish(t.0, g, c, Closing(Ack)) == (t.0, Answer(c, Ack));
      }
    } else {
      assert Finish(s, g, c, Closing(Ack)) == (s, Answer(c, Ack));
    }
  }

  function Conclusion(g: Settings, c: Call, step: Step): (State, Verdict) {
    if step.answer.Some? then (step.state, step.answer.value)
    else if c.message.delivery >= g.maxDeliver then (Buried(step.state, c), Answer(c, Ack))
    else (MarkedFailure(step.state, c), Answer(c, Nak))
  }

  lemma FinishReleasing(s: State, g: Settings, c: Call)
    requires Parses(c.message)
    ensures Finish(s, g, c, Releasing) == Conclusion(g, c, Step(ClaimReleased(s, g, c), None))
  {
    FinishFailing(ClaimReleased(s, g, c), g, c);
  }

  lemma FinishMarks(s: State, g: Settings, c: Call)
    requires Parses(c.message)
    ensures Finish(s, g, c, MarkingMessage)
            == Conclusion(g, c, if MarkCompletedFault in c.faults then Step(ClaimReleased(s, g, c), None)
                                else if EarlyAnswerFault in c.faults then Step(ClaimReleased(MarkedCompleted(s, g, c), g, c), None)
                                else Step(MarkedCompleted(s, g, c), Some(Ack)))
  {
    if MarkCompletedFault in c.faults {
      FinishReleasing(s, g, c);
    } else {
      var t := MarkedCompleted(s, g, c);
      assert Finish(s, g, c, MarkingMessage) == Finish(t, g, c, Acknowledging);
      if EarlyAnswerFault in c.faults {
        FinishReleasing(t, g, c);
      }
    }
  }

  lemma FinishExecuting(s: State, g: Settings, c: Call)
    requires Parses(c.message)
    ensures Finish(s, g, c, Executing) == Conclusion(g, c, Own(s, g, c))
  {
    var t := Executed(s, g, c);
    if !Succeeds(s, g, c) {
      FinishReleasing(t, g, c);
    } else {
      assert Finish(s, g, c, Executing) == Finish(t, g, c, MarkingJob);
      if MarkSuccessFault in c.faults {
        FinishReleasing(t, g, c);
      } else {
        FinishMarks(MarkedSuccess(t, c), g, c);
      }
    }
  }

  /** Without interruption the stages are the worker's handling of the delivery. */
  lemma StagesAreHandling(s: State, g: Settings, c: Call)
    ensures Finish(s, g, c, Claiming) == Handled(s, g, c)
  {
    var r := Advance(s, g, c, Claiming);
    if r.1.Executing? {
      FinishExecuting(r.0, g, c);
    } else if r.1.Answering? {
      if EarlyAnswerFault in c.faults {
        FinishFailing(r.0, g, c);
      }
    } else {
      FinishFailing(r.0, g, c);
    }
  }

  /** From the completion mark on, a delivery without faults is acknowledged in any case; the message is then
      completed if and only if its row is still the worker's own, or another has completed it.  A row taken
      over since is left as it is. */
  lemma AckCompletesIff(s: State, g: Settings, c: Call)
    requires Parses(c.message) && c.faults == {}
    ensures var k, r := KeyOf(c.message), Finish(s, g, c, MarkingMessage);
            var row := RowOf(s, k);
            && r.1 == Ack
            && (DoneKey(r.0, k) <==> row.Some? && (row.value.worker == g.worker || row.value.status == Done))
            && (row.None? || row.value.worker != g.worker ==> r.0 == s)
  {
    var k := KeyOf(c.message);
    if k in s.rows {
      assert s.rows[k := s.rows[k]] == s.rows;
    }
    FinishMarks(s, g, c);
  }

  // ---------------------------------------------------------------- any interleaving

  datatype Flight = Flight(settings: Settings, call: Call, stage: Stage)

  /** The deliveries in progress, what has been executed so far, and for which messages. */
  datatype Crew = Crew(state: State, flights: map<nat, Flight>, executed: seq<Replay.Job>, keys: set<MessageKey>)

  /** `circuit` is the breaker of the worker process that takes the step. */
  datatype Action =
    | Receive(id: nat, settings: Settings, call: Call)
    | Proceed(id: nat, circuit: Breaker.Circuit)
    | Vanish(id: nat)

  function Perform(m: Crew, a: Action): Crew {
    match a
    case Receive(id, settings, call) => if id in m.flights then m else m.(flights := m.flights[id := Flight(settings, call, Claiming)])
    case Vanish(id) => m.(flights := m.flights - {id})
    case Proceed(id, circuit) =>
      if id !in m.flights || !Fits(m.flights[id].call, m.flights[id].stage) then m
      else
        var f, s := m.flights[id], m.state.(circuit := circuit);
        var r := Advance(s, f.settings, f.call, f.stage);
        var commits := f.stage.Executing? && Succeeds(s, f.settings, f.call);
        Crew(r.0, m.flights[id := f.(stage := r.1)],
             m.executed + (if commits then [Replay.Job(EnvOf(f.call), f.call.request.fetch.batch)] else []),
             m.keys + (if commits then {KeyOf(f.call.message)} else {}))
  }

  function Run(s: State, actions: seq<Action>): Crew {
    if actions == [] then Crew(s, map[], [], {}) else Perform(Run(s, actions[..|actions| - 1]), actions[|actions| - 1])
  }

  lemma AdvanceTables(s: State, g: Settings, c: Call, stage: Stage)
    requires Fits(c, stage)
    ensures Advance(s, g, c, stage).0.db
            == if stage.Executing? && Succeeds(s, g, c) then Ingestion.Execute(s.db, EnvOf(c), c.request.fetch.batch) else s.db
  {
  }

  /** However deliveries interleave, the database is the executions made, one after the other. */
  lemma {:induction false} RunExecutes(s: State, actions: seq<Action>)
    ensures Run(s, actions).state.db == Replay.ExecuteAll(s.db, Run(s, actions).executed)
  {
    if actions == [] {
    } else {
      var init, a := actions[..|actions| - 1], actions[|actions| - 1];
      RunExecutes(s, init);
      var m := Run(s, init);
      if a.Proceed? && a.id in m.flights && Fits(m.flights[a.id].call, m.flights[a.id].stage) {
        var f := m.flights[a.id];
        AdvanceTables(m.state.(circuit := a.circuit), f.settings, f.call, f.stage);
        assert m.executed + [] == m.executed;
        if Perform(m, a).executed != m.executed {
          Replay.ExecuteAllAppend(s.db, m.executed, Replay.Job(EnvOf(f.call), f.call.request.fetch.batch));
        }
      }
    }
  }

  /**
   Exactly-once effects, under any interleaving of any deliveries, redelivered, faulty, crashing or
   outliving their leases: the derived tables, and every outbox message but completion notices, are
   those of executing each piece of work once, at its first occurrence.  What a repeat does add is its
   run row, a completion notice, and the batch merged into the entities again.
   */
  lemma InterleavedEffectsOnce(s: State, actions: seq<Action>)
    ensures var m := Run(s, actions);
            var once := Replay.ExecuteAll(s.db, Replay.Firsts(m.executed));
            && Replay.Core(m.state.db) == Replay.Core(once)
            && Replay.Lasting(m.state.db.outbox) == Replay.Lasting(once.outbox)
            && |m.state.db.runs| == |s.db.runs| + |m.executed|
  {
    RunExecutes(s, actions);
    Replay.RepeatsChangeNothing(s.db, Run(s, actions).executed);
    Replay.RunsCount(s.db, Run(s, actions).executed);
  }

  lemma RepeatedExecution(s: State, actions: seq<Action>, job: Replay.Job)
    requires Replay.Repeats(Run(s, actions).executed, job)
    ensures var db := Run(s, actions).state.db;
            Ingestion.Execute(db, job.env, job.batch)
            == Replay.Noted(db.(entities := Replay.EntityFold(db.entities, job.env.tenant, job.batch)), job.env, |job.batch|)
  {
    RunExecutes(s, actions);
    Replay.RepeatCovered(s.db, Run(s, actions).executed, job);
    Replay.StaleReplay(Run(s, actions).state.db, job.env, job.batch);
  }

  // ---------------------------------------------------------------- no work is acknowledged unexecuted

  /** What a delivery at its stage says about its message. */
  predicate Justified(s: State, m: Crew, f: Flight) {
    var known := f.call.message.body.Body? && (KeyOf(f.call.message) in m.keys || DoneKey(s, KeyOf(f.call.message)));
    var exhausted := f.call.message.delivery >= f.settings.maxDeliver;
    match f.stage
    case MarkingJob => known
    case MarkingMessage => known
    case Acknowledging => known
    case Answering(v) => v == Ack ==> known
    case Answered(v) => v == Ack ==> known || exhausted
    case Recording => exhausted
    case Marking(v) => v == Ack ==> exhausted
    case Closing(v) => v == Ack ==> exhausted
    case _ => true
  }

  ghost predicate AllJustified(s: State, m: Crew) {
    && (forall k :: DoneKey(m.state, k) ==> k in m.keys || DoneKey(s, k))
    && (forall id :: id in m.flights ==> Fits(m.flights[id].call, m.flights[id].stage) && Justified(s, m, m.flights[id]))
  }

  lemma AdvanceDone(s: State, g: Settings, c: Call, stage: Stage, k: MessageKey)
    requires Fits(c, stage)
    ensures DoneKey(Advance(s, g, c, stage).0, k) ==> DoneKey(s, k) || (stage.MarkingMessage? && k == KeyOf(c.message))
  {
  }

  lemma AdvanceJustified(s: State, m: Crew, id: nat, circuit: Breaker.Circuit)
    requires AllJustified(s, m) && id in m.flights
    ensures var n := Perform(m, Proceed(id, circuit)); Justified(s, n, n.flights[id])
  {
    var f := m.flights[id];
    assert Justified(s, m, f);
    if f.stage.Claiming? && Parses(f.call.message) {
      assert DoneKey(m.state, KeyOf(f.call.message)) ==> KeyOf(f.call.message) in m.keys || DoneKey(s, KeyOf(f.call.message));
    }
  }

  lemma PerformJustified(s: State, m: Crew, a: Action)
    requires AllJustified(s, m)
    ensures AllJustified(s, Perform(m, a))
  {
    var n := Perform(m, a);
    if a.Proceed? && a.id in m.flights {
      var f := m.flights[a.id];
      AdvanceJustified(s, m, a.id, a.circuit);
      forall k | DoneKey(n.state, k)
        ensures k in n.keys || DoneKey(s, k)
      {
        AdvanceDone(m.state.(circuit := a.circuit), f.settings, f.call, f.stage, k);
      }
      assert forall id :: id in m.flights ==> Justified(s, m, m.flights[id]);
      assert m.keys <= n.keys;
    }
  }

  lemma {:induction false} RunJustified(s: State, actions: seq<Action>)
    ensures AllJustified(s, Run(s, actions))
  {
    if actions == [] {
    } else {
      RunJustified(s, actions[..|actions| - 1]);
      PerformJustified(s, Run(s, actions[..|actions| - 1]), actions[|actions| - 1]);
    }
  }

  /**
   Under any interleaving: a message acknowledged before its deliveries are exhausted, and a message
   marked completed, was executed in this run or completed before it.
   */
  lemma AcknowledgedMeansExecuted(s: State, actions: seq<Action>, id: nat, k: MessageKey)
    ensures var m := Run(s, actions);
            && (id in m.flights && m.flights[id].stage == Answered(Ack)
                && m.flights[id].call.message.delivery < m.flights[id].settings.maxDeliver ==>
                  var msg := m.flights[id].call.message;
                  msg.body.Body? && (KeyOf(msg) in m.keys || DoneKey(s, KeyOf(msg))))
            && (DoneKey(m.state, k) ==> k in m.keys || DoneKey(s, k))
  {
    RunJustified(s, actions);
    var m := Run(s, actions);
    if id in m.flights {
      assert Justified(s, m, m.flights[id]);
    }
  }

  lemma Then(s: State, actions: seq<Action>, a: Action) returns (more: seq<Action>)
    ensures Run(s, more) == Perform(Run(s, actions), a)
  {
    more := actions + [a];
    assert more[..|actions|] == actions;
  }

  /** Two deliveries of one message by different workers, the second claiming after the first one's lease. */
  predicate Overtakes(s: State, g: Settings, c: Call, h: Settings, d: Call) {
    && Parses(c.message) && d.message == c.message && c.faults == {} && d.faults == {} && g.worker != h.worker
    && Ingestion.Permitted(EnvOf(c), c.request) && c.request.fetch.Normalized?
    && KeyOf(c.message) !in s.rows
    && d.claimedAt > Lease(c.claimedAt, Max(g.ackWait * 2, 120))
  }

  lemma Claims(s: State, g: Settings, c: Call, h: Settings, d: Call) returns (actions: seq<Action>)
    requires Overtakes(s, g, c, h, d)
    ensures var m := Run(s, actions);
            && m.flights == map[0 := Flight(g, c, Executing)]
            && RowOf(m.state, KeyOf(c.message))
               == Some(MessageRow(Processing, Some(Lease(c.claimedAt, Max(g.ackWait * 2, 120))), g.worker))
  {
    actions := Then(s, [], Receive(0, g, c));
    assert Run(s, []) == Crew(s, map[], [], {});
    actions := Then(s, actions, Proceed(0, Breaker.INITIAL));
  }

  /** With a closed breaker and no faults, execution and the job mark go on and leave the message rows alone. */
  lemma OnwardStep(m: Crew, g: Settings, c: Call, stage: Stage)
    requires Parses(c.message) && c.faults == {} && Ingestion.Permitted(EnvOf(c), c.request) && c.request.fetch.Normalized?
    requires stage == Executing || stage == MarkingJob
    requires m.flights == map[0 := Flight(g, c, stage)]
    ensures var n := Perform(m, Proceed(0, Breaker.INITIAL));
            && n.flights == map[0 := Flight(g, c, if stage == Executing then MarkingJob else MarkingMessage)]
            && n.state.rows == m.state.rows
  {
  }

  lemma ExecutesNext(s: State, g: Settings, c: Call, h: Settings, d: Call) returns (actions: seq<Action>)
    requires Overtakes(s, g, c, h, d)
    ensures var m := Run(s, actions);
            && m.flights == map[0 := Flight(g, c, MarkingJob)]
            && RowOf(m.state, KeyOf(c.message))
               == Some(MessageRow(Processing, Some(Lease(c.claimedAt, Max(g.ackWait * 2, 120))), g.worker))
  {
    actions := Claims(s, g, c, h, d);
    OnwardStep(Run(s, actions), g, c, Executing);
    actions := Then(s, actions, Proceed(0, Breaker.INITIAL));
  }

  lemma MarksJob(s: State, g: Settings, c: Call, h: Settings, d: Call) returns (actions: seq<Action>)
    requires Overtakes(s, g, c, h, d)
    ensures var m := Run(s, actions);
            && m.flights == map[0 := Flight(g, c, MarkingMessage)]
            && RowOf(m.state, KeyOf(c.message))
               == Some(MessageRow(Processing, Some(Lease(c.claimedAt, Max(g.ackWait * 2, 120))), g.worker))
  {
    actions := ExecutesNext(s, g, c, h, d);
    OnwardStep(Run(s, actions), g, c, MarkingJob);
    actions := Then(s, actions, Proceed(0, Breaker.INITIAL));
  }

  /** The first worker has executed and marked the job when the second takes the message over. */
  lemma TakenOver(s: State, g: Settings, c: Call, h: Settings, d: Call) returns (actions: seq<Action>)
    requires Overtakes(s, g, c, h, d)
    ensures var m := Run(s, actions);
            && 0 in m.flights && m.flights[0] == Flight(g, c, MarkingMessage)
            && RowOf(m.state, KeyOf(c.message))
               == Some(MessageRow(Processing, Some(Lease(d.claimedAt, Max(h.ackWait * 2, 120))), h.worker))
  {
    actions := MarksJob(s, g, c, h, d);
    actions := Then(s, actions, Receive(1, h, d));
    var m := Run(s, actions);
    assert m.flights == map[0 := Flight(g, c, MarkingMessage), 1 := Flight(h, d, Claiming)];
    TakesOver(m.state.(circuit := Breaker.INITIAL), h, d);
    actions := Then(s, actions, Proceed(1, Breaker.INITIAL));
  }

  /** A claim past the lease of a row takes it over. */
  lemma TakesOver(s: State, h: Settings, d: Call)
    requires Parses(d.message) && d.faults == {}
    requires var row := RowOf(s, KeyOf(d.message));
             row.Some? && row.value.status == Processing && row.value.leaseUntil.Some? && row.value.leaseUntil.value < d.claimedAt
    ensures RowOf(Advance(s, h, d, Claiming).0, KeyOf(d.message))
            == Some(MessageRow(Processing, Some(Lease(d.claimedAt, Max(h.ackWait * 2, 120))), h.worker))
  {
  }

  /** So a message can be acknowledged, by the worker that executed it, and not be completed. */
  lemma AcknowledgedUncompleted(s: State, g: Settings, c: Call, h: Settings, d: Call) returns (actions: seq<Action>)
    requires Overtakes(s, g, c, h, d)
    ensures var m := Run(s, actions);
            0 in m.flights && m.flights[0] == Flight(g, c, Answered(Ack)) && !DoneKey(m.state, KeyOf(c.message))
  {
    actions := TakenOver(s, g, c, h, d);
    var m := Run(s, actions);
    assert m.state.rows[KeyOf(c.message) := m.state.rows[KeyOf(c.message)]] == m.state.rows;
    actions := Then(s, actions, Proceed(0, Breaker.INITIAL));
    assert 0 in Run(s, actions).flights && Run(s, actions).flights[0] == Flight(g, c, Acknowledging);
    actions := Then(s, actions, Proceed(0, Breaker.INITIAL));
  }
}
