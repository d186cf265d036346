/** What an answer to JetStream means, and that redelivery, faults and crashes apply a message's effects once. */
module WorkerLaws {
  import opened Wrappers
  import opened Database
  import opened Idempotency
  import opened Worker
  import Ingestion
  import Replay

  predicate DoneIn(s: State, m: Message) {
    m.body.Body? && KeyOf(m) in s.rows && s.rows[KeyOf(m)].status == Done
  }

  /** This delivery takes the claim. */
  predicate Owns(s: State, g: Settings, c: Call) {
    && Parses(c.message) && ClaimFault !in c.faults
    && ClaimOutcome(RowOf(s, KeyOf(c.message)), g.worker, c.claimedAt) == Claimed
  }

  /** This delivery commits an ingestion transaction. */
  predicate Commits(s: State, g: Settings, c: Call) {
    Owns(s, g, c) && Succeeds(ClaimTaken(s, g, c), g, c)
  }

  // ---------------------------------------------------------------- one delivery

  lemma BuryingTouches(s: State, c: Call)
    ensures Buried(s, c).rows == MarkedFailure(s, c).rows == s.rows && Buried(s, c).db == MarkedFailure(s, c).db == s.db
  {
  }

  /** What follows a raised attempt changes no message row and no database table. */
  lemma AnswerTouches(s: State, g: Settings, c: Call)
    ensures Handled(s, g, c).0.rows == Attempt(s, g, c).state.rows && Handled(s, g, c).0.db == Attempt(s, g, c).state.db
  {
    BuryingTouches(Attempt(s, g, c).state, c);
  }

  /** The claim's row after the owner's block. */
  lemma OwnRow(s: State, g: Settings, c: Call)
    requires Parses(c.message)
    ensures var row := RowOf(s, KeyOf(c.message));
            RowOf(Own(s, g, c).state, KeyOf(c.message))
            == if Succeeds(s, g, c) && MarkSuccessFault !in c.faults && MarkCompletedFault !in c.faults
               then if Own(s, g, c).answer.None? && MarkFailedFault !in c.faults then FailRow(CompleteRow(row, g.worker), g.worker)
                    else CompleteRow(row, g.worker)
               else if MarkFailedFault in c.faults then row else FailRow(row, g.worker)
  {
  }

  /** What the owner's block does to the database and the dead letters. */
  lemma OwnTables(s: State, g: Settings, c: Call)
    requires Parses(c.message)
    ensures Own(s, g, c).state.db == Executed(s, g, c).db
    ensures Own(s, g, c).state.deadTopic == s.deadTopic && Own(s, g, c).state.deadRows == s.deadRows
  {
  }

  lemma AttemptTables(s: State, g: Settings, c: Call)
    ensures Attempt(s, g, c).state.db
            == if Commits(s, g, c) then Ingestion.Execute(s.db, EnvOf(c), c.request.fetch.batch) else s.db
    ensures Attempt(s, g, c).state.deadTopic == s.deadTopic && Attempt(s, g, c).state.deadRows == s.deadRows
  {
    if Owns(s, g, c) {
      OwnTables(ClaimTaken(s, g, c), g, c);
    }
  }

  /** A delivery touches no database table unless it commits, and then exactly by one execution. */
  lemma CommitsOnce(s: State, g: Settings, c: Call)
    ensures Handled(s, g, c).0.db
            == if Commits(s, g, c) then Ingestion.Execute(s.db, EnvOf(c), c.request.fetch.batch) else s.db
  {
    AnswerTouches(s, g, c);
    AttemptTables(s, g, c);
  }

  /** An acknowledged message is completed, by this delivery's own commit or before it, unless its deliveries are exhausted. */
  lemma AckMeansDone(s: State, g: Settings, c: Call)
    requires Handled(s, g, c).1 == Ack && c.message.delivery < g.maxDeliver
    ensures DoneIn(Handled(s, g, c).0, c.message)
    ensures if DoneIn(s, c.message) then Handled(s, g, c).0 == s else Commits(s, g, c)
  {
    var k := KeyOf(c.message);
    if DoneIn(s, c.message) {
      assert s.rows[k := s.rows[k]] == s.rows;
    } else {
      assert Owns(s, g, c);
    }
  }

  /** Some step of the delivery raises before its answer: parsing, claiming, answering, or a step of the claim's owner. */
  predicate Stumbles(s: State, g: Settings, c: Call) {
    || !Parses(c.message)
    || ClaimFault in c.faults
    || EarlyAnswerFault in c.faults
    || (Owns(s, g, c)
        && (|| !Ingestion.Executes(EnvOf(c), c.request, g.breaker, s.circuit)
            || MarkSuccessFault in c.faults
            || MarkCompletedFault in c.faults))
  }

  /**
   On the last delivery: if nothing stumbles the answer is that of the claim, with no dead letter;
   if something does, the message is acknowledged unless answering itself raises, the dead-letter
   topic has it exactly when its body is readable and the publish did not raise, and the table
   exactly when the row did not raise either.
   */
  lemma ExhaustedDelivery(s: State, g: Settings, c: Call)
    requires c.message.delivery >= g.maxDeliver
    ensures var t, verdict, raised := Handled(s, g, c).0, Handled(s, g, c).1, Stumbles(s, g, c);
            && verdict == (if raised then if FinalAnswerFault in c.faults then NoAnswer else Ack
                           else if ClaimOutcome(RowOf(s, KeyOf(c.message)), g.worker, c.claimedAt) == Busy then Nak else Ack)
            && (t.deadTopic != s.deadTopic <==> raised && c.message.body.Body? && DlqPublishFault !in c.faults)
            && (t.deadRows != s.deadRows <==> t.deadTopic != s.deadTopic && DlqRowFault !in c.faults)
            && (c.message.body.Body? ==>
                  var body := c.message.body;
                  var letter := DeadLetter(if body.source.Some? then body.source.value else "unknown", body.tenant, c.message.id,
                                           c.message.delivery);
                  && (t.deadTopic != s.deadTopic ==> t.deadTopic == s.deadTopic + [letter])
                  && (t.deadRows != s.deadRows ==> t.deadRows == s.deadRows + [letter]))
  {
    AttemptTables(s, g, c);
    if c.message.body.Body? {
      assert |s.deadTopic + [LetterOf(c.message)]| == |s.deadTopic| + 1;
      assert |s.deadRows + [LetterOf(c.message)]| == |s.deadRows| + 1;
    }
  }

  /**
   The answer to any delivery.  When nothing stumbles it is that of the claim: put back when busy, else
   acknowledged.  When something does, and the final answer does not raise, it is put back before the last
   delivery and acknowledged on it.  Before the last delivery there is no dead letter.
   */
  lemma AnswerExactly(s: State, g: Settings, c: Call)
    ensures Handled(s, g, c).1
            == if !Stumbles(s, g, c)
               then if ClaimOutcome(RowOf(s, KeyOf(c.message)), g.worker, c.claimedAt) == Busy then Nak else Ack
               else if FinalAnswerFault in c.faults then NoAnswer
               else if c.message.delivery < g.maxDeliver then Nak else Ack
    ensures c.message.delivery < g.maxDeliver || !Stumbles(s, g, c) ==>
              Handled(s, g, c).0.deadTopic == s.deadTopic && Handled(s, g, c).0.deadRows == s.deadRows
  {
    AttemptTables(s, g, c);
  }

  /** Busy is answered before exhaustion is looked at: the last delivery is only put back, with no dead letter. */
  lemma BusyOnlyNaks(s: State, g: Settings, c: Call)
    requires Parses(c.message) && ClaimFault !in c.faults && EarlyAnswerFault !in c.faults
    requires ClaimOutcome(RowOf(s, KeyOf(c.message)), g.worker, c.claimedAt) == Busy
    ensures Handled(s, g, c) == (s, Nak)
  {
    assert s.rows[KeyOf(c.message) := s.rows[KeyOf(c.message)]] == s.rows;
  }

  /**
   A failed attempt of the owner gives the claim back at once: unless the release itself raises, any
   worker's next claim succeeds, at any time, except when only the acknowledgement failed and the
   message is completed.
   */
  lemma FailureReleases(s: State, g: Settings, c: Call, w: string, when: Time)
    requires Owns(s, g, c) && Attempt(s, g, c).answer.None? && MarkFailedFault !in c.faults
    ensures var t, row := Handled(s, g, c).0, RowOf(Handled(s, g, c).0, KeyOf(c.message));
            && (DoneIn(t, c.message) <==>
                  Commits(s, g, c) && MarkSuccessFault !in c.faults && MarkCompletedFault !in c.faults)
            && ClaimOutcome(row, w, when) == if DoneIn(t, c.message) then AlreadyCompleted else Outcome.Claimed
  {
    AnswerTouches(s, g, c);
    OwnRow(ClaimTaken(s, g, c), g, c);
  }

  lemma WorkedTouchesRow(s: State, g: Settings, c: Call, k: MessageKey)
    requires Parses(c.message)
    ensures k != KeyOf(c.message) ==> RowOf(Worked(s, g, c), k) == RowOf(s, k)
  {
  }

  lemma OwnTouchesRow(s: State, g: Settings, c: Call, k: MessageKey)
    requires Parses(c.message)
    ensures k != KeyOf(c.message) ==> RowOf(Own(s, g, c).state, k) == RowOf(s, k)
  {
    WorkedTouchesRow(s, g, c, k);
  }

  lemma OwnTouchesJob(s: State, g: Settings, c: Call, i: nat)
    requires Parses(c.message)
    ensures |Own(s, g, c).state.jobs| == |s.jobs|
    ensures i < |s.jobs| && c.message.body.job != JobId(i) ==> Own(s, g, c).state.jobs[i] == s.jobs[i]
  {
  }

  lemma AttemptTouches(s: State, g: Settings, c: Call, k: MessageKey, i: nat)
    ensures !(c.message.body.Body? && k == KeyOf(c.message)) ==> RowOf(Attempt(s, g, c).state, k) == RowOf(s, k)
    ensures |Attempt(s, g, c).state.jobs| == |s.jobs|
    ensures i < |s.jobs| && !(c.message.body.Body? && c.message.body.job == JobId(i)) ==>
              Attempt(s, g, c).state.jobs[i] == s.jobs[i]
  {
    if Owns(s, g, c) {
      OwnTouchesRow(ClaimTaken(s, g, c), g, c, k);
      OwnTouchesJob(ClaimTaken(s, g, c), g, c, i);
    }
  }

  lemma BuryingTouchesJob(s: State, c: Call, i: nat)
    requires i < |s.jobs| && !(c.message.body.Body? && c.message.body.job == JobId(i))
    ensures |Buried(s, c).jobs| == |MarkedFailure(s, c).jobs| == |s.jobs|
    ensures Buried(s, c).jobs[i] == MarkedFailure(s, c).jobs[i] == s.jobs[i]
  {
  }

  lemma BuryingKeepsJobs(s: State, c: Call)
    ensures |Buried(s, c).jobs| == |MarkedFailure(s, c).jobs| == |s.jobs|
  {
  }

  /** Only the message's own row and its own job may change. */
  lemma OthersUntouched(s: State, g: Settings, c: Call, k: MessageKey, i: nat)
    ensures !(c.message.body.Body? && k == KeyOf(c.message)) ==> RowOf(Handled(s, g, c).0, k) == RowOf(s, k)
    ensures |Handled(s, g, c).0.jobs| == |s.jobs|
    ensures i < |s.jobs| && !(c.message.body.Body? && c.message.body.job == JobId(i)) ==>
              Handled(s, g, c).0.jobs[i] == s.jobs[i]
  {
    var attempted := Attempt(s, g, c).state;
    AttemptTouches(s, g, c, k, i);
    BuryingTouches(attempted, c);
    BuryingKeepsJobs(attempted, c);
    if i < |s.jobs| && !(c.message.body.Body? && c.message.body.job == JobId(i)) {
      BuryingTouchesJob(attempted, c, i);
    }
  }

  /**
   A completed message stays completed and is not executed, whatever raises.  It is acknowledged
   without a trace unless claiming or acknowledging raises; then, short of exhaustion, the job that
   succeeded is marked as failed once more.
   */
  lemma CompletedInert(s: State, g: Settings, c: Call)
    requires DoneIn(s, c.message) && Parses(c.message)
    ensures DoneIn(Handled(s, g, c).0, c.message) && Handled(s, g, c).0.db == s.db
    ensures ClaimFault !in c.faults && EarlyAnswerFault !in c.faults ==> Handled(s, g, c) == (s, Ack)
    ensures (ClaimFault in c.faults || EarlyAnswerFault in c.faults) && c.message.delivery < g.maxDeliver ==>
              Handled(s, g, c) == (MarkedFailure(s, c), if FinalAnswerFault in c.faults then NoAnswer else Nak)
  {
    var k := KeyOf(c.message);
    assert s.rows[k := s.rows[k]] == s.rows;
  }

  /** Only a delivery that commits can complete its message. */
  lemma CompletionNeedsCommit(s: State, g: Settings, c: Call)
    ensures DoneIn(Handled(s, g, c).0, c.message) && !DoneIn(s, c.message) ==> Commits(s, g, c)
  {
    AnswerTouches(s, g, c);
    if Owns(s, g, c) {
      OwnRow(ClaimTaken(s, g, c), g, c);
    }
  }

  // ---------------------------------------------------------------- every run of one message

  datatype Delivery = Delivery(settings: Settings, call: Call)

  /** The state after some deliveries, how many of them committed, and the environment of the first that did. */
  datatype Story = Story(state: State, commits: nat, first: Option<Ingestion.Env>)

  function Deliver(h: Story, d: Delivery): Story {
    if Commits(h.state, d.settings, d.call)
    then Story(Handled(h.state, d.settings, d.call).0, h.commits + 1, Some(h.first.GetOr(EnvOf(d.call))))
    else h.(state := Handled(h.state, d.settings, d.call).0)
  }

  function Run(s: State, ds: seq<Delivery>): Story {
    if ds == [] then Story(s, 0, None) else Deliver(Run(s, ds[..|ds| - 1]), ds[|ds| - 1])
  }

  /** Deliveries of one message whose fetches, when they get so far, normalize to one batch.  A crash
      is a delivery whose remaining steps all raise. */
  predicate Redeliveries(ds: seq<Delivery>, m: Message, batch: seq<Observation>) {
    forall i :: 0 <= i < |ds| ==>
      && ds[i].call.message.id == m.id && ds[i].call.message.body == m.body
      && (ds[i].call.request.fetch.Normalized? ==> ds[i].call.request.fetch.batch == batch)
  }

  /** The tables an execution derives from observations: all but the run log and the outbox. */
  function Effects(db: Db): Db { db.(runs := [], outbox := []) }

  /** What the story so far did to the database: nothing, or one execution and a trace of each replay. */
  ghost predicate AppliedOnce(s: State, h: Story, tenant: string, batch: seq<Observation>) {
    && (h.commits == 0 <==> h.first.None?)
    && (h.first.None? ==> h.state.db == s.db)
    && (h.first.Some? ==>
          var once := Ingestion.Execute(s.db, h.first.value, batch);
          && h.first.value.tenant == tenant
          && Effects(h.state.db) == Effects(once)
          && |h.state.db.runs| == |s.db.runs| + h.commits
          && |h.state.db.outbox| == |once.outbox| + h.commits - 1)
  }

  lemma DeliverKeeps(s: State, h: Story, d: Delivery, batch: seq<Observation>)
    requires d.call.message.body.Body? && AppliedOnce(s, h, d.call.message.body.tenant, batch)
    requires d.call.request.fetch.Normalized? ==> d.call.request.fetch.batch == batch
    ensures AppliedOnce(s, Deliver(h, d), d.call.message.body.tenant, batch)
  {
    CommitsOnce(h.state, d.settings, d.call);
    if Commits(h.state, d.settings, d.call) {
      var env := EnvOf(d.call);
      if h.first.None? {
        Replay.FoldObservations(Ingestion.Tally(s.db, 0, 0, []), env, batch);
      } else {
        Replay.ExecuteSettles(s.db, h.first.value, batch);
        assert Effects(h.state.db).observations == Effects(Ingestion.Execute(s.db, h.first.value, batch)).observations;
        assert Replay.Covered(h.state.db, env, batch);
        Replay.StaleReplay(h.state.db, env, batch);
      }
    }
  }

  /**
   However often a message is delivered, to whatever workers, with whatever steps raising and
   crashes in between: the derived tables are as before or as after one execution, each further
   commit adds one run row and one "completed" message, and a completed message was executed.
   */
  lemma {:induction false} EffectsOnce(s: State, ds: seq<Delivery>, m: Message, batch: seq<Observation>)
    requires m.body.Body? && Redeliveries(ds, m, batch)
    ensures AppliedOnce(s, Run(s, ds), m.body.tenant, batch)
    ensures DoneIn(Run(s, ds).state, m) && !DoneIn(s, m) ==> Run(s, ds).commits > 0
  {
    if ds == [] {
    } else {
      var init, d := ds[..|ds| - 1], ds[|ds| - 1];
      EffectsOnce(s, init, m, batch);
      DeliverKeeps(s, Run(s, init), d, batch);
      CompletionNeedsCommit(Run(s, init).state, d.settings, d.call);
    }
  }

  // ---------------------------------------------------------------- other messages in between

  predicate SameMessage(d: Delivery, again: Delivery, batch: seq<Observation>) {
    && d.call.message.body == again.call.message.body
    && (d.call.request.fetch.Normalized? ==> d.call.request.fetch.batch == batch)
    && (again.call.request.fetch.Normalized? ==> again.call.request.fetch.batch == batch)
  }

  lemma {:induction false} DeliveriesKeepCovered(s: State, ds: seq<Delivery>, env: Ingestion.Env, batch: seq<Observation>)
    requires Replay.Covered(s.db, env, batch)
    ensures Replay.Covered(Run(s, ds).state.db, env, batch)
  {
    if ds == [] {
    } else {
      var init, d := ds[..|ds| - 1], ds[|ds| - 1];
      DeliveriesKeepCovered(s, init, env, batch);
      CommitsOnce(Run(s, init).state, d.settings, d.call);
      if Commits(Run(s, init).state, d.settings, d.call) {
        Replay.FoldObservations(Ingestion.Tally(Run(s, init).state.db, 0, 0, []), EnvOf(d.call), d.call.request.fetch.batch);
      }
    }
  }

  /**
   Once a delivery of a message has committed, then after any deliveries of any messages a further
   delivery of it leaves the database as it was, or adds one run row and one "completed" message and
   merges the batch into the entities again; nothing else.
   */
  lemma LaterDelivery(s: State, d: Delivery, between: seq<Delivery>, again: Delivery, batch: seq<Observation>)
    requires Commits(s, d.settings, d.call) && SameMessage(d, again, batch)
    ensures var before := Run(Handled(s, d.settings, d.call).0, between).state;
            Handled(before, again.settings, again.call).0.db
            == if Commits(before, again.settings, again.call)
               then var env := EnvOf(again.call);
                    Replay.Noted(before.db.(entities := Replay.EntityFold(before.db.entities, env.tenant, batch)), env, |batch|)
               else before.db
  {
    var first := Handled(s, d.settings, d.call).0;
    var before := Run(first, between).state;
    CommitsOnce(s, d.settings, d.call);
    CommitsOnce(before, again.settings, again.call);
    if Commits(before, again.settings, again.call) {
      var env := EnvOf(d.call);
      Replay.ExecuteSettles(s.db, env, batch);
      DeliveriesKeepCovered(first, between, env, batch);
      assert Replay.Covered(before.db, EnvOf(again.call), batch);
      Replay.StaleReplay(before.db, EnvOf(again.call), batch);
    }
  }
}
