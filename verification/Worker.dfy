/**
 The JetStream source worker: claim, execute, mark, answer; on a failure release the claim, and when
 the deliveries are exhausted write a dead letter.  `Handled` is the specification of one delivery
 under any combination of failing steps; `SourceWorker.Handle` is proved against it.
 */
module Worker {
  import opened Arithmetic
  import opened Wrappers
  import opened Database
  import opened Breaker
  import opened Idempotency
  import Geofencing
  import Ingestion
  import Jobs

  // ---------------------------------------------------------------- messages and steps

  datatype JobRef = NoJob | BadId(text: string) | JobId(id: nat)

  /** The decoded message body, or text that is no JSON object. */
  datatype Body =
    | Unreadable
    | Body(job: JobRef, source: Option<string>, jobType: string, tenant: string)

  datatype Message = Message(id: string, delivery: nat, body: Body)

  datatype DeadLetter = DeadLetter(source: string, tenant: string, message: string, delivery: nat)

  /** The awaited steps that may raise on their own account. */
  datatype Fault =
    | ClaimFault | MarkSuccessFault | MarkCompletedFault | EarlyAnswerFault | MarkFailedFault
    | DlqPublishFault | DlqRowFault | MarkFailureFault | FinalAnswerFault

  /** What JetStream is told; without an answer it redelivers after the acknowledgement wait. */
  datatype Verdict = Ack | Nak | NoAnswer

  datatype Settings = Settings(worker: string, maxDeliver: nat, ackWait: int, breaker: Config)

  /** One delivery: the message, the execution's surroundings, the clock readings of the claim and the two
      job marks, and the steps that raise. */
  datatype Call = Call(
    message: Message,
    env: Ingestion.Env,
    request: Ingestion.Request,
    claimedAt: Time,
    markedAt: Time,
    failedAt: Time,
    faults: set<Fault>)

  datatype State = State(
    db: Db,
    circuit: Circuit,
    rows: map<MessageKey, MessageRow>,
    jobs: seq<Jobs.SourceJob>,
    deadTopic: seq<DeadLetter>,
    deadRows: seq<DeadLetter>)

  /** A step's outcome: the state it leaves, and the answer given, or None when it raised. */
  datatype Step = Step(state: State, answer: Option<Verdict>)

  // ---------------------------------------------------------------- the specification

  predicate Parses(m: Message) {
    m.body.Body? && m.body.job.JobId? && m.body.source.Some?
  }

  function KeyOf(m: Message): MessageKey
    requires m.body.Body?
  {
    MessageKey(m.body.tenant, m.id)
  }

  /** The execution's environment: tenant, source and job type come from the message. */
  function EnvOf(c: Call): Ingestion.Env
    requires Parses(c.message)
  {
    c.env.(tenant := c.message.body.tenant, source := c.message.body.source.value, jobType := c.message.body.jobType)
  }

  function RowOf(s: State, k: MessageKey): Option<MessageRow> {
    if k in s.rows then Some(s.rows[k]) else None
  }

  function WithRow(s: State, k: MessageKey, row: Option<MessageRow>): State {
    s.(rows := MessageStore.Put(s.rows, k, row))
  }

  function ClaimTaken(s: State, g: Settings, c: Call): State
    requires Parses(c.message)
  {
    var k := KeyOf(c.message);
    WithRow(s, k, ClaimRow(RowOf(s, k), g.worker, c.claimedAt, Max(g.ackWait * 2, 120)))
  }

  predicate Succeeds(s: State, g: Settings, c: Call)
    requires Parses(c.message)
  {
    Ingestion.Executes(EnvOf(c), c.request, g.breaker, s.circuit)
  }

  function Executed(s: State, g: Settings, c: Call): State
    requires Parses(c.message)
  {
    s.(circuit := Ingestion.AfterCall(EnvOf(c), c.request, g.breaker, s.circuit),
       db := if Succeeds(s, g, c) then Ingestion.Execute(s.db, EnvOf(c), c.request.fetch.batch) else s.db)
  }

  function MarkedSuccess(s: State, c: Call): State
    requires Parses(c.message)
  {
    var id := c.message.body.job.id;
    if id < |s.jobs| then s.(jobs := s.jobs[id := Jobs.Succeeded(s.jobs[id], c.markedAt)]) else s
  }

  function MarkedCompleted(s: State, g: Settings, c: Call): State
    requires Parses(c.message)
  {
    WithRow(s, KeyOf(c.message), CompleteRow(RowOf(s, KeyOf(c.message)), g.worker))
  }

  function ClaimReleased(s: State, g: Settings, c: Call): State
    requires Parses(c.message)
  {
    if MarkFailedFault in c.faults then s
    else WithRow(s, KeyOf(c.message), FailRow(RowOf(s, KeyOf(c.message)), g.worker))
  }

  /** The owner's steps in order, up to the first that raises: execute, mark the job, mark the message. */
  function Worked(s: State, g: Settings, c: Call): State
    requires Parses(c.message)
  {
    var executed := Executed(s, g, c);
    if !Succeeds(s, g, c) || MarkSuccessFault in c.faults then executed
    else if MarkCompletedFault in c.faults then MarkedSuccess(executed, c)
    else MarkedCompleted(MarkedSuccess(executed, c), g, c)
  }

  predicate WorkRaises(s: State, g: Settings, c: Call)
    requires Parses(c.message)
  {
    !Succeeds(s, g, c) || MarkSuccessFault in c.faults || MarkCompletedFault in c.faults || EarlyAnswerFault in c.faults
  }

  /** The owner's block: the steps, then the acknowledgement; a raise anywhere releases the claim. */
  function Own(s: State, g: Settings, c: Call): Step
    requires Parses(c.message)
  {
    if WorkRaises(s, g, c) then Step(ClaimReleased(Worked(s, g, c), g, c), None) else Step(Worked(s, g, c), Some(Ack))
  }

  /** The guarded part of a delivery. */
  function Attempt(s: State, g: Settings, c: Call): Step {
    if !Parses(c.message) || ClaimFault in c.faults then Step(s, None)
    else
      var claimed := ClaimTaken(s, g, c);
      match ClaimOutcome(RowOf(s, KeyOf(c.message)), g.worker, c.claimedAt)
      case AlreadyCompleted => Step(claimed, if EarlyAnswerFault in c.faults then None else Some(Ack))
      case Busy => Step(claimed, if EarlyAnswerFault in c.faults then None else Some(Nak))
      case Claimed => Own(claimed, g, c)
  }

  function LetterOf(m: Message): DeadLetter
    requires m.body.Body?
  {
    DeadLetter(m.body.source.GetOr("unknown"), m.body.tenant, m.id, m.delivery)
  }

  /** The job's failure mark, skipped without a job id and swallowed when the id is malformed or the mark raises. */
  function MarkedFailure(s: State, c: Call): State {
    if c.message.body.Body? && c.message.body.job.JobId? && MarkFailureFault !in c.faults && c.message.body.job.id < |s.jobs|
    then s.(jobs := s.jobs[c.message.body.job.id := Jobs.FailedOnce(s.jobs[c.message.body.job.id], c.failedAt)])
    else s
  }

  /** Dead letter: topic, then row, then job mark; the first to raise ends it. */
  function Buried(s: State, c: Call): State {
    if c.message.body.Unreadable? || DlqPublishFault in c.faults then s
    else
      var published := s.(deadTopic := s.deadTopic + [LetterOf(c.message)]);
      if DlqRowFault in c.faults then published
      else MarkedFailure(published.(deadRows := s.deadRows + [LetterOf(c.message)]), c)
  }

  function Answer(c: Call, v: Verdict): Verdict {
    if FinalAnswerFault in c.faults then NoAnswer else v
  }

  function Handled(s: State, g: Settings, c: Call): (State, Verdict) {
    var attempt := Attempt(s, g, c);
    if attempt.answer.Some? then (attempt.state, attempt.answer.value)
    else if c.message.delivery >= g.maxDeliver then (Buried(attempt.state, c), Answer(c, Ack))
    else (MarkedFailure(attempt.state, c), Answer(c, Nak))
  }

  // ---------------------------------------------------------------- the worker

  class SourceWorker {
    const settings: Settings
    const session: Session
    const breaker: CircuitBreaker
    const messages: MessageStore
    const jobs: Jobs.JobStore
    var deadTopic: seq<DeadLetter>
    var deadRows: seq<DeadLetter>

    ghost predicate Valid()
      reads this, session, session.Repr
    {
      session.Valid() && breaker.config == settings.breaker
    }

    ghost function Value(): State
      reads this, session, breaker, messages, jobs
    {
      State(session.View(), breaker.Value(), messages.rows, jobs.jobs, deadTopic, deadRows)
    }

    constructor (settings: Settings, session: Session, breaker: CircuitBreaker, messages: MessageStore, jobs: Jobs.JobStore)
      requires session.Valid() && breaker.config == settings.breaker
      ensures Valid() && Value() == State(session.View(), breaker.Value(), messages.rows, jobs.jobs, [], [])
      ensures this.settings == settings
    {
      this.settings := settings;
      this.session, this.breaker, this.messages, this.jobs := session, breaker, messages, jobs;
      deadTopic, deadRows := [], [];
    }

    method Release(c: Call)
      requires Valid() && Parses(c.message)
      modifies messages
      ensures Valid() && Value() == ClaimReleased(old(Value()), settings, c)
    {
      if MarkFailedFault !in c.faults {
        messages.MarkFailed(KeyOf(c.message), settings.worker);
      }
    }

    /** The steps of the owner up to the acknowledgement; `raised` when one of them raises. */
    method Work(c: Call) returns (raised: bool)
      requires Valid() && Parses(c.message) && Geofencing.UniqueFences(c.env.world.fences)
      modifies session, session.Repr, breaker, messages, jobs
      ensures Valid() && Geofencing.Grown(old(session.Repr), session.Repr)
      ensures raised == WorkRaises(old(Value()), settings, c) && Value() == Worked(old(Value()), settings, c)
    {
      var r := Ingestion.Dispatch(session, breaker, EnvOf(c), c.request);
      if r.Failure? || MarkSuccessFault in c.faults {
        return true;
      }
      jobs.MarkSuccess(c.message.body.job.id, c.markedAt);
      if MarkCompletedFault in c.faults {
        return true;
      }
      messages.MarkCompleted(KeyOf(c.message), settings.worker);
      raised := EarlyAnswerFault in c.faults;
    }

    method TryHandle(c: Call) returns (answer: Option<Verdict>)
      requires Valid() && Geofencing.UniqueFences(c.env.world.fences)
      modifies session, session.Repr, breaker, messages, jobs
      ensures Valid() && Geofencing.Grown(old(session.Repr), session.Repr)
      ensures Step(Value(), answer) == Attempt(old(Value()), settings, c)
    {
      if !Parses(c.message) || ClaimFault in c.faults {
        return None;
      }
      var outcome := messages.TryClaim(KeyOf(c.message), settings.worker, Max(settings.ackWait * 2, 120), c.claimedAt);
      if outcome != Outcome.Claimed {
        var verdict := if outcome == AlreadyCompleted then Ack else Nak;
        return if EarlyAnswerFault in c.faults then None else Some(verdict);
      }
      var raised := Work(c);
      if raised {
        Release(c);
        return None;
      }
      answer := Some(Ack);
    }

    method MarkFailure(c: Call)
      requires Valid()
      modifies jobs
      ensures Valid() && Value() == MarkedFailure(old(Value()), c)
    {
      if c.message.body.Body? && c.message.body.job.JobId? && MarkFailureFault !in c.faults {
        jobs.MarkFailure(c.message.body.job.id, c.failedAt);
      }
    }

    method Bury(c: Call)
      requires Valid()
      modifies this, jobs
      ensures Valid() && Value() == Buried(old(Value()), c)
    {
      if c.message.body.Unreadable? || DlqPublishFault in c.faults {
        return;
      }
      deadTopic := deadTopic + [LetterOf(c.message)];
      if DlqRowFault !in c.faults {
        deadRows := deadRows + [LetterOf(c.message)];
        MarkFailure(c);
      }
    }

    /** `SourceWorker.handle`. */
    method Handle(c: Call) returns (verdict: Verdict)
      requires Valid() && Geofencing.UniqueFences(c.env.world.fences)
      modifies this, session, session.Repr, breaker, messages, jobs
      ensures Valid() && Geofencing.Grown(old(session.Repr), session.Repr)
      ensures (Value(), verdict) == Handled(old(Value()), settings, c)
    {
      var answer := TryHandle(c);
      if answer.Some? {
        return answer.value;
      }
      if c.message.delivery >= settings.maxDeliver {
        Bury(c);
        verdict := if FinalAnswerFault in c.faults then NoAnswer else Ack;
      } else {
        MarkFailure(c);
        verdict := if FinalAnswerFault in c.faults then NoAnswer else Nak;
      }
    }
  }
}
