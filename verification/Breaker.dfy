/** The per-source circuit breaker, and what its whole call history guarantees. */
module Breaker {
  datatype Mode = Closed | Open | HalfOpen

  datatype Config = Config(failureThreshold: int, recoveryTimeout: int, successThreshold: int)

  datatype Circuit = Circuit(mode: Mode, failures: int, successes: int, openedAt: int)

  const INITIAL := Circuit(Closed, 0, 0, 0)

  predicate Admits(cfg: Config, c: Circuit, now: int) {
    c.mode != Open || now - c.openedAt >= cfg.recoveryTimeout
  }

  function Before(cfg: Config, c: Circuit, now: int): Circuit {
    if c.mode == Open && now - c.openedAt >= cfg.recoveryTimeout then c.(mode := HalfOpen, successes := 0) else c
  }

  function Succeed(cfg: Config, c: Circuit): Circuit {
    if c.mode == HalfOpen then
      if c.successes + 1 >= cfg.successThreshold then c.(successes := c.successes + 1, mode := Closed, failures := 0)
      else c.(successes := c.successes + 1)
    else c.(failures := 0, mode := Closed)
  }

  function Fail(cfg: Config, c: Circuit, now: int): Circuit {
    var failures := c.failures + 1;
    if c.mode == HalfOpen || failures >= cfg.failureThreshold then
      c.(failures := failures, mode := Open, openedAt := now)
    else c.(failures := failures)
  }

  class CircuitBreaker {
    const config: Config
    var mode: Mode
    var failures: int
    var successes: int
    var openedAt: int

    constructor (config: Config)
      ensures this.config == config && Value() == INITIAL
    {
      this.config := config;
      mode, failures, successes, openedAt := Closed, 0, 0, 0;
    }

    function Value(): Circuit
      reads this
    {
      Circuit(mode, failures, successes, openedAt)
    }

    /** Raises (`admitted` false) while the circuit is open and the recovery timeout has not passed. */
    method BeforeCall(now: int) returns (admitted: bool)
      modifies this
      ensures admitted == Admits(config, old(Value()), now) && Value() == Before(config, old(Value()), now)
      ensures admitted <==> (old(mode) == Open ==> now >= old(openedAt) + config.recoveryTimeout)
      ensures if admitted && old(mode) == Open then mode == HalfOpen && successes == 0
              else mode == old(mode) && successes == old(successes)
      ensures failures == old(failures) && openedAt == old(openedAt)
    {
      admitted := true;
      if mode == Open {
        if now - openedAt >= config.recoveryTimeout {
          mode := HalfOpen;
          successes := 0;
        } else {
          admitted := false;
        }
      }
    }

    method RecordSuccess()
      modifies this
      ensures Value() == Succeed(config, old(Value()))
      ensures successes == old(successes) + if old(mode) == HalfOpen then 1 else 0
      ensures if old(mode) == HalfOpen && successes < config.successThreshold then mode == HalfOpen && failures == old(failures)
              else mode == Closed && failures == 0
      ensures openedAt == old(openedAt)
    {
      if mode == HalfOpen {
        successes := successes + 1;
        if successes >= config.successThreshold {
          mode := Closed;
          failures := 0;
        }
      } else {
        failures := 0;
        mode := Closed;
      }
    }

    method RecordFailure(now: int)
      modifies this
      ensures Value() == Fail(config, old(Value()), now)
      ensures failures == old(failures) + 1 && successes == old(successes)
      ensures if old(mode) == HalfOpen || failures >= config.failureThreshold then mode == Open && openedAt == now
              else mode == old(mode) && openedAt == old(openedAt)
    {
      failures := failures + 1;
      if mode == HalfOpen || failures >= config.failureThreshold {
        mode := Open;
        openedAt := now;
      }
    }
  }

  // ---------------------------------------------------------------- histories

  /** How an admitted call ends: recorded one way or the other, or raising where nothing is recorded. */
  datatype Ending = SuccessRecorded | FailureRecorded | Unrecorded

  /** A call under the discipline of the dispatcher: admission at `at`, then at most one record at `done`. */
  datatype Call = Call(at: int, done: int, ending: Ending)

  /** An admitted call, and whether it left the circuit open. */
  datatype Entry = Entry(call: Call, tripped: bool)

  datatype Trace = Trace(circuit: Circuit, log: seq<Entry>)

  function Perform(cfg: Config, t: Trace, call: Call): Trace {
    if !Admits(cfg, t.circuit, call.at) then t
    else
      var c := Before(cfg, t.circuit, call.at);
      var d := match call.ending
        case SuccessRecorded => Succeed(cfg, c)
        case FailureRecorded => Fail(cfg, c, call.done)
        case Unrecorded => c;
      Trace(d, t.log + [Entry(call, d.mode == Open)])
  }

  function Run(cfg: Config, calls: seq<Call>): Trace {
    if calls == [] then Trace(INITIAL, [])
    else Perform(cfg, Run(cfg, calls[..|calls| - 1]), calls[|calls| - 1])
  }

  ghost predicate Sequential(calls: seq<Call>) {
    && (forall i :: 0 <= i < |calls| ==> calls[i].at <= calls[i].done)
    && (forall i, j :: 0 <= i < j < |calls| ==> calls[i].done <= calls[j].at)
  }

  /** The length of the last run of one ending among the recorded calls. */
  function Trailing(log: seq<Entry>, ending: Ending): nat {
    if log == [] then 0
    else
      var init, last := log[..|log| - 1], log[|log| - 1].call.ending;
      if last == Unrecorded then Trailing(init, ending) else if last == ending then 1 + Trailing(init, ending) else 0
  }

  /** The mode as a reading of the history: what each counter counts, and when the circuit last opened. */
  ghost predicate Consistent(cfg: Config, t: Trace) {
    var c, log := t.circuit, t.log;
    && (c.mode == Closed ==> c.failures == Trailing(log, FailureRecorded) < cfg.failureThreshold)
    && (c.mode == HalfOpen ==> c.successes == Trailing(log, SuccessRecorded) < cfg.successThreshold)
    && (c.mode == Open <==> log != [] && log[|log| - 1].tripped)
    && (c.mode == Open ==> log[|log| - 1].call.ending == FailureRecorded && c.openedAt == log[|log| - 1].call.done)
  }

  /** No call is admitted within the recovery timeout of any opening before it. */
  ghost predicate Rested(cfg: Config, log: seq<Entry>) {
    forall i, j :: 0 <= i < j < |log| && log[i].tripped ==> log[j].call.at - log[i].call.done >= cfg.recoveryTimeout
  }

  ghost predicate DoneBy(log: seq<Entry>, time: int) {
    forall i :: 0 <= i < |log| ==> log[i].call.at <= log[i].call.done <= time
  }

  ghost predicate Sound(cfg: Config) {
    cfg.failureThreshold >= 1 && cfg.successThreshold >= 1
  }

  lemma PerformConsistent(cfg: Config, t: Trace, call: Call)
    requires Sound(cfg) && Consistent(cfg, t)
    ensures Consistent(cfg, Perform(cfg, t, call))
  {
    var u := Perform(cfg, t, call);
    if u != t {
      assert u.log[..|t.log|] == t.log;
    }
  }

  lemma PerformRested(cfg: Config, t: Trace, call: Call)
    requires call.at <= call.done
    requires Consistent(cfg, t) && Rested(cfg, t.log) && DoneBy(t.log, call.at)
    ensures Rested(cfg, Perform(cfg, t, call).log) && DoneBy(Perform(cfg, t, call).log, call.done)
  {
    var n := |t.log|;
    if Admits(cfg, t.circuit, call.at) {
      forall i | 0 <= i < n && t.log[i].tripped
        ensures call.at - t.log[i].call.done >= cfg.recoveryTimeout
      {
        if i < n - 1 {
          assert t.log[n - 1].call.at - t.log[i].call.done >= cfg.recoveryTimeout;
        }
      }
    }
  }

  /**
   Over any sequential run, in which any admitted call may end without a record: while closed,
   `failures` is the last run of recorded failures and is below the threshold; while half-open,
   `successes` is the last run of recorded successes, possibly none, and is below its own; the
   circuit is open exactly after a call that opened it; and no call is admitted within the recovery
   timeout of any earlier opening.
   */
  lemma {:induction false} History(cfg: Config, calls: seq<Call>, now: int)
    requires Sound(cfg) && Sequential(calls) && (calls != [] ==> calls[|calls| - 1].done <= now)
    ensures Consistent(cfg, Run(cfg, calls)) && Rested(cfg, Run(cfg, calls).log) && DoneBy(Run(cfg, calls).log, now)
  {
    if calls == [] {
    } else {
      var init, call := calls[..|calls| - 1], calls[|calls| - 1];
      History(cfg, init, call.at);
      PerformConsistent(cfg, Run(cfg, init), call);
      PerformRested(cfg, Run(cfg, init), call);
    }
  }

  /** A call is admitted if and only if the call before it did not open the circuit, or did so at least the
      recovery timeout ago. */
  lemma AdmittedIff(cfg: Config, calls: seq<Call>, call: Call)
    requires Sound(cfg) && Sequential(calls + [call])
    ensures var t, u := Run(cfg, calls), Run(cfg, calls + [call]);
            && (u.log == t.log || exists tripped :: u.log == t.log + [Entry(call, tripped)])
            && (u.log != t.log <==>
                  t.log == [] || !t.log[|t.log| - 1].tripped || call.at - t.log[|t.log| - 1].call.done >= cfg.recoveryTimeout)
  {
    RunMore(cfg, calls, call);
    History(cfg, calls, call.at);
  }

  lemma RunMore(cfg: Config, calls: seq<Call>, call: Call)
    requires Sequential(calls + [call])
    ensures Run(cfg, calls + [call]) == Perform(cfg, Run(cfg, calls), call)
    ensures Sequential(calls) && (calls != [] ==> calls[|calls| - 1].done <= call.at)
  {
    assert (calls + [call])[..|calls|] == calls;
    assert (calls + [call])[|calls|] == call;
    assert forall i :: 0 <= i < |calls| ==> (calls + [call])[i] == calls[i];
  }

  lemma PerformOpens(cfg: Config, t: Trace, call: Call)
    requires Sound(cfg) && Consistent(cfg, t)
    ensures var u := Perform(cfg, t, call);
            u.log != t.log ==>
              && (u.circuit.mode == Open <==>
                    call.ending == FailureRecorded
                    && (t.circuit.mode != Closed || Trailing(u.log, FailureRecorded) == cfg.failureThreshold))
              && (t.circuit.mode == Closed && u.circuit.mode != Open ==> u.circuit.mode == Closed)
  {
    var u := Perform(cfg, t, call);
    if u != t {
      assert u.log[..|t.log|] == t.log;
    }
  }

  /**
   An admitted call opens the circuit if and only if it fails, and either the circuit was not closed or
   the failure is the threshold's in a row; below the threshold a closed circuit stays closed.
   */
  lemma OpeningNeedsFailures(cfg: Config, calls: seq<Call>, call: Call)
    requires Sound(cfg) && Sequential(calls + [call])
    ensures var t, u := Run(cfg, calls), Run(cfg, calls + [call]);
            u.log != t.log ==>
              && (u.circuit.mode == Open <==>
                    call.ending == FailureRecorded
                    && (t.circuit.mode != Closed || Trailing(u.log, FailureRecorded) == cfg.failureThreshold))
              && (t.circuit.mode == Closed && u.circuit.mode != Open ==> u.circuit.mode == Closed)
  {
    RunMore(cfg, calls, call);
    History(cfg, calls, call.at);
    PerformOpens(cfg, Run(cfg, calls), call);
  }

  lemma PerformCloses(cfg: Config, t: Trace, call: Call)
    requires Sound(cfg) && Consistent(cfg, t) && t.circuit.mode != Closed
    ensures var u := Perform(cfg, t, call);
            u.circuit.mode == Closed <==> Trailing(u.log, SuccessRecorded) == cfg.successThreshold
  {
    var u := Perform(cfg, t, call);
    if u != t {
      assert u.log[..|t.log|] == t.log;
    }
  }

  /** A circuit that is not closed closes only on the `successThreshold`-th success in a row. */
  lemma ClosingNeedsSuccesses(cfg: Config, calls: seq<Call>, call: Call)
    requires Sound(cfg) && Sequential(calls + [call])
    ensures var t, u := Run(cfg, calls), Run(cfg, calls + [call]);
            t.circuit.mode != Closed ==> (u.circuit.mode == Closed <==> Trailing(u.log, SuccessRecorded) == cfg.successThreshold)
  {
    RunMore(cfg, calls, call);
    History(cfg, calls, call.at);
    if Run(cfg, calls).circuit.mode != Closed {
      PerformCloses(cfg, Run(cfg, calls), call);
    }
  }
}
