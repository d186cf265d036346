/**
 One delivery under any interleaving of notifier workers: claim, start, send, commit, crash, and
 the passage of time, with processing split at its transaction boundaries.
 */
module DeliveryProtocol {
  import opened Arithmetic
  import opened Wrappers
  import opened Database
  import opened Deliveries

  /** A worker inside processing: what it read at start, and how far it got. */
  datatype Phase = Started | Sent(ok: bool) | Skipping

  datatype Flight = Flight(attempts: nat, leaseUntil: Time, at: Time, phase: Phase)

  /** `delivered`: a send has succeeded.  `lost`: a worker crashed between a successful send and its commit. */
  datatype Machine = Machine(
    row: Delivery,
    now: Time,
    flights: map<string, Flight>,
    commits: nat,
    backoff: int,
    delivered: bool,
    lost: bool)

  datatype Action =
    | Clock(to: Time)
    | Claim(worker: string)
    | Start(worker: string, deliverable: bool)
    | Send(worker: string, ok: bool)
    | Commit(worker: string)
    | Crash(worker: string)

  function VerdictOf(p: Phase): Verdict
    requires !p.Started?
  {
    match p
    case Sent(ok) => if ok then Accepted else Refused
    case Skipping => Skip
  }

  /** An action whose guard fails changes nothing: the claim finds no row, the start raises. */
  function Perform(m: Machine, a: Action, leaseSeconds: int): Machine {
    match a
    case Clock(to) => if to >= m.now then m.(now := to) else m
    case Claim(w) =>
      if w !in m.flights && Ready(m.row, m.now) then m.(row := Claimed(m.row, w, LeaseUntil(m.now, leaseSeconds))) else m
    case Start(w, deliverable) =>
      if w !in m.flights && m.row.status == Sending && m.row.claimedBy == Some(w) then
        var f := Flight(m.row.attempts + 1, m.row.leaseUntil.GetOr(m.now), m.now, if deliverable then Started else Skipping);
        m.(flights := m.flights[w := f])
      else m
    case Send(w, ok) =>
      if w in m.flights && m.flights[w].phase == Started then
        m.(flights := m.flights[w := m.flights[w].(phase := Sent(ok))], delivered := m.delivered || ok)
      else m
    case Commit(w) =>
      if w in m.flights && !m.flights[w].phase.Started? then
        var f := m.flights[w];
        var row := Concluded(m.row, f.attempts, VerdictOf(f.phase), f.at);
        m.(row := row, flights := m.flights - {w}, commits := m.commits + 1,
           backoff := m.backoff + if row.status == Pending then Backoff(f.attempts) else 0)
      else m
    case Crash(w) =>
      if w in m.flights then
        m.(flights := m.flights - {w}, lost := m.lost || m.flights[w].phase == Sent(true))
      else m
  }

  function Run(m: Machine, actions: seq<Action>, leaseSeconds: int): Machine {
    if actions == [] then m
    else Perform(Run(m, actions[..|actions| - 1], leaseSeconds), actions[|actions| - 1], leaseSeconds)
  }

  ghost predicate Initial(m: Machine) {
    && m.row.status == Pending && m.row.attempts == 0 < m.row.maxAttempts
    && m.row.claimedBy == None && m.row.leaseUntil == None
    && m.flights == map[] && m.commits == 0 && m.backoff == 0 && !m.delivered && !m.lost
  }

  // ---------------------------------------------------------------- any run at all

  /** Sending exactly when owned and leased; attempts bounded; "failed" only when they are used up. */
  ghost predicate RowInvariant(m: Machine) {
    && (m.row.status == Sending <==> m.row.claimedBy.Some?)
    && (m.row.status == Sending <==> m.row.leaseUntil.Some?)
    && m.row.attempts <= m.row.maxAttempts
    && (m.row.status == Pending || m.row.status == Sending ==> m.row.attempts < m.row.maxAttempts)
    && (m.row.status == Failed ==> m.row.attempts == m.row.maxAttempts)
    && (forall w :: w in m.flights ==> 1 <= m.flights[w].attempts <= m.row.maxAttempts)
  }

  lemma PerformKeepsRow(m: Machine, a: Action, leaseSeconds: int)
    requires RowInvariant(m)
    ensures RowInvariant(Perform(m, a, leaseSeconds)) && Perform(m, a, leaseSeconds).row.maxAttempts == m.row.maxAttempts
  {
    match a
    case Clock(_) =>
    case Claim(_) =>
    case Start(_, _) =>
    case Send(_, _) =>
    case Commit(_) =>
    case Crash(_) =>
  }

  /** However claims, overrun leases, crashes and late commits interleave, the row stays well formed. */
  lemma {:induction false} RowAlwaysWellFormed(m: Machine, actions: seq<Action>, leaseSeconds: int)
    requires Initial(m)
    ensures RowInvariant(Run(m, actions, leaseSeconds)) && Run(m, actions, leaseSeconds).row.maxAttempts == m.row.maxAttempts
  {
    if actions == [] {
    } else {
      RowAlwaysWellFormed(m, actions[..|actions| - 1], leaseSeconds);
      PerformKeepsRow(Run(m, actions[..|actions| - 1], leaseSeconds), actions[|actions| - 1], leaseSeconds);
    }
  }

  /** The action at `n` of a run sends, and the notifier accepts. */
  predicate Accepts(m: Machine, actions: seq<Action>, leaseSeconds: int, n: nat) {
    && n < |actions| && actions[n].Send? && actions[n].ok
    && var before := Run(m, actions[..n], leaseSeconds);
       actions[n].worker in before.flights && before.flights[actions[n].worker].phase == Started
  }

  /** The action at `n` is a crash between an accepted send and its commit. */
  predicate Loses(m: Machine, actions: seq<Action>, leaseSeconds: int, n: nat) {
    && n < |actions| && actions[n].Crash?
    && var before := Run(m, actions[..n], leaseSeconds);
       actions[n].worker in before.flights && before.flights[actions[n].worker].phase == Sent(true)
  }

  lemma SameBefore(m: Machine, actions: seq<Action>, leaseSeconds: int, n: nat)
    requires n < |actions| - 1
    ensures Accepts(m, actions[..|actions| - 1], leaseSeconds, n) <==> Accepts(m, actions, leaseSeconds, n)
    ensures Loses(m, actions[..|actions| - 1], leaseSeconds, n) <==> Loses(m, actions, leaseSeconds, n)
  {
    assert actions[..|actions| - 1][..n] == actions[..n];
  }

  /** What `delivered` records: an accepted send. */
  lemma {:induction false} DeliveredRecords(m: Machine, actions: seq<Action>, leaseSeconds: int)
    requires Initial(m)
    ensures Run(m, actions, leaseSeconds).delivered <==> exists n :: Accepts(m, actions, leaseSeconds, n)
  {
    if actions == [] {
    } else {
      var init, last := actions[..|actions| - 1], |actions| - 1;
      DeliveredRecords(m, init, leaseSeconds);
      forall n: nat | n < last
        ensures Accepts(m, init, leaseSeconds, n) <==> Accepts(m, actions, leaseSeconds, n)
      {
        SameBefore(m, actions, leaseSeconds, n);
      }
      assert Accepts(m, actions, leaseSeconds, last)
             || Run(m, actions, leaseSeconds).delivered == Run(m, init, leaseSeconds).delivered;
    }
  }

  /** What `lost` records: a crash between an accepted send and its commit. */
  lemma {:induction false} LostRecords(m: Machine, actions: seq<Action>, leaseSeconds: int)
    requires Initial(m)
    ensures Run(m, actions, leaseSeconds).lost <==> exists n :: Loses(m, actions, leaseSeconds, n)
  {
    if actions == [] {
    } else {
      var init, last := actions[..|actions| - 1], |actions| - 1;
      LostRecords(m, init, leaseSeconds);
      forall n: nat | n < last
        ensures Loses(m, init, leaseSeconds, n) <==> Loses(m, actions, leaseSeconds, n)
      {
        SameBefore(m, actions, leaseSeconds, n);
      }
      assert Loses(m, actions, leaseSeconds, last) || Run(m, actions, leaseSeconds).lost == Run(m, init, leaseSeconds).lost;
    }
  }

  // ---------------------------------------------------------------- undisturbed runs

  /** A claim takes the row while another worker is still in flight. */
  predicate Intrudes(m: Machine, a: Action, leaseSeconds: int) {
    a.Claim? && m.flights.Keys != {} && Perform(m, a, leaseSeconds) != m
  }

  /** No claim ever intrudes.  Nothing is asked of when a worker starts, sends or commits. */
  predicate Undisturbed(m: Machine, actions: seq<Action>, leaseSeconds: int) {
    actions == []
    || (&& Undisturbed(m, actions[..|actions| - 1], leaseSeconds)
        && !Intrudes(Run(m, actions[..|actions| - 1], leaseSeconds), actions[|actions| - 1], leaseSeconds))
  }

  /** At every point of the run each worker in flight owns the row. */
  ghost predicate Orderly(m: Machine, actions: seq<Action>, leaseSeconds: int) {
    && (forall w :: w in Run(m, actions, leaseSeconds).flights ==> Owns(Run(m, actions, leaseSeconds), w))
    && (actions != [] ==> Orderly(m, actions[..|actions| - 1], leaseSeconds))
  }

  /** No worker is in flight past its lease. */
  ghost predicate WithinLease(m: Machine) {
    forall w :: w in m.flights ==> m.now <= m.flights[w].leaseUntil
  }

  ghost predicate Timely(m: Machine, actions: seq<Action>, leaseSeconds: int) {
    forall n :: 0 <= n <= |actions| ==> WithinLease(Run(m, actions[..n], leaseSeconds))
  }

  predicate Terminal(d: Delivery) { d.status == Delivered || d.status == Failed || d.status == Skipped }

  ghost predicate Owns(m: Machine, w: string)
    requires w in m.flights
  {
    && m.row.status == Sending && m.row.claimedBy == Some(w) && m.row.leaseUntil == Some(m.flights[w].leaseUntil)
    && m.flights[w].attempts == m.row.attempts + 1
  }

  /** Seconds of backoff scheduled by the failures of attempts 1 to `n`. */
  function BackoffSum(n: nat): int { if n == 0 then 0 else BackoffSum(n - 1) + Backoff(n) }

  /** The failed attempts of a delivery that scheduled another: all of them, but the last of a terminal row. */
  function Retried(d: Delivery): nat { if Terminal(d) && d.attempts > 0 then d.attempts - 1 else d.attempts }

  ghost predicate LeaseInvariant(m: Machine) {
    && RowInvariant(m)
    && (forall w :: w in m.flights ==> Owns(m, w))
    && (m.delivered && !m.lost ==> m.row.status == Delivered || exists w :: w in m.flights && m.flights[w].phase == Sent(true))
    && m.commits == m.row.attempts
    && (Terminal(m.row) ==> m.row.attempts >= 1)
    && m.backoff == BackoffSum(Retried(m.row))
  }

  lemma ClaimKeepsLease(m: Machine, w: string, leaseSeconds: int)
    requires LeaseInvariant(m) && !Intrudes(m, Claim(w), leaseSeconds)
    ensures LeaseInvariant(Perform(m, Claim(w), leaseSeconds))
  {
    if Perform(m, Claim(w), leaseSeconds) != m {
      assert Terminal(m.row) ==> m.row.status == Failed;
    }
  }

  lemma StartKeepsLease(m: Machine, w: string, deliverable: bool, leaseSeconds: int)
    requires LeaseInvariant(m)
    ensures LeaseInvariant(Perform(m, Start(w, deliverable), leaseSeconds))
  {
    var n := Perform(m, Start(w, deliverable), leaseSeconds);
    assert forall v :: v in m.flights ==> Owns(m, v);
    if n != m {
      assert forall v :: v in m.flights ==> v == w;
      assert m.delivered && !m.lost ==> false;
    }
  }

  lemma SendKeepsLease(m: Machine, w: string, ok: bool, leaseSeconds: int)
    requires LeaseInvariant(m)
    ensures LeaseInvariant(Perform(m, Send(w, ok), leaseSeconds))
  {
    var n := Perform(m, Send(w, ok), leaseSeconds);
    if n != m {
      assert forall v :: v in m.flights ==> Owns(m, v);
      assert w in n.flights && n.flights[w].phase == Sent(ok);
      assert forall v :: v in n.flights ==> Owns(n, v);
    }
  }

  lemma EndKeepsLease(m: Machine, a: Action, w: string, leaseSeconds: int)
    requires LeaseInvariant(m) && (a == Commit(w) || a == Crash(w))
    ensures LeaseInvariant(Perform(m, a, leaseSeconds))
  {
    var n := Perform(m, a, leaseSeconds);
    if n != m {
      assert forall v :: v in m.flights ==> Owns(m, v);
      assert n.flights == map[];
    }
  }

  lemma PerformKeepsLease(m: Machine, a: Action, leaseSeconds: int)
    requires LeaseInvariant(m) && !Intrudes(m, a, leaseSeconds)
    ensures LeaseInvariant(Perform(m, a, leaseSeconds))
  {
    match a
    case Clock(to) =>
      assert forall v :: v in m.flights ==> Owns(m, v);
    case Claim(w) => ClaimKeepsLease(m, w, leaseSeconds);
    case Start(w, deliverable) => StartKeepsLease(m, w, deliverable, leaseSeconds);
    case Send(w, ok) => SendKeepsLease(m, w, ok, leaseSeconds);
    case Commit(w) => EndKeepsLease(m, a, w, leaseSeconds);
    case Crash(w) => EndKeepsLease(m, a, w, leaseSeconds);
  }

  lemma {:induction false} UndisturbedRun(m: Machine, actions: seq<Action>, leaseSeconds: int)
    requires Initial(m) && Undisturbed(m, actions, leaseSeconds)
    ensures LeaseInvariant(Run(m, actions, leaseSeconds))
  {
    if actions == [] {
    } else {
      var init := actions[..|actions| - 1];
      UndisturbedRun(m, init, leaseSeconds);
      PerformKeepsLease(Run(m, init, leaseSeconds), actions[|actions| - 1], leaseSeconds);
    }
  }

  lemma IntrusionDisowns(m: Machine, a: Action, leaseSeconds: int)
    requires Intrudes(m, a, leaseSeconds)
    ensures exists w :: w in Perform(m, a, leaseSeconds).flights && !Owns(Perform(m, a, leaseSeconds), w)
  {
    var n := Perform(m, a, leaseSeconds);
    var v :| v in m.flights.Keys;
    assert v in n.flights && v != a.worker && n.row.claimedBy == Some(a.worker);
    assert !Owns(n, v);
  }

  /** The exact condition: every worker in flight owns the row throughout if and only if no claim intrudes. */
  lemma {:induction false} OrderlyIffUndisturbed(m: Machine, actions: seq<Action>, leaseSeconds: int)
    requires Initial(m)
    ensures Orderly(m, actions, leaseSeconds) <==> Undisturbed(m, actions, leaseSeconds)
  {
    if actions == [] {
    } else {
      var init, a := actions[..|actions| - 1], actions[|actions| - 1];
      OrderlyIffUndisturbed(m, init, leaseSeconds);
      if Undisturbed(m, actions, leaseSeconds) {
        UndisturbedRun(m, actions, leaseSeconds);
        assert Orderly(m, init, leaseSeconds);
      } else if Intrudes(Run(m, init, leaseSeconds), a, leaseSeconds) {
        IntrusionDisowns(Run(m, init, leaseSeconds), a, leaseSeconds);
        assert Run(m, actions, leaseSeconds) == Perform(Run(m, init, leaseSeconds), a, leaseSeconds);
      }
    }
  }

  lemma NoIntrusionInTime(m: Machine, a: Action, leaseSeconds: int)
    requires LeaseInvariant(m) && WithinLease(m)
    ensures !Intrudes(m, a, leaseSeconds)
  {
    assert forall v :: v in m.flights ==> Owns(m, v) && m.now <= m.flights[v].leaseUntil;
    assert forall v :: v in m.flights ==> !Ready(m.row, m.now);
  }

  /** A run in which nobody stays in flight past its lease is undisturbed. */
  lemma {:induction false} TimelyUndisturbed(m: Machine, actions: seq<Action>, leaseSeconds: int)
    requires Initial(m) && Timely(m, actions, leaseSeconds)
    ensures Undisturbed(m, actions, leaseSeconds)
  {
    if actions == [] {
    } else {
      var init := actions[..|actions| - 1];
      assert forall n :: 0 <= n <= |init| ==> init[..n] == actions[..n];
      assert init[..|init|] == init;
      TimelyUndisturbed(m, init, leaseSeconds);
      UndisturbedRun(m, init, leaseSeconds);
      NoIntrusionInTime(Run(m, init, leaseSeconds), actions[|actions| - 1], leaseSeconds);
    }
  }

  /** So such a run keeps the invariant, with every worker inside its lease. */
  lemma TimelyRun(m: Machine, actions: seq<Action>, leaseSeconds: int)
    requires Initial(m) && Timely(m, actions, leaseSeconds)
    ensures LeaseInvariant(Run(m, actions, leaseSeconds)) && WithinLease(Run(m, actions, leaseSeconds))
  {
    TimelyUndisturbed(m, actions, leaseSeconds);
    UndisturbedRun(m, actions, leaseSeconds);
    assert actions[..|actions|] == actions;
  }

  /** While no claim intrudes, no two workers are ever in flight together. */
  lemma MutualExclusion(m: Machine, actions: seq<Action>, leaseSeconds: int, v: string, w: string)
    requires Initial(m) && Undisturbed(m, actions, leaseSeconds)
    requires v in Run(m, actions, leaseSeconds).flights && w in Run(m, actions, leaseSeconds).flights
    ensures v == w && Owns(Run(m, actions, leaseSeconds), v)
  {
    UndisturbedRun(m, actions, leaseSeconds);
  }

  /** A second send after a successful one happens only if a worker crashed between send and commit. */
  lemma NoDoubleSend(m: Machine, actions: seq<Action>, leaseSeconds: int, w: string, ok: bool)
    requires Initial(m) && Undisturbed(m, actions, leaseSeconds)
    requires Run(m, actions, leaseSeconds).delivered
    requires Perform(Run(m, actions, leaseSeconds), Send(w, ok), leaseSeconds) != Run(m, actions, leaseSeconds)
    ensures Run(m, actions, leaseSeconds).lost
  {
    UndisturbedRun(m, actions, leaseSeconds);
  }

  /** Terminal rows never change again, although the claim filter names "failed". */
  lemma TerminalAbsorbs(m: Machine, actions: seq<Action>, a: Action, leaseSeconds: int)
    requires Initial(m) && Undisturbed(m, actions, leaseSeconds) && Terminal(Run(m, actions, leaseSeconds).row)
    ensures Perform(Run(m, actions, leaseSeconds), a, leaseSeconds).row == Run(m, actions, leaseSeconds).row
    ensures Run(m, actions, leaseSeconds).flights == map[]
  {
    UndisturbedRun(m, actions, leaseSeconds);
    var n := Run(m, actions, leaseSeconds);
    assert forall w :: w !in n.flights;
  }

  // ---------------------------------------------------------------- atomic processing

  /** Uninterrupted, the three steps are the service's atomic processing of an owned row. */
  lemma StepsAreProcessing(m: Machine, w: string, deliverable: bool, ok: bool, leaseSeconds: int)
    requires w !in m.flights && m.row.status == Sending && m.row.claimedBy == Some(w)
    ensures var n := Perform(Perform(Perform(m, Start(w, deliverable), leaseSeconds), Send(w, ok), leaseSeconds), Commit(w), leaseSeconds);
            && n.row == Concluded(m.row, m.row.attempts + 1, if !deliverable then Skip else if ok then Accepted else Refused, m.now)
            && n.flights == m.flights
  {
    var started := Perform(m, Start(w, deliverable), leaseSeconds);
    assert started.flights - {w} == m.flights;
  }

  /** Runs whose processing is atomic: `reply` is the notifier's answer, None when it raises. */
  datatype Whole =
    | Pass(to: Time)
    | Take(worker: string)
    | Process(worker: string, deliverable: bool, reply: Option<bool>)

  function Expand(a: Whole): seq<Action> {
    match a
    case Pass(to) => [Clock(to)]
    case Take(w) => [Claim(w)]
    case Process(w, deliverable, reply) =>
      match reply
      case Some(ok) => [Start(w, deliverable), Send(w, ok), Commit(w)]
      case None => if deliverable then [Start(w, deliverable), Crash(w)] else [Start(w, deliverable), Commit(w)]
  }

  function Flatten(wholes: seq<Whole>): seq<Action> {
    if wholes == [] then [] else Flatten(wholes[..|wholes| - 1]) + Expand(wholes[|wholes| - 1])
  }

  lemma {:induction false} RunAppend(m: Machine, before: seq<Action>, after: seq<Action>, leaseSeconds: int)
    ensures Run(m, before + after, leaseSeconds) == Run(Run(m, before, leaseSeconds), after, leaseSeconds)
    ensures Undisturbed(m, before + after, leaseSeconds)
            <==> Undisturbed(m, before, leaseSeconds) && Undisturbed(Run(m, before, leaseSeconds), after, leaseSeconds)
  {
    if after == [] {
      assert before + after == before;
    } else {
      RunAppend(m, before, after[..|after| - 1], leaseSeconds);
      assert (before + after)[..|before + after| - 1] == before + after[..|after| - 1];
    }
  }

  lemma {:induction false} ClaimFree(m: Machine, actions: seq<Action>, leaseSeconds: int)
    requires forall i :: 0 <= i < |actions| ==> !actions[i].Claim?
    ensures Undisturbed(m, actions, leaseSeconds)
  {
    if actions == [] {
    } else {
      ClaimFree(m, actions[..|actions| - 1], leaseSeconds);
    }
  }

  lemma RunOne(m: Machine, a: Action, leaseSeconds: int)
    ensures Run(m, [a], leaseSeconds) == Perform(m, a, leaseSeconds)
  {
    assert [a][..0] == [];
  }

  lemma WholeUndisturbed(m: Machine, a: Whole, leaseSeconds: int)
    requires m.flights == map[]
    ensures Undisturbed(m, Expand(a), leaseSeconds) && Run(m, Expand(a), leaseSeconds).flights == map[]
  {
    match a
    case Pass(to) =>
      RunOne(m, Clock(to), leaseSeconds);
      ClaimFree(m, Expand(a), leaseSeconds);
    case Take(w) =>
      RunOne(m, Claim(w), leaseSeconds);
      assert [Claim(w)][..0] == [] && Undisturbed(m, [], leaseSeconds) && Run(m, [], leaseSeconds) == m;
    case Process(w, deliverable, reply) =>
      ClaimFree(m, Expand(a), leaseSeconds);
      ProcessLands(m, w, deliverable, reply, leaseSeconds);
  }

  lemma RunMore(m: Machine, before: seq<Action>, a: Action, leaseSeconds: int)
    ensures Run(m, before + [a], leaseSeconds) == Perform(Run(m, before, leaseSeconds), a, leaseSeconds)
  {
    assert (before + [a])[..|before|] == before;
  }

  lemma SendLands(m: Machine, w: string, deliverable: bool, ok: bool, leaseSeconds: int)
    requires m.flights == map[]
    ensures var started := Perform(m, Start(w, deliverable), leaseSeconds);
            Perform(Perform(started, Send(w, ok), leaseSeconds), Commit(w), leaseSeconds).flights == map[]
  {
  }

  lemma RaiseLands(m: Machine, w: string, deliverable: bool, leaseSeconds: int)
    requires m.flights == map[]
    ensures Perform(Perform(m, Start(w, deliverable), leaseSeconds), if deliverable then Crash(w) else Commit(w), leaseSeconds).flights == map[]
  {
  }

  lemma ProcessLands(m: Machine, w: string, deliverable: bool, reply: Option<bool>, leaseSeconds: int)
    requires m.flights == map[]
    ensures Run(m, Expand(Process(w, deliverable, reply)), leaseSeconds).flights == map[]
  {
    RunOne(m, Start(w, deliverable), leaseSeconds);
    if reply.Some? {
      SendLands(m, w, deliverable, reply.value, leaseSeconds);
      RunMore(m, [Start(w, deliverable)], Send(w, reply.value), leaseSeconds);
      RunMore(m, [Start(w, deliverable)] + [Send(w, reply.value)], Commit(w), leaseSeconds);
      assert Expand(Process(w, deliverable, reply)) == [Start(w, deliverable)] + [Send(w, reply.value)] + [Commit(w)];
    } else {
      RaiseLands(m, w, deliverable, leaseSeconds);
      var last := if deliverable then Crash(w) else Commit(w);
      RunMore(m, [Start(w, deliverable)], last, leaseSeconds);
      assert Expand(Process(w, deliverable, reply)) == [Start(w, deliverable)] + [last];
    }
  }

  /** With atomic processing no claim intrudes, however late a claimed row is processed: every law of
      undisturbed runs holds without any condition on leases. */
  lemma {:induction false} AtomicUndisturbed(m: Machine, wholes: seq<Whole>, leaseSeconds: int)
    requires Initial(m)
    ensures Undisturbed(m, Flatten(wholes), leaseSeconds) && Run(m, Flatten(wholes), leaseSeconds).flights == map[]
  {
    if wholes == [] {
    } else {
      var init, a := wholes[..|wholes| - 1], wholes[|wholes| - 1];
      AtomicUndisturbed(m, init, leaseSeconds);
      WholeUndisturbed(Run(m, Flatten(init), leaseSeconds), a, leaseSeconds);
      RunAppend(m, Flatten(init), Expand(a), leaseSeconds);
    }
  }

  // ---------------------------------------------------------------- when a row is claimed

  /**
   A claim takes the row, for a lease of at least 30 seconds, if and only if attempts are left and it is
   pending or failed and due, or being sent under a lease that has passed.
   */
  lemma ClaimTakesIff(m: Machine, w: string, leaseSeconds: int)
    requires w !in m.flights
    ensures var row := m.row;
            Perform(m, Claim(w), leaseSeconds)
            == if && row.attempts < row.maxAttempts
                  && (|| ((row.status == Pending || row.status == Failed)
                          && (row.nextAttemptAt.Some? ==> row.nextAttemptAt.value <= m.now))
                      || (row.status == Sending && row.leaseUntil.Some? && row.leaseUntil.value < m.now))
               then m.(row := row.(status := Sending, claimedBy := Some(w),
                                   leaseUntil := Some(m.now + (if leaseSeconds >= 30 then leaseSeconds else 30) * 1_000_000)))
               else m
  {
  }

  /** Nobody in flight at `m` commits in `more`. */
  predicate NoneCommits(m: Machine, more: seq<Action>) {
    forall i :: 0 <= i < |more| ==> !(more[i].Commit? && more[i].worker in m.flights)
  }

  lemma {:induction false} PendingWaits(m: Machine, more: seq<Action>, leaseSeconds: int)
    requires m.row.status == Pending && m.row.nextAttemptAt.Some? && NoneCommits(m, more)
    requires Run(m, more, leaseSeconds).now < m.row.nextAttemptAt.value
    ensures Run(m, more, leaseSeconds).row == m.row && Run(m, more, leaseSeconds).flights.Keys <= m.flights.Keys
    ensures m.now <= Run(m, more, leaseSeconds).now
  {
    if more == [] {
    } else {
      var init := more[..|more| - 1];
      assert forall i :: 0 <= i < |init| ==> init[i] == more[i];
      PendingWaits(m, init, leaseSeconds);
    }
  }

  /**
   The backoff is waited for.  After a commit that leaves the row pending again, at attempt `a` started at
   `at`, no claim changes the row before `at` plus min(3600, 30 * 2^(a - 1)) seconds, whatever happens
   short of the late commit of another worker; and the first claim from then on takes it.
   */
  lemma BackoffHeld(m: Machine, actions: seq<Action>, w: string, more: seq<Action>, v: string, leaseSeconds: int)
    requires Initial(m) && w in Run(m, actions, leaseSeconds).flights
    requires var before := Run(m, actions, leaseSeconds);
             !before.flights[w].phase.Started? && Perform(before, Commit(w), leaseSeconds).row.status == Pending
    requires NoneCommits(Perform(Run(m, actions, leaseSeconds), Commit(w), leaseSeconds), more)
    ensures var f := Run(m, actions, leaseSeconds).flights[w];
            var due := f.at + Min(3600, 30 * Pow2(Max(0, f.attempts - 1))) * 1_000_000;
            var n := Perform(Run(m, actions, leaseSeconds), Commit(w), leaseSeconds);
            && 1 <= n.row.attempts == f.attempts < n.row.maxAttempts && n.row.nextAttemptAt == Some(due)
            && (Run(n, more, leaseSeconds).now < due ==>
                  && Run(n, more, leaseSeconds).row == n.row
                  && Perform(Run(n, more, leaseSeconds), Claim(v), leaseSeconds) == Run(n, more, leaseSeconds))
            && (Run(n, more, leaseSeconds).row == n.row && Run(n, more, leaseSeconds).now >= due
                && v !in Run(n, more, leaseSeconds).flights ==>
                  Perform(Run(n, more, leaseSeconds), Claim(v), leaseSeconds).row
                  == n.row.(status := Sending, claimedBy := Some(v),
                            leaseUntil := Some(Run(n, more, leaseSeconds).now + Max(30, leaseSeconds) * 1_000_000)))
  {
    RowAlwaysWellFormed(m, actions, leaseSeconds);
    var n := Perform(Run(m, actions, leaseSeconds), Commit(w), leaseSeconds);
    if Run(n, more, leaseSeconds).now < n.row.nextAttemptAt.value {
      PendingWaits(n, more, leaseSeconds);
    }
    if v !in Run(n, more, leaseSeconds).flights {
      ClaimTakesIff(Run(n, more, leaseSeconds), v, leaseSeconds);
    }
  }

  // ---------------------------------------------------------------- the cost of retrying

  lemma {:induction false} BackoffClosedForm(n: nat)
    ensures BackoffSum(n) == if n <= 7 then 30 * (Pow2(n) - 1) else 30 * 127 + 3600 * (n - 7)
  {
    if n == 0 {
    } else {
      BackoffClosedForm(n - 1);
      if n >= 8 {
        PowGrows(7, n - 1);
        assert Pow2(7) == 128;
      } else {
        PowGrows(n - 1, 6);
        assert Pow2(6) == 64;
      }
      assert n == 8 ==> Pow2(n - 1) == 128;
    }
  }

  lemma {:induction false} PowGrows(a: nat, b: nat)
    requires a <= b
    ensures Pow2(a) <= Pow2(b)
    decreases b
  {
    if a < b {
      PowGrows(a, b - 1);
    }
  }

  /** The total backoff of a delivery is fixed by its attempts: every failed attempt but the last costs its delay. */
  lemma TotalBackoff(m: Machine, actions: seq<Action>, leaseSeconds: int)
    requires Initial(m) && Undisturbed(m, actions, leaseSeconds)
    ensures var n := Run(m, actions, leaseSeconds);
            var k := Retried(n.row);
            && n.commits == n.row.attempts <= m.row.maxAttempts
            && n.backoff == (if k <= 7 then 30 * (Pow2(k) - 1) else 30 * 127 + 3600 * (k - 7))
  {
    UndisturbedRun(m, actions, leaseSeconds);
    RowAlwaysWellFormed(m, actions, leaseSeconds);
    BackoffClosedForm(Retried(Run(m, actions, leaseSeconds).row));
  }

  // ---------------------------------------------------------------- why the leases matter

  lemma Then(m: Machine, actions: seq<Action>, a: Action, leaseSeconds: int) returns (more: seq<Action>)
    ensures Run(m, more, leaseSeconds) == Perform(Run(m, actions, leaseSeconds), a, leaseSeconds)
  {
    more := actions + [a];
    RunMore(m, actions, a, leaseSeconds);
  }

  /** A claims and starts; its lease runs out; B claims and starts. */
  lemma Overrun(m: Machine, leaseSeconds: int) returns (actions: seq<Action>)
    requires Initial(m) && Ready(m.row, m.now)
    ensures var expiry := LeaseUntil(m.now, leaseSeconds);
            var later := LeaseUntil(expiry + 1, leaseSeconds);
            Run(m, actions, leaseSeconds)
            == m.(row := Claimed(m.row, "B", later), now := expiry + 1,
                  flights := map["A" := Flight(1, expiry, m.now, Started), "B" := Flight(1, later, expiry + 1, Started)])
  {
    var expiry := LeaseUntil(m.now, leaseSeconds);
    actions := Then(m, [], Claim("A"), leaseSeconds);
    actions := Then(m, actions, Start("A", true), leaseSeconds);
    assert Run(m, actions, leaseSeconds)
           == m.(row := Claimed(m.row, "A", expiry), flights := map["A" := Flight(1, expiry, m.now, Started)]);
    actions := Then(m, actions, Clock(expiry + 1), leaseSeconds);
    actions := Then(m, actions, Claim("B"), leaseSeconds);
    actions := Then(m, actions, Start("B", true), leaseSeconds);
  }

  /** A's failed send is committed although B holds the row: the row is pending again, B still in flight. */
  lemma LateCommit(m: Machine, leaseSeconds: int) returns (actions: seq<Action>)
    requires Initial(m) && m.row.maxAttempts >= 2 && Ready(m.row, m.now)
    ensures var expiry := LeaseUntil(m.now, leaseSeconds);
            var n := Run(m, actions, leaseSeconds);
            && n.row == m.row.(attempts := 1, nextAttemptAt := Some(m.now + 30 * SECOND))
            && n.flights == map["B" := Flight(1, LeaseUntil(expiry + 1, leaseSeconds), expiry + 1, Started)]
            && n.now == expiry + 1 && !n.lost
  {
    var expiry := LeaseUntil(m.now, leaseSeconds);
    var b := Flight(1, LeaseUntil(expiry + 1, leaseSeconds), expiry + 1, Started);
    actions := Overrun(m, leaseSeconds);
    actions := Then(m, actions, Send("A", false), leaseSeconds);
    assert Run(m, actions, leaseSeconds).flights["A"] == Flight(1, expiry, m.now, Sent(false));
    actions := Then(m, actions, Commit("A"), leaseSeconds);
    assert Pow2(0) == 1;
    assert Run(m, actions, leaseSeconds).flights == map["B" := b];
  }

  /**
   A commit past its lease undoes the protocol: it releases a row another worker still holds, a
   third claims it, and both, each within its own lease, deliver the alert without any crash.
   */
  lemma LateCommitBreaksExclusion(m: Machine, leaseSeconds: int) returns (actions: seq<Action>)
    requires Initial(m) && m.row.maxAttempts >= 2 && Ready(m.row, m.now)
    ensures var n := Run(m, actions, leaseSeconds);
            && WithinLease(n) && !n.lost
            && "B" in n.flights && n.flights["B"].phase == Sent(true)
            && "C" in n.flights && n.flights["C"].phase == Sent(true)
  {
    var now := LeaseUntil(m.now, leaseSeconds) + 1;
    var later := LeaseUntil(now, leaseSeconds);
    actions := LateCommit(m, leaseSeconds);
    actions := Then(m, actions, Claim("C"), leaseSeconds);
    actions := Then(m, actions, Start("C", true), leaseSeconds);
    assert Run(m, actions, leaseSeconds).flights
           == map["B" := Flight(1, later, now, Started), "C" := Flight(2, later, now, Started)];
    actions := Then(m, actions, Send("B", true), leaseSeconds);
    actions := Then(m, actions, Send("C", true), leaseSeconds);
  }
}
