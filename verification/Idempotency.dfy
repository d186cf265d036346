/** The processed-message row: a leased claim before side effects, and what the lease guarantees over all runs. */
module Idempotency {
  import opened Arithmetic
  import opened Wrappers
  import opened Database

  datatype MessageStatus = Processing | Done | Released

  datatype MessageRow = MessageRow(status: MessageStatus, leaseUntil: Option<Time>, worker: string)

  datatype MessageKey = MessageKey(tenant: string, messageId: string)

  datatype Outcome = Claimed | AlreadyCompleted | Busy

  predicate Live(row: MessageRow, now: Time) {
    row.status == Processing && row.leaseUntil.Some? && row.leaseUntil.value >= now
  }

  /** The upsert's WHERE clause: anything not completed whose lease is gone, past, or released. */
  predicate Reclaimable(row: MessageRow, now: Time) {
    && row.status != Done
    && (row.leaseUntil.None? || row.leaseUntil.value < now || row.status == Released)
  }

  function Lease(now: Time, leaseSeconds: int): Time { now + Max(30, leaseSeconds) * SECOND }

  function ClaimRow(row: Option<MessageRow>, worker: string, now: Time, leaseSeconds: int): Option<MessageRow> {
    if row.None? || Reclaimable(row.value, now) then Some(MessageRow(Processing, Some(Lease(now, leaseSeconds)), worker)) else row
  }

  function ClaimOutcome(row: Option<MessageRow>, worker: string, now: Time): Outcome {
    if row.None? || Reclaimable(row.value, now) then Claimed
    else if row.value.status == Done then AlreadyCompleted
    else if row.value.worker == worker && row.value.status == Processing then Claimed
    else Busy
  }

  function CompleteRow(row: Option<MessageRow>, worker: string): Option<MessageRow> {
    if row.Some? && row.value.worker == worker then Some(MessageRow(Done, None, worker)) else row
  }

  function FailRow(row: Option<MessageRow>, worker: string): Option<MessageRow> {
    if row.Some? && row.value.worker == worker && row.value.status == Processing
    then Some(MessageRow(Released, None, worker)) else row
  }

  /**
   A claim is taken when the row is absent, or not completed and released, without a lease or past it, and
   then leases it for at least 30 seconds; a live row of one's own counts as claimed, too, but is not
   extended; a completed row says so; any other is busy.  Only a taken claim changes the row.
   */
  lemma ClaimExactly(row: Option<MessageRow>, worker: string, now: Time, leaseSeconds: int)
    ensures var taken := row.None?
                         || (row.value.status != Done
                             && (row.value.status == Released || (row.value.leaseUntil.Some? ==> row.value.leaseUntil.value < now)));
            && ClaimRow(row, worker, now, leaseSeconds)
               == (if taken then Some(MessageRow(Processing, Some(now + (if leaseSeconds >= 30 then leaseSeconds else 30) * 1_000_000), worker))
                   else row)
            && ClaimOutcome(row, worker, now)
               == if taken || (row.value.status == Processing && row.value.worker == worker) then Claimed
                  else if row.value.status == Done then AlreadyCompleted else Busy
  {
  }

  /** Either mark needs the worker to be the row's, the failure mark also a row still processing; each drops the lease. */
  lemma MarksExactly(row: Option<MessageRow>, worker: string)
    ensures CompleteRow(row, worker)
            == if row.Some? && row.value.worker == worker then Some(MessageRow(Done, None, worker)) else row
    ensures FailRow(row, worker)
            == if row.Some? && row.value.status == Processing && row.value.worker == worker then Some(MessageRow(Released, None, worker)) else row
  {
  }

  // ---------------------------------------------------------------- the repository

  class MessageStore {
    var rows: map<MessageKey, MessageRow>

    function Row(k: MessageKey): Option<MessageRow>
      reads this
    {
      if k in rows then Some(rows[k]) else None
    }

    /** The table with the row of `k` set; a row that is absent stays absent. */
    static function Put(rows: map<MessageKey, MessageRow>, k: MessageKey, row: Option<MessageRow>): map<MessageKey, MessageRow> {
      if row.Some? then rows[k := row.value] else rows
    }

    method TryClaim(k: MessageKey, worker: string, leaseSeconds: int, now: Time) returns (outcome: Outcome)
      modifies this
      ensures outcome == ClaimOutcome(old(Row(k)), worker, now)
      ensures rows == Put(old(rows), k, ClaimRow(old(Row(k)), worker, now, leaseSeconds))
    {
      if k !in rows || Reclaimable(rows[k], now) {
        rows := rows[k := MessageRow(Processing, Some(Lease(now, leaseSeconds)), worker)];
        return Claimed;
      }
      var existing := rows[k];
      if existing.status == Done {
        outcome := AlreadyCompleted;
      } else if existing.worker == worker && existing.status == Processing {
        outcome := Claimed;
      } else {
        outcome := Busy;
      }
    }

    method MarkCompleted(k: MessageKey, worker: string)
      modifies this
      ensures rows == Put(old(rows), k, CompleteRow(old(Row(k)), worker))
    {
      if k in rows && rows[k].worker == worker {
        rows := rows[k := rows[k].(status := Done, leaseUntil := None)];
      }
    }

    method MarkFailed(k: MessageKey, worker: string)
      modifies this
      ensures rows == Put(old(rows), k, FailRow(old(Row(k)), worker))
    {
      if k in rows && rows[k].worker == worker && rows[k].status == Processing {
        rows := rows[k := rows[k].(status := Released, leaseUntil := None)];
      }
    }
  }

  // ---------------------------------------------------------------- the machine of one message

  /** A worker between its claim and its mark. */
  datatype Handler = Handler(leaseUntil: Time, executing: bool)

  /** One grant of the row's lease, and whether its owner gave it back by failing. */
  datatype Grant = Grant(worker: string, from: Time, until: Time, released: bool)

  datatype Machine = Machine(
    row: Option<MessageRow>,
    now: Time,
    handlers: map<string, Handler>,
    grants: seq<Grant>,
    completions: nat)

  datatype Action =
    | Clock(to: Time)
    | Claim(worker: string)
    | Begin(worker: string)
    | Complete(worker: string)
    | Fail(worker: string)
    | Crash(worker: string)

  function Perform(m: Machine, a: Action, leaseSeconds: int): Machine {
    match a
    case Clock(to) => if to >= m.now then m.(now := to) else m
    case Claim(w) =>
      if w in m.handlers || ClaimOutcome(m.row, w, m.now) != Claimed then m
      else
        var row := ClaimRow(m.row, w, m.now, leaseSeconds);
        m.(row := row, handlers := m.handlers[w := Handler(row.value.leaseUntil.GetOr(m.now), false)],
           grants := if row == m.row then m.grants else m.grants + [Grant(w, m.now, row.value.leaseUntil.GetOr(m.now), false)])
    case Begin(w) =>
      if w in m.handlers then m.(handlers := m.handlers[w := m.handlers[w].(executing := true)]) else m
    case Complete(w) =>
      if w in m.handlers && m.handlers[w].executing then
        var row := CompleteRow(m.row, w);
        m.(row := row, handlers := m.handlers - {w}, completions := m.completions + if row != m.row then 1 else 0)
      else m
    case Fail(w) =>
      if w in m.handlers then
        var row := FailRow(m.row, w);
        m.(row := row, handlers := m.handlers - {w},
           grants := if row != m.row && m.grants != [] then m.grants[|m.grants| - 1 := m.grants[|m.grants| - 1].(released := true)]
                     else m.grants)
      else m
    case Crash(w) => m.(handlers := m.handlers - {w})
  }

  /** A handler executes only once it has begun; a claim alone does not start it. */
  lemma ExecutingBegins(m: Machine, a: Action, leaseSeconds: int, w: string)
    requires w in Perform(m, a, leaseSeconds).handlers
    ensures Perform(m, a, leaseSeconds).handlers[w].executing <==> a == Begin(w) || (w in m.handlers && m.handlers[w].executing)
  {
  }

  function Run(m: Machine, actions: seq<Action>, leaseSeconds: int): Machine {
    if actions == [] then m
    else Perform(Run(m, actions[..|actions| - 1], leaseSeconds), actions[|actions| - 1], leaseSeconds)
  }

  function Start(now: Time): Machine { Machine(None, now, map[], [], 0) }

  /** The row is exactly what the last grant, and what became of it, says. */
  ghost predicate RowFromGrants(m: Machine) {
    && (m.row.None? <==> m.grants == [])
    && (m.row.Some? ==>
          var last := m.grants[|m.grants| - 1];
          && m.row.value.worker == last.worker
          && (m.row.value.status == Processing ==> m.row.value.leaseUntil == Some(last.until) && !last.released)
          && (m.row.value.status == Released ==> last.released)
          && (m.row.value.status != Processing ==> m.row.value.leaseUntil == None))
    && m.completions == (if m.row.Some? && m.row.value.status == Done then 1 else 0)
  }

  /** A handler within its lease holds the row. */
  ghost predicate HandlersHold(m: Machine) {
    forall w :: w in m.handlers && m.now <= m.handlers[w].leaseUntil ==>
      m.row == Some(MessageRow(Processing, Some(m.handlers[w].leaseUntil), w))
  }

  /** Two grants overlap in time only if the earlier was released as failed. */
  ghost predicate GrantsDisjoint(m: Machine) {
    && (forall i, j :: 0 <= i < j < |m.grants| ==> m.grants[i].released || m.grants[i].until < m.grants[j].from)
    && (forall i :: 0 <= i < |m.grants| ==> m.grants[i].from < m.grants[i].until && m.grants[i].from <= m.now)
  }

  ghost predicate Invariant(m: Machine) {
    RowFromGrants(m) && HandlersHold(m) && GrantsDisjoint(m)
  }

  lemma ClaimKeeps(m: Machine, w: string, leaseSeconds: int)
    requires Invariant(m)
    ensures Invariant(Perform(m, Claim(w), leaseSeconds))
  {
    var n := Perform(m, Claim(w), leaseSeconds);
    if n.grants != m.grants {
      forall i | 0 <= i < |m.grants|
        ensures m.grants[i].released || m.grants[i].until < m.now
      {
        if i < |m.grants| - 1 {
          var last := m.grants[|m.grants| - 1];
          assert m.grants[i].released || m.grants[i].until < last.from;
        }
      }
    }
  }

  lemma FailKeeps(m: Machine, w: string, leaseSeconds: int)
    requires Invariant(m)
    ensures Invariant(Perform(m, Fail(w), leaseSeconds))
  {
    var n := Perform(m, Fail(w), leaseSeconds);
    if n.grants != m.grants {
      assert forall i :: 0 <= i < |m.grants| ==>
               n.grants[i].from == m.grants[i].from && n.grants[i].until == m.grants[i].until && (m.grants[i].released ==> n.grants[i].released);
    }
  }

  lemma PerformKeeps(m: Machine, a: Action, leaseSeconds: int)
    requires Invariant(m)
    ensures Invariant(Perform(m, a, leaseSeconds))
  {
    match a
    case Claim(w) => ClaimKeeps(m, w, leaseSeconds);
    case Fail(w) => FailKeeps(m, w, leaseSeconds);
    case Clock(_) =>
    case Begin(_) =>
    case Complete(_) =>
    case Crash(_) =>
  }

  /**
   Over every run, with any clock, crashes and late marks: grants are disjoint in time unless the
   earlier was released as failed, a handler within its lease owns the row, and the message is
   completed at most once.
   */
  lemma {:induction false} LeasesHold(now: Time, actions: seq<Action>, leaseSeconds: int)
    ensures Invariant(Run(Start(now), actions, leaseSeconds))
  {
    if actions == [] {
    } else {
      LeasesHold(now, actions[..|actions| - 1], leaseSeconds);
      PerformKeeps(Run(Start(now), actions[..|actions| - 1], leaseSeconds), actions[|actions| - 1], leaseSeconds);
    }
  }

  /** No two workers are ever active within their leases at once. */
  lemma LiveHandlerUnique(now: Time, actions: seq<Action>, leaseSeconds: int, v: string, w: string)
    ensures var m := Run(Start(now), actions, leaseSeconds);
            v in m.handlers && w in m.handlers && m.now <= m.handlers[v].leaseUntil && m.now <= m.handlers[w].leaseUntil ==> v == w
  {
    LeasesHold(now, actions, leaseSeconds);
  }

  /** Once another worker holds the last grant, a superseded worker's marks change no row and no grant. */
  lemma SupersededMarksAreNoOps(now: Time, actions: seq<Action>, leaseSeconds: int, w: string)
    ensures var m := Run(Start(now), actions, leaseSeconds);
            m.grants != [] && m.grants[|m.grants| - 1].worker != w ==>
              && Perform(m, Complete(w), leaseSeconds).row == m.row && Perform(m, Fail(w), leaseSeconds).row == m.row
              && Perform(m, Fail(w), leaseSeconds).grants == m.grants
              && Perform(m, Complete(w), leaseSeconds).completions == m.completions
  {
    LeasesHold(now, actions, leaseSeconds);
  }

  predicate IsDone(m: Machine) { m.row.Some? && m.row.value.status == Done }

  lemma PerformAbsorbs(m: Machine, a: Action, leaseSeconds: int)
    requires Invariant(m) && IsDone(m)
    ensures var n := Perform(m, a, leaseSeconds); n.row == m.row && n.grants == m.grants && n.completions == m.completions
  {
  }

  /** Completion is final: no later action changes the row or grants it again. */
  lemma {:induction false} CompletedAbsorbs(now: Time, before: seq<Action>, after: seq<Action>, leaseSeconds: int)
    requires IsDone(Run(Start(now), before, leaseSeconds))
    ensures var m, n := Run(Start(now), before, leaseSeconds), Run(Start(now), before + after, leaseSeconds);
            n.row == m.row && n.grants == m.grants && n.completions == 1
  {
    if after == [] {
      assert before + after == before;
      LeasesHold(now, before, leaseSeconds);
    } else {
      var init := after[..|after| - 1];
      CompletedAbsorbs(now, before, init, leaseSeconds);
      LeasesHold(now, before + init, leaseSeconds);
      PerformAbsorbs(Run(Start(now), before + init, leaseSeconds), after[|after| - 1], leaseSeconds);
      assert (before + after)[..|before + after| - 1] == before + init;
    }
  }

  /** A handler that begins within its lease begins before completion, as the sole owner. */
  lemma BeginBeforeCompletion(now: Time, actions: seq<Action>, leaseSeconds: int, w: string)
    ensures var m := Run(Start(now), actions, leaseSeconds);
            w in m.handlers && m.now <= m.handlers[w].leaseUntil ==> m.row.Some? && !IsDone(m) && m.row.value.worker == w
  {
    LeasesHold(now, actions, leaseSeconds);
  }

  lemma Then(now: Time, actions: seq<Action>, a: Action, leaseSeconds: int) returns (more: seq<Action>)
    ensures Run(Start(now), more, leaseSeconds) == Perform(Run(Start(now), actions, leaseSeconds), a, leaseSeconds)
  {
    more := actions + [a];
    assert more[..|actions|] == actions;
  }

  /**
   The lease is not rechecked before execution.  At any time past it, some run lets the stalled
   worker begin although another has already completed the message; so with the lemma above, "now is
   within my lease" is exactly the test that would keep every start before completion.
   */
  lemma StalledBeginAfterCompletion(now: Time, leaseSeconds: int, late: Time) returns (actions: seq<Action>)
    requires late > Lease(now, leaseSeconds)
    ensures var m := Run(Start(now), actions, leaseSeconds);
            m.now == late && IsDone(m) && "A" in m.handlers && m.handlers["A"] == Handler(Lease(now, leaseSeconds), true)
  {
    actions := Then(now, [], Claim("A"), leaseSeconds);
    actions := Then(now, actions, Clock(late), leaseSeconds);
    actions := Then(now, actions, Claim("B"), leaseSeconds);
    actions := Then(now, actions, Begin("B"), leaseSeconds);
    actions := Then(now, actions, Complete("B"), leaseSeconds);
    actions := Then(now, actions, Begin("A"), leaseSeconds);
  }
}
