/** Alert fan-out: one geofence event becomes alerts by rule and deliveries by channel. */
module Alerts {
  import opened Wrappers
  import opened Database

  const MAX_DELIVERY_ATTEMPTS: nat := 5

  predicate Selected(rule: Rule, tenant: string, event: GeofenceEvent) {
    rule.tenant == tenant && rule.fence == event.key.fence && rule.enabled
  }

  predicate Fires(rule: Rule, event: GeofenceEvent, now: Time) {
    && !(rule.silenceUntil.Some? && rule.silenceUntil.value > now)
    && (event.direction == Enter ==> rule.onEnter)
    && (event.direction == Exit ==> rule.onExit)
    && (rule.entityTypes != [] ==>
          event.entityType.Some? && event.entityType.value != "" && event.entityType.value in rule.entityTypes)
  }

  predicate Usable(channels: map<nat, Channel>, tenant: string, ref: ChannelRef) {
    ref.ChannelId? && ref.id in channels && channels[ref.id].tenant == tenant && channels[ref.id].enabled
  }

  /** The two tables fan-out appends to; a row's id is its position. */
  datatype Desk = Desk(alerts: seq<Alert>, deliveries: seq<Delivery>)

  function EnqueueStep(ds: seq<Delivery>, channels: map<nat, Channel>, tenant: string, alert: nat, ref: ChannelRef, now: Time)
    : seq<Delivery>
  {
    if Usable(channels, tenant, ref) then
      ds + [Delivery(|ds|, tenant, alert, ref.id, channels[ref.id].channelType, Pending, 0, MAX_DELIVERY_ATTEMPTS,
                     Some(now), None, None)]
    else ds
  }

  function EnqueueFold(ds: seq<Delivery>, channels: map<nat, Channel>, tenant: string, alert: nat, refs: seq<ChannelRef>, now: Time)
    : seq<Delivery>
  {
    if refs == [] then ds
    else EnqueueStep(EnqueueFold(ds, channels, tenant, alert, refs[..|refs| - 1], now), channels, tenant, alert,
                     refs[|refs| - 1], now)
  }

  function EmitStep(d: Desk, channels: map<nat, Channel>, tenant: string, event: GeofenceEvent, rule: Rule, now: Time): Desk {
    if Selected(rule, tenant, event) && Fires(rule, event, now) then
      var id := |d.alerts|;
      Desk(d.alerts + [Alert(id, tenant, rule.id, rule.severity, Open, event)],
           EnqueueFold(d.deliveries, channels, tenant, id, rule.channels, now))
    else d
  }

  function EmitFold(d: Desk, channels: map<nat, Channel>, tenant: string, event: GeofenceEvent, rules: seq<Rule>, now: Time): Desk {
    if rules == [] then d
    else EmitStep(EmitFold(d, channels, tenant, event, rules[..|rules| - 1], now), channels, tenant, event,
                  rules[|rules| - 1], now)
  }

  // ---------------------------------------------------------------- emission cut short by a raise

  function Rows(d: Desk): nat { |d.alerts| + |d.deliveries| }

  /** The first `n` rows that the channel loop adds. */
  function EnqueueUpTo(ds: seq<Delivery>, channels: map<nat, Channel>, tenant: string, alert: nat, refs: seq<ChannelRef>,
                       now: Time, n: nat): seq<Delivery>
  {
    var all := EnqueueFold(ds, channels, tenant, alert, refs, now);
    if |all| <= |ds| + n then all else all[..|ds| + n]
  }

  function EmitStepUpTo(d: Desk, channels: map<nat, Channel>, tenant: string, event: GeofenceEvent, rule: Rule, now: Time, left: nat)
    : Desk
  {
    if Selected(rule, tenant, event) && Fires(rule, event, now) && left > 0 then
      var id := |d.alerts|;
      Desk(d.alerts + [Alert(id, tenant, rule.id, rule.severity, Open, event)],
           EnqueueUpTo(d.deliveries, channels, tenant, id, rule.channels, now, left - 1))
    else d
  }

  function Left(start: Desk, d: Desk, n: nat): nat {
    if Rows(d) >= Rows(start) + n then 0 else if Rows(d) <= Rows(start) then n else Rows(start) + n - Rows(d)
  }

  /** The rows of one event's emission when it raises after `n` of them. */
  function EmitUpTo(d: Desk, channels: map<nat, Channel>, tenant: string, event: GeofenceEvent, rules: seq<Rule>, now: Time, n: nat)
    : Desk
  {
    if rules == [] then d
    else
      var p := EmitUpTo(d, channels, tenant, event, rules[..|rules| - 1], now, n);
      EmitStepUpTo(p, channels, tenant, event, rules[|rules| - 1], now, Left(d, p, n))
  }

  lemma {:induction false} EnqueueFoldExtends(ds: seq<Delivery>, channels: map<nat, Channel>, tenant: string, alert: nat,
                                              refs: seq<ChannelRef>, now: Time, i: nat)
    requires i <= |refs|
    ensures var part, all := EnqueueFold(ds, channels, tenant, alert, refs[..i], now), EnqueueFold(ds, channels, tenant, alert, refs, now);
            |ds| <= |part| <= |all| && all[..|part|] == part
    decreases |refs|
  {
    if i == |refs| {
      assert refs[..i] == refs;
      if i > 0 {
        EnqueueFoldExtends(ds, channels, tenant, alert, refs[..i - 1], now, i - 1);
      }
    } else {
      EnqueueFoldExtends(ds, channels, tenant, alert, refs[..|refs| - 1], now, i);
      assert refs[..|refs| - 1][..i] == refs[..i];
    }
  }

  lemma {:induction false} EmitUpToStops(d: Desk, channels: map<nat, Channel>, tenant: string, event: GeofenceEvent,
                                         rules: seq<Rule>, now: Time, n: nat, i: nat)
    requires i <= |rules| && Left(d, EmitUpTo(d, channels, tenant, event, rules[..i], now, n), n) == 0
    ensures EmitUpTo(d, channels, tenant, event, rules, now, n) == EmitUpTo(d, channels, tenant, event, rules[..i], now, n)
    decreases |rules|
  {
    if i == |rules| {
      assert rules[..i] == rules;
    } else {
      assert rules[..|rules| - 1][..i] == rules[..i];
      EmitUpToStops(d, channels, tenant, event, rules[..|rules| - 1], now, n, i);
    }
  }

  /** `p` holds the first rows of `f`, in each table. */
  ghost predicate Begins(p: Desk, f: Desk) {
    && |p.alerts| <= |f.alerts| && f.alerts[..|p.alerts|] == p.alerts
    && |p.deliveries| <= |f.deliveries| && f.deliveries[..|p.deliveries|] == p.deliveries
  }

  lemma BeginsStep(p: Desk, f: Desk, channels: map<nat, Channel>, tenant: string, event: GeofenceEvent, rule: Rule, now: Time)
    requires Begins(p, f)
    ensures Begins(p, EmitStep(f, channels, tenant, event, rule, now))
    ensures Rows(EmitStep(f, channels, tenant, event, rule, now)) >= Rows(f)
  {
    var q := EmitStep(f, channels, tenant, event, rule, now);
    EnqueueFoldExtends(f.deliveries, channels, tenant, |f.alerts|, rule.channels, now, 0);
    assert q.deliveries[..|p.deliveries|] == q.deliveries[..|f.deliveries|][..|p.deliveries|];
    assert q.alerts[..|p.alerts|] == q.alerts[..|f.alerts|][..|p.alerts|];
  }

  lemma SameStep(d: Desk, f: Desk, channels: map<nat, Channel>, tenant: string, event: GeofenceEvent, rule: Rule, now: Time, n: nat)
    requires Rows(d) <= Rows(f) <= Rows(d) + n
    ensures var p, q := EmitStepUpTo(f, channels, tenant, event, rule, now, Left(d, f, n)), EmitStep(f, channels, tenant, event, rule, now);
            && Begins(p, q) && Rows(f) <= Rows(p)
            && (if Rows(q) <= Rows(d) + n then p == q else Rows(p) == Rows(d) + n)
  {
    EnqueueFoldExtends(f.deliveries, channels, tenant, |f.alerts|, rule.channels, now, 0);
    assert Begins(f, f);
    BeginsStep(f, f, channels, tenant, event, rule, now);
  }

  /** An emission that raises after `n` rows leaves exactly the first min(n, all) rows of the full fan-out. */
  lemma {:induction false} CutShort(d: Desk, channels: map<nat, Channel>, tenant: string, event: GeofenceEvent,
                                    rules: seq<Rule>, now: Time, n: nat)
    ensures var p, f := EmitUpTo(d, channels, tenant, event, rules, now, n), EmitFold(d, channels, tenant, event, rules, now);
            && Begins(p, f) && Rows(d) <= Rows(p)
            && (if Rows(f) <= Rows(d) + n then p == f else Rows(p) == Rows(d) + n)
  {
    if rules == [] {
    } else {
      var init, r := rules[..|rules| - 1], rules[|rules| - 1];
      CutShort(d, channels, tenant, event, init, now, n);
      var p, f := EmitUpTo(d, channels, tenant, event, init, now, n), EmitFold(d, channels, tenant, event, init, now);
      if Rows(f) <= Rows(d) + n {
        SameStep(d, f, channels, tenant, event, r, now, n);
      } else {
        BeginsStep(p, f, channels, tenant, event, r, now);
      }
    }
  }

  // ---------------------------------------------------------------- the service

  /** `budget` is the number of rows after which writing raises, if it does. */
  method EnqueueForAlert(session: Session, channels: map<nat, Channel>, tenant: string, alert: nat, refs: seq<ChannelRef>, now: Time,
                         budget: Option<nat>)
    returns (raised: bool)
    modifies session`deliveries
    ensures session.deliveries
            == if budget.None? then EnqueueFold(old(session.deliveries), channels, tenant, alert, refs, now)
               else EnqueueUpTo(old(session.deliveries), channels, tenant, alert, refs, now, budget.value)
    ensures raised <==> budget.Some?
                        && |EnqueueFold(old(session.deliveries), channels, tenant, alert, refs, now)| > |old(session.deliveries)| + budget.value
  {
    ghost var before := session.deliveries;
    var start := |session.deliveries|;
    for i := 0 to |refs|
      invariant session.deliveries == EnqueueFold(before, channels, tenant, alert, refs[..i], now)
      invariant |session.deliveries| >= |before| && (budget.Some? ==> |session.deliveries| <= |before| + budget.value)
    {
      assert refs[..i + 1][..i] == refs[..i];
      EnqueueFoldExtends(before, channels, tenant, alert, refs, now, i + 1);
      var ref := refs[i];
      if ref.ChannelId? {
        if ref.id in channels && channels[ref.id].tenant == tenant && channels[ref.id].enabled {
          if budget.Some? && |session.deliveries| - start == budget.value {
            EnqueueFoldExtends(before, channels, tenant, alert, refs, now, i);
            return true;
          }
          var d := Delivery(|session.deliveries|, tenant, alert, ref.id, channels[ref.id].channelType, Pending, 0,
                            MAX_DELIVERY_ATTEMPTS, Some(now), None, None);
          session.deliveries := session.deliveries + [d];
        }
      }
    }
    assert refs[..|refs|] == refs;
    raised := false;
  }

  function StepWithin(d: Desk, channels: map<nat, Channel>, tenant: string, event: GeofenceEvent, rule: Rule, now: Time,
                      left: Option<nat>): Desk
  {
    match left
    case None => EmitStep(d, channels, tenant, event, rule, now)
    case Some(n) => EmitStepUpTo(d, channels, tenant, event, rule, now, n)
  }

  /** One rule: its alert and deliveries, unless it does not fire; raises when `left` rows do not suffice. */
  method EmitRule(session: Session, world: World, tenant: string, event: GeofenceEvent, rule: Rule, now: Time, left: Option<nat>)
    returns (raised: bool)
    modifies session`alerts, session`deliveries
    ensures Desk(session.alerts, session.deliveries)
            == StepWithin(old(Desk(session.alerts, session.deliveries)), world.channels, tenant, event, rule, now, left)
    ensures var before, after := old(Rows(Desk(session.alerts, session.deliveries))), Rows(Desk(session.alerts, session.deliveries));
            (left.Some? ==> before <= after <= before + left.value) && (raised ==> left.Some? && after == before + left.value)
  {
    raised := false;
    if Selected(rule, tenant, event) && Fires(rule, event, now) {
      if left == Some(0) {
        return true;
      }
      var id := |session.alerts|;
      EnqueueFoldExtends(session.deliveries, world.channels, tenant, id, rule.channels, now, 0);
      session.alerts := session.alerts + [Alert(id, tenant, rule.id, rule.severity, Open, event)];
      raised := EnqueueForAlert(session, world.channels, tenant, id, rule.channels, now,
                                if left.Some? then Some(left.value - 1) else None);
    }
  }

  function Emission(d: Desk, channels: map<nat, Channel>, tenant: string, event: GeofenceEvent, rules: seq<Rule>, now: Time,
                    budget: Option<nat>): Desk
  {
    match budget
    case None => EmitFold(d, channels, tenant, event, rules, now)
    case Some(n) => EmitUpTo(d, channels, tenant, event, rules, now, n)
  }

  /** Emits one event; with a budget it raises after that many rows, or at the latest at its end. */
  method EmitFromGeofenceEvent(session: Session, world: World, tenant: string, event: GeofenceEvent, now: Time, budget: Option<nat>)
    returns (raised: bool)
    modifies session`alerts, session`deliveries
    ensures raised == budget.Some?
    ensures Desk(session.alerts, session.deliveries)
            == Emission(old(Desk(session.alerts, session.deliveries)), world.channels, tenant, event, world.rules, now, budget)
  {
    ghost var d := Desk(session.alerts, session.deliveries);
    var start := |session.alerts| + |session.deliveries|;
    for i := 0 to |world.rules|
      invariant Desk(session.alerts, session.deliveries) == Emission(d, world.channels, tenant, event, world.rules[..i], now, budget)
      invariant start == Rows(d)
      invariant budget.Some? ==> start <= |session.alerts| + |session.deliveries| <= start + budget.value
    {
      assert world.rules[..i + 1][..i] == world.rules[..i];
      var left := if budget.Some? then Some(start + budget.value - |session.alerts| - |session.deliveries|) else None;
      raised := EmitRule(session, world, tenant, event, world.rules[i], now, left);
      if raised {
        EmitUpToStops(d, world.channels, tenant, event, world.rules, now, budget.value, i + 1);
        return;
      }
    }
    assert world.rules[..|world.rules|] == world.rules;
    raised := budget.Some?;
  }

  // ---------------------------------------------------------------- conservation

  /** The rules an event fires, in table order. */
  function Firing(rules: seq<Rule>, tenant: string, event: GeofenceEvent, now: Time): seq<Rule> {
    if rules == [] then []
    else
      var r := rules[|rules| - 1];
      Firing(rules[..|rules| - 1], tenant, event, now)
      + if Selected(r, tenant, event) && Fires(r, event, now) then [r] else []
  }

  /** How many entries of a channel list name the usable channel `c`. */
  function Hits(refs: seq<ChannelRef>, channels: map<nat, Channel>, tenant: string, c: nat): nat {
    if refs == [] then 0
    else
      Hits(refs[..|refs| - 1], channels, tenant, c)
      + if refs[|refs| - 1] == ChannelId(c) && Usable(channels, tenant, ChannelId(c)) then 1 else 0
  }

  function UsableCount(refs: seq<ChannelRef>, channels: map<nat, Channel>, tenant: string): nat {
    if refs == [] then 0
    else UsableCount(refs[..|refs| - 1], channels, tenant) + if Usable(channels, tenant, refs[|refs| - 1]) then 1 else 0
  }

  function TotalUsable(rules: seq<Rule>, channels: map<nat, Channel>, tenant: string): nat {
    if rules == [] then 0
    else TotalUsable(rules[..|rules| - 1], channels, tenant) + UsableCount(rules[|rules| - 1].channels, channels, tenant)
  }

  function Addressed(ds: seq<Delivery>, alert: nat, c: nat): nat {
    if ds == [] then 0
    else Addressed(ds[..|ds| - 1], alert, c) + if ds[|ds| - 1].alert == alert && ds[|ds| - 1].channel == c then 1 else 0
  }

  ghost predicate Fresh(d: Delivery, tenant: string, now: Time) {
    && d.tenant == tenant && d.status == Pending && d.attempts == 0 && d.maxAttempts == MAX_DELIVERY_ATTEMPTS
    && d.nextAttemptAt == Some(now) && d.claimedBy == None && d.leaseUntil == None
  }

  /** Every delivery refers to an alert that exists. */
  ghost predicate Linked(d: Desk) {
    forall i :: 0 <= i < |d.deliveries| ==> d.deliveries[i].alert < |d.alerts|
  }

  lemma {:induction false} EnqueueFoldCounts(ds: seq<Delivery>, channels: map<nat, Channel>, tenant: string, alert: nat,
                                             refs: seq<ChannelRef>, now: Time)
    ensures var q := EnqueueFold(ds, channels, tenant, alert, refs, now);
            && |q| == |ds| + UsableCount(refs, channels, tenant)
            && q[..|ds|] == ds
            && (forall i :: |ds| <= i < |q| ==> Fresh(q[i], tenant, now) && q[i].alert == alert)
            && (forall a, c :: Addressed(q, a, c) == Addressed(ds, a, c) + if a == alert then Hits(refs, channels, tenant, c) else 0)
  {
    if refs == [] {
    } else {
      EnqueueFoldCounts(ds, channels, tenant, alert, refs[..|refs| - 1], now);
      var mid := EnqueueFold(ds, channels, tenant, alert, refs[..|refs| - 1], now);
      var q := EnqueueFold(ds, channels, tenant, alert, refs, now);
      if |q| > |mid| {
        assert q[..|q| - 1] == mid;
      }
    }
  }

  lemma {:induction false} NoneAddressed(ds: seq<Delivery>, alert: nat, c: nat)
    requires forall i :: 0 <= i < |ds| ==> ds[i].alert != alert
    ensures Addressed(ds, alert, c) == 0
  {
    if ds == [] {
    } else {
      NoneAddressed(ds[..|ds| - 1], alert, c);
    }
  }

  /** The alerts `q` has beyond `d`: one open alert per rule, in rule order. */
  ghost predicate OneAlertEach(d: Desk, q: Desk, tenant: string, event: GeofenceEvent, firing: seq<Rule>) {
    && |q.alerts| == |d.alerts| + |firing|
    && q.alerts[..|d.alerts|] == d.alerts
    && (forall i :: 0 <= i < |firing| ==>
          q.alerts[|d.alerts| + i] == Alert(|d.alerts| + i, tenant, firing[i].id, firing[i].severity, Open, event))
  }

  /** The deliveries `q` has beyond `d`, in all and per (alert, channel). */
  ghost predicate OneDeliveryEach(d: Desk, q: Desk, channels: map<nat, Channel>, tenant: string, firing: seq<Rule>, now: Time) {
    && Linked(q)
    && |q.deliveries| == |d.deliveries| + TotalUsable(firing, channels, tenant)
    && q.deliveries[..|d.deliveries|] == d.deliveries
    && (forall i :: |d.deliveries| <= i < |q.deliveries| ==> Fresh(q.deliveries[i], tenant, now))
    && (forall i: nat, c: nat :: i < |firing| ==>
          Addressed(q.deliveries, |d.alerts| + i, c) == Hits(firing[i].channels, channels, tenant, c))
    && (forall a: nat, c: nat :: a < |d.alerts| ==> Addressed(q.deliveries, a, c) == Addressed(d.deliveries, a, c))
  }

  lemma DeliveriesStep(d: Desk, mid: Desk, channels: map<nat, Channel>, tenant: string, event: GeofenceEvent,
                       firing: seq<Rule>, r: Rule, now: Time)
    requires |mid.alerts| == |d.alerts| + |firing|
    requires OneDeliveryEach(d, mid, channels, tenant, firing, now)
    requires Selected(r, tenant, event) && Fires(r, event, now)
    ensures OneDeliveryEach(d, EmitStep(mid, channels, tenant, event, r, now), channels, tenant, firing + [r], now)
  {
    var q, more, id := EmitStep(mid, channels, tenant, event, r, now), firing + [r], |mid.alerts|;
    EnqueueFoldCounts(mid.deliveries, channels, tenant, id, r.channels, now);
    assert more[..|firing|] == firing;
    assert Linked(q) by {
      assert forall i :: 0 <= i < |mid.deliveries| ==> q.deliveries[..|mid.deliveries|][i] == mid.deliveries[i];
    }
    assert q.deliveries[..|d.deliveries|] == mid.deliveries[..|d.deliveries|];
    forall i | |d.deliveries| <= i < |q.deliveries|
      ensures Fresh(q.deliveries[i], tenant, now)
    {
      if i < |mid.deliveries| {
        assert q.deliveries[..|mid.deliveries|][i] == mid.deliveries[i];
      }
    }
    forall i: nat, c: nat | i < |more|
      ensures Addressed(q.deliveries, |d.alerts| + i, c) == Hits(more[i].channels, channels, tenant, c)
    {
      if i == |firing| {
        NoneAddressed(mid.deliveries, id, c);
      }
    }
  }

  lemma {:induction false} AlertsFollowRules(d: Desk, channels: map<nat, Channel>, tenant: string, event: GeofenceEvent,
                                             rules: seq<Rule>, now: Time)
    ensures OneAlertEach(d, EmitFold(d, channels, tenant, event, rules, now), tenant, event, Firing(rules, tenant, event, now))
  {
    if rules == [] {
    } else {
      AlertsFollowRules(d, channels, tenant, event, rules[..|rules| - 1], now);
    }
  }

  /**
   One event creates exactly one open alert per firing rule, in rule order, and for each alert one
   pending delivery per entry of that rule's channel list naming a usable channel; nothing else.
   */
  lemma {:induction false} FanOutConserves(d: Desk, channels: map<nat, Channel>, tenant: string, event: GeofenceEvent,
                                           rules: seq<Rule>, now: Time)
    requires Linked(d)
    ensures OneAlertEach(d, EmitFold(d, channels, tenant, event, rules, now), tenant, event, Firing(rules, tenant, event, now))
    ensures OneDeliveryEach(d, EmitFold(d, channels, tenant, event, rules, now), channels, tenant,
                            Firing(rules, tenant, event, now), now)
  {
    AlertsFollowRules(d, channels, tenant, event, rules, now);
    if rules == [] {
    } else {
      var init, r := rules[..|rules| - 1], rules[|rules| - 1];
      FanOutConserves(d, channels, tenant, event, init, now);
      if Selected(r, tenant, event) && Fires(r, event, now) {
        DeliveriesStep(d, EmitFold(d, channels, tenant, event, init, now), channels, tenant, event,
                       Firing(init, tenant, event, now), r, now);
      } else {
        assert Firing(rules, tenant, event, now) == Firing(init, tenant, event, now);
      }
    }
  }
}
