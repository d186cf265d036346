/**
 Alert fan-out over the events of an evaluation and of a whole batch: which alerts and deliveries are
 created, in which order, stated row by row and without reference to how the services loop.
 */
module FanOut {
  import opened Wrappers
  import opened Database
  import opened Ingestion
  import opened IngestionHistory
  import Alerts
  import Geofencing
  import GeofenceHistory

  // ---------------------------------------------------------------- what should be created

  /** The rule wants the event: its own fence, switched on, not silenced, the direction and the type asked for. */
  ghost predicate Applies(rule: Rule, tenant: string, event: GeofenceEvent, now: Time) {
    && rule.tenant == tenant && rule.fence == event.key.fence && rule.enabled
    && (rule.silenceUntil.None? || rule.silenceUntil.value <= now)
    && (if event.direction == Enter then rule.onEnter else rule.onExit)
    && (rule.entityTypes == [] || exists t :: t in rule.entityTypes && event.entityType == Some(t) && t != "")
  }

  /** The entry parses to an enabled channel of the tenant. */
  ghost predicate Reaches(ref: ChannelRef, channels: map<nat, Channel>, tenant: string) {
    match ref
    case ChannelId(id) => id in channels && channels[id].tenant == tenant && channels[id].enabled
    case Malformed(_) => false
  }

  datatype Cell = Cell(row: nat, column: nat)

  /** Row by row, from left to right. */
  ghost predicate Ascending(cells: seq<Cell>) {
    forall i, j :: 0 <= i < j < |cells| ==>
      cells[i].row < cells[j].row || (cells[i].row == cells[j].row && cells[i].column < cells[j].column)
  }

  /** The (event, rule) pairs that apply, in order, of the first `e` events and the first `r` rules of the next. */
  ghost predicate Fired(cells: seq<Cell>, rules: seq<Rule>, tenant: string, events: seq<GeofenceEvent>, now: Time, e: nat, r: nat) {
    && Ascending(cells)
    && forall c {:trigger c in cells} :: c in cells <==>
         && c.row < |events| && c.column < |rules| && (c.row < e || (c.row == e && c.column < r))
         && Applies(rules[c.column], tenant, events[c.row], now)
  }

  /** One open alert per pair, after the old ones. */
  ghost predicate Alerted(before: seq<Alert>, after: seq<Alert>, cells: seq<Cell>, rules: seq<Rule>, tenant: string,
                          events: seq<GeofenceEvent>)
  {
    && |after| == |before| + |cells| && after[..|before|] == before
    && forall n :: 0 <= n < |cells| ==>
         && cells[n].row < |events| && cells[n].column < |rules|
         && after[|before| + n] == Alert(|before| + n, tenant, rules[cells[n].column].id, rules[cells[n].column].severity, Open,
                                         events[cells[n].row])
  }

  function ChannelLists(cells: seq<Cell>, rules: seq<Rule>): seq<seq<ChannelRef>> {
    seq(|cells|, n requires 0 <= n < |cells| => if cells[n].column < |rules| then rules[cells[n].column].channels else [])
  }

  /** The (alert, entry) pairs that reach a channel, in order, of the first `n` lists and the first `k` entries of the next. */
  ghost predicate Posted(posts: seq<Cell>, lists: seq<seq<ChannelRef>>, channels: map<nat, Channel>, tenant: string, n: nat, k: nat) {
    && Ascending(posts)
    && forall p {:trigger p in posts} :: p in posts <==>
         && p.row < |lists| && p.column < |lists[p.row]| && (p.row < n || (p.row == n && p.column < k))
         && Reaches(lists[p.row][p.column], channels, tenant)
  }

  ghost predicate IsDelivery(d: Delivery, id: nat, tenant: string, alert: nat, ref: ChannelRef, channels: map<nat, Channel>, now: Time) {
    && ref.ChannelId? && ref.id in channels
    && d == Delivery(id, tenant, alert, ref.id, channels[ref.id].channelType, Pending, 0, 5, Some(now), None, None)
  }

  /** One pending delivery per pair, after the old ones. */
  ghost predicate Sent(before: seq<Delivery>, after: seq<Delivery>, posts: seq<Cell>, lists: seq<seq<ChannelRef>>,
                       channels: map<nat, Channel>, tenant: string, base: nat, now: Time)
  {
    && |after| == |before| + |posts| && after[..|before|] == before
    && forall m :: 0 <= m < |posts| ==>
         && posts[m].row < |lists| && posts[m].column < |lists[posts[m].row]|
         && IsDelivery(after[|before| + m], |before| + m, tenant, base + posts[m].row, lists[posts[m].row][posts[m].column], channels, now)
  }

  /** The deliveries of the alerts of `cells`, the first of which has the id `base`. */
  ghost predicate Delivers(before: seq<Delivery>, after: seq<Delivery>, world: World, tenant: string, base: nat, now: Time,
                           cells: seq<Cell>, posts: seq<Cell>)
  {
    var lists := ChannelLists(cells, world.rules);
    && Posted(posts, lists, world.channels, tenant, |lists|, 0)
    && Sent(before, after, posts, lists, world.channels, tenant, base, now)
  }

  ghost predicate FansOutBy(before: Alerts.Desk, after: Alerts.Desk, world: World, tenant: string, events: seq<GeofenceEvent>,
                            now: Time, cells: seq<Cell>, posts: seq<Cell>)
  {
    && Fired(cells, world.rules, tenant, events, now, |events|, 0)
    && Alerted(before.alerts, after.alerts, cells, world.rules, tenant, events)
    && Delivers(before.deliveries, after.deliveries, world, tenant, |before.alerts|, now, cells, posts)
  }

  /**
   Event by event, and rule by rule, one open alert for each rule that applies, and for each alert one
   pending delivery per entry that reaches a channel, in list order; nothing else, and nothing old touched.
   */
  ghost predicate FansOut(before: Alerts.Desk, after: Alerts.Desk, world: World, tenant: string, events: seq<GeofenceEvent>, now: Time) {
    exists cells: seq<Cell>, posts: seq<Cell> :: FansOutBy(before, after, world, tenant, events, now, cells, posts)
  }

  // ---------------------------------------------------------------- the loops create it

  lemma FiresApplies(rule: Rule, tenant: string, event: GeofenceEvent, now: Time)
    ensures Alerts.Selected(rule, tenant, event) && Alerts.Fires(rule, event, now) <==> Applies(rule, tenant, event, now)
  {
    if event.entityType.Some? && event.entityType.value in rule.entityTypes {
      var t := event.entityType.value;
      assert t in rule.entityTypes;
    }
  }

  /** Cells after all the others keep the order and add themselves. */
  lemma AscendingAppend(cells: seq<Cell>, c: Cell)
    requires Ascending(cells)
    requires forall b :: b in cells ==> b.row < c.row || (b.row == c.row && b.column < c.column)
    ensures Ascending(cells + [c])
  {
    forall i, j | 0 <= i < j < |cells + [c]|
      ensures var a, b := (cells + [c])[i], (cells + [c])[j]; a.row < b.row || (a.row == b.row && a.column < b.column)
    {
      assert (cells + [c])[i] in cells;
    }
  }

  lemma PostedStep(posts: seq<Cell>, lists: seq<seq<ChannelRef>>, channels: map<nat, Channel>, tenant: string, n: nat, k: nat)
    requires n < |lists| && k < |lists[n]| && Posted(posts, lists, channels, tenant, n, k)
    ensures if Reaches(lists[n][k], channels, tenant) then Posted(posts + [Cell(n, k)], lists, channels, tenant, n, k + 1)
            else Posted(posts, lists, channels, tenant, n, k + 1)
  {
    if Reaches(lists[n][k], channels, tenant) {
      AscendingAppend(posts, Cell(n, k));
    }
  }

  lemma SentStep(before: seq<Delivery>, ds: seq<Delivery>, posts: seq<Cell>, lists: seq<seq<ChannelRef>>, channels: map<nat, Channel>,
                 tenant: string, base: nat, now: Time, n: nat, k: nat)
    requires n < |lists| && k < |lists[n]| && Sent(before, ds, posts, lists, channels, tenant, base, now)
    ensures var after := Alerts.EnqueueStep(ds, channels, tenant, base + n, lists[n][k], now);
            if Reaches(lists[n][k], channels, tenant) then Sent(before, after, posts + [Cell(n, k)], lists, channels, tenant, base, now)
            else after == ds
  {
    var after := Alerts.EnqueueStep(ds, channels, tenant, base + n, lists[n][k], now);
    if Reaches(lists[n][k], channels, tenant) {
      assert after[..|before|] == ds[..|before|];
      assert IsDelivery(after[|ds|], |ds|, tenant, base + n, lists[n][k], channels, now);
    }
  }

  lemma {:induction false} EnqueuePosts(before: seq<Delivery>, ds: seq<Delivery>, channels: map<nat, Channel>, tenant: string,
                                        base: nat, lists: seq<seq<ChannelRef>>, posts: seq<Cell>, now: Time, k: nat)
    returns (more: seq<Cell>)
    requires lists != [] && k <= |lists[|lists| - 1]|
    requires Posted(posts, lists, channels, tenant, |lists| - 1, 0) && Sent(before, ds, posts, lists, channels, tenant, base, now)
    ensures Posted(more, lists, channels, tenant, |lists| - 1, k)
    ensures Sent(before, Alerts.EnqueueFold(ds, channels, tenant, base + |lists| - 1, lists[|lists| - 1][..k], now), more, lists,
                 channels, tenant, base, now)
    decreases k
  {
    if k == 0 {
      more := posts;
    } else {
      var n := |lists| - 1;
      more := EnqueuePosts(before, ds, channels, tenant, base, lists, posts, now, k - 1);
      assert lists[n][..k][..k - 1] == lists[n][..k - 1];
      PostedStep(more, lists, channels, tenant, n, k - 1);
      SentStep(before, Alerts.EnqueueFold(ds, channels, tenant, base + n, lists[n][..k - 1], now), more, lists, channels, tenant, base,
               now, n, k - 1);
      if Reaches(lists[n][k - 1], channels, tenant) {
        more := more + [Cell(n, k - 1)];
      }
    }
  }

  /** A further list adds nothing to what the others post. */
  lemma PostedMore(posts: seq<Cell>, lists: seq<seq<ChannelRef>>, last: seq<ChannelRef>, channels: map<nat, Channel>, tenant: string)
    requires Posted(posts, lists, channels, tenant, |lists|, 0)
    ensures Posted(posts, lists + [last], channels, tenant, |lists|, 0)
  {
  }

  lemma SentMore(before: seq<Delivery>, after: seq<Delivery>, posts: seq<Cell>, lists: seq<seq<ChannelRef>>, last: seq<ChannelRef>,
                 channels: map<nat, Channel>, tenant: string, base: nat, now: Time)
    requires Sent(before, after, posts, lists, channels, tenant, base, now)
    ensures Sent(before, after, posts, lists + [last], channels, tenant, base, now)
  {
  }

  /** One alert more: its list's posts come after all the others. */
  lemma AlertPosts(before: seq<Delivery>, ds: seq<Delivery>, channels: map<nat, Channel>, tenant: string, base: nat,
                   lists: seq<seq<ChannelRef>>, last: seq<ChannelRef>, posts: seq<Cell>, now: Time)
    returns (more: seq<Cell>)
    requires Posted(posts, lists, channels, tenant, |lists|, 0) && Sent(before, ds, posts, lists, channels, tenant, base, now)
    ensures Posted(more, lists + [last], channels, tenant, |lists| + 1, 0)
    ensures Sent(before, Alerts.EnqueueFold(ds, channels, tenant, base + |lists|, last, now), more, lists + [last], channels, tenant,
                 base, now)
  {
    PostedMore(posts, lists, last, channels, tenant);
    SentMore(before, ds, posts, lists, last, channels, tenant, base, now);
    more := EnqueuePosts(before, ds, channels, tenant, base, lists + [last], posts, now, |last|);
    assert last[..|last|] == last;
  }

  lemma FiredStep(cells: seq<Cell>, rules: seq<Rule>, tenant: string, events: seq<GeofenceEvent>, now: Time, e: nat, r: nat)
    requires e < |events| && r < |rules| && Fired(cells, rules, tenant, events, now, e, r)
    ensures Fired(cells + if Applies(rules[r], tenant, events[e], now) then [Cell(e, r)] else [], rules, tenant, events, now, e, r + 1)
  {
    if Applies(rules[r], tenant, events[e], now) {
      AscendingAppend(cells, Cell(e, r));
    } else {
      assert cells + [] == cells;
    }
  }

  lemma AlertedStep(before: seq<Alert>, after: seq<Alert>, cells: seq<Cell>, rules: seq<Rule>, tenant: string,
                    events: seq<GeofenceEvent>, e: nat, r: nat)
    requires e < |events| && r < |rules| && Alerted(before, after, cells, rules, tenant, events)
    ensures Alerted(before, after + [Alert(|after|, tenant, rules[r].id, rules[r].severity, Open, events[e])], cells + [Cell(e, r)],
                    rules, tenant, events)
  {
    var more := after + [Alert(|after|, tenant, rules[r].id, rules[r].severity, Open, events[e])];
    assert more[..|before|] == after[..|before|];
  }

  lemma DeliveriesAdded(before: seq<Delivery>, ds: seq<Delivery>, world: World, tenant: string, base: nat, now: Time, cells: seq<Cell>,
                        posts: seq<Cell>, c: Cell)
    returns (posts': seq<Cell>)
    requires c.column < |world.rules|
    requires Delivers(before, ds, world, tenant, base, now, cells, posts)
    ensures Delivers(before, Alerts.EnqueueFold(ds, world.channels, tenant, base + |cells|, world.rules[c.column].channels, now), world,
                     tenant, base, now, cells + [c], posts')
  {
    var lists, last := ChannelLists(cells, world.rules), world.rules[c.column].channels;
    assert ChannelLists(cells + [c], world.rules) == lists + [last];
    posts' := AlertPosts(before, ds, world.channels, tenant, base, lists, last, posts, now);
  }

  // ---------------------------------------------------------------- rule by rule, event by event

  /** The pairs of event `e` with the first `r` rules, after those of the events before. */
  ghost function RowPairs(before: seq<Cell>, rules: seq<Rule>, tenant: string, event: GeofenceEvent, now: Time, e: nat, r: nat)
    : seq<Cell>
    requires r <= |rules|
  {
    if r == 0 then before
    else
      RowPairs(before, rules, tenant, event, now, e, r - 1)
      + if Applies(rules[r - 1], tenant, event, now) then [Cell(e, r - 1)] else []
  }

  ghost function Pairs(rules: seq<Rule>, tenant: string, events: seq<GeofenceEvent>, now: Time, e: nat): seq<Cell>
    requires e <= |events|
  {
    if e == 0 then [] else RowPairs(Pairs(rules, tenant, events, now, e - 1), rules, tenant, events[e - 1], now, e - 1, |rules|)
  }

  lemma {:induction false} RowPairsFired(before: seq<Cell>, rules: seq<Rule>, tenant: string, events: seq<GeofenceEvent>, now: Time,
                                         e: nat, r: nat)
    requires e < |events| && r <= |rules| && Fired(before, rules, tenant, events, now, e, 0)
    ensures Fired(RowPairs(before, rules, tenant, events[e], now, e, r), rules, tenant, events, now, e, r)
  {
    if r > 0 {
      RowPairsFired(before, rules, tenant, events, now, e, r - 1);
      FiredStep(RowPairs(before, rules, tenant, events[e], now, e, r - 1), rules, tenant, events, now, e, r - 1);
    }
  }

  lemma {:induction false} PairsFired(rules: seq<Rule>, tenant: string, events: seq<GeofenceEvent>, now: Time, e: nat)
    requires e <= |events|
    ensures Fired(Pairs(rules, tenant, events, now, e), rules, tenant, events, now, e, 0)
  {
    if e > 0 {
      PairsFired(rules, tenant, events, now, e - 1);
      RowPairsFired(Pairs(rules, tenant, events, now, e - 1), rules, tenant, events, now, e - 1, |rules|);
    }
  }

  lemma {:induction false} RowAlerts(before: seq<Alert>, d: Alerts.Desk, world: World, tenant: string, events: seq<GeofenceEvent>,
                                     now: Time, cells: seq<Cell>, e: nat, r: nat)
    requires e < |events| && r <= |world.rules| && Alerted(before, d.alerts, cells, world.rules, tenant, events)
    ensures Alerted(before, Alerts.EmitFold(d, world.channels, tenant, events[e], world.rules[..r], now).alerts,
                    RowPairs(cells, world.rules, tenant, events[e], now, e, r), world.rules, tenant, events)
  {
    if r > 0 {
      RowAlerts(before, d, world, tenant, events, now, cells, e, r - 1);
      assert world.rules[..r][..r - 1] == world.rules[..r - 1];
      FiresApplies(world.rules[r - 1], tenant, events[e], now);
      AlertedStep(before, Alerts.EmitFold(d, world.channels, tenant, events[e], world.rules[..r - 1], now).alerts,
                  RowPairs(cells, world.rules, tenant, events[e], now, e, r - 1), world.rules, tenant, events, e, r - 1);
    }
  }

  lemma RuleDeliveries(before: Alerts.Desk, d: Alerts.Desk, world: World, tenant: string, event: GeofenceEvent, now: Time,
                       cells: seq<Cell>, posts: seq<Cell>, e: nat, r: nat)
    returns (posts': seq<Cell>)
    requires r < |world.rules| && |d.alerts| == |before.alerts| + |cells|
    requires Delivers(before.deliveries, d.deliveries, world, tenant, |before.alerts|, now, cells, posts)
    ensures var q := Alerts.EmitStep(d, world.channels, tenant, event, world.rules[r], now);
            var more := cells + if Applies(world.rules[r], tenant, event, now) then [Cell(e, r)] else [];
            && |q.alerts| == |before.alerts| + |more|
            && Delivers(before.deliveries, q.deliveries, world, tenant, |before.alerts|, now, more, posts')
  {
    FiresApplies(world.rules[r], tenant, event, now);
    if Applies(world.rules[r], tenant, event, now) {
      posts' := DeliveriesAdded(before.deliveries, d.deliveries, world, tenant, |before.alerts|, now, cells, posts, Cell(e, r));
    } else {
      posts' := posts;
      assert cells + [] == cells;
    }
  }

  lemma {:induction false} RowDeliveries(before: Alerts.Desk, d: Alerts.Desk, world: World, tenant: string, event: GeofenceEvent,
                                         now: Time, cells: seq<Cell>, posts: seq<Cell>, e: nat, r: nat)
    returns (posts': seq<Cell>)
    requires r <= |world.rules| && |d.alerts| == |before.alerts| + |cells|
    requires Delivers(before.deliveries, d.deliveries, world, tenant, |before.alerts|, now, cells, posts)
    ensures var q, more := Alerts.EmitFold(d, world.channels, tenant, event, world.rules[..r], now),
                           RowPairs(cells, world.rules, tenant, event, now, e, r);
            && |q.alerts| == |before.alerts| + |more|
            && Delivers(before.deliveries, q.deliveries, world, tenant, |before.alerts|, now, more, posts')
  {
    if r == 0 {
      posts' := posts;
    } else {
      posts' := RowDeliveries(before, d, world, tenant, event, now, cells, posts, e, r - 1);
      assert world.rules[..r][..r - 1] == world.rules[..r - 1];
      posts' := RuleDeliveries(before, Alerts.EmitFold(d, world.channels, tenant, event, world.rules[..r - 1], now), world, tenant, event,
                               now, RowPairs(cells, world.rules, tenant, event, now, e, r - 1), posts', e, r - 1);
    }
  }

  lemma {:induction false} EventsAlerts(before: Alerts.Desk, world: World, tenant: string, events: seq<GeofenceEvent>, now: Time, e: nat)
    requires e <= |events|
    ensures Alerted(before.alerts, EmitEvents(before, world, tenant, events[..e], now).alerts,
                    Pairs(world.rules, tenant, events, now, e), world.rules, tenant, events)
  {
    if e == 0 {
      assert before.alerts[..|before.alerts|] == before.alerts;
    } else {
      EventsAlerts(before, world, tenant, events, now, e - 1);
      assert events[..e][..e - 1] == events[..e - 1] && world.rules[..|world.rules|] == world.rules;
      RowAlerts(before.alerts, EmitEvents(before, world, tenant, events[..e - 1], now), world, tenant, events, now,
                Pairs(world.rules, tenant, events, now, e - 1), e - 1, |world.rules|);
    }
  }

  lemma {:induction false} EventsDeliveries(before: Alerts.Desk, world: World, tenant: string, events: seq<GeofenceEvent>, now: Time,
                                            e: nat)
    returns (posts: seq<Cell>)
    requires e <= |events|
    ensures var q, cells := EmitEvents(before, world, tenant, events[..e], now), Pairs(world.rules, tenant, events, now, e);
            && |q.alerts| == |before.alerts| + |cells|
            && Delivers(before.deliveries, q.deliveries, world, tenant, |before.alerts|, now, cells, posts)
  {
    if e == 0 {
      posts := [];
      assert before.deliveries[..|before.deliveries|] == before.deliveries && ChannelLists([], world.rules) == [];
    } else {
      posts := EventsDeliveries(before, world, tenant, events, now, e - 1);
      assert events[..e][..e - 1] == events[..e - 1] && world.rules[..|world.rules|] == world.rules;
      posts := RowDeliveries(before, EmitEvents(before, world, tenant, events[..e - 1], now), world, tenant, events[e - 1], now,
                             Pairs(world.rules, tenant, events, now, e - 1), posts, e - 1, |world.rules|);
    }
  }

  lemma EventsFanOut(before: Alerts.Desk, world: World, tenant: string, events: seq<GeofenceEvent>, now: Time)
    ensures FansOut(before, EmitEvents(before, world, tenant, events, now), world, tenant, events, now)
  {
    var cells := Pairs(world.rules, tenant, events, now, |events|);
    PairsFired(world.rules, tenant, events, now, |events|);
    EventsAlerts(before, world, tenant, events, now, |events|);
    var posts := EventsDeliveries(before, world, tenant, events, now, |events|);
    assert events[..|events|] == events;
    assert FansOutBy(before, EmitEvents(before, world, tenant, events, now), world, tenant, events, now, cells, posts);
  }

  // ---------------------------------------------------------------- emission that raises

  /**
   `p` is what the fan-out from `d` to `f` leaves when it stops after `n` rows: the first rows of each
   table, min(n, all) in total, with an alert written before its deliveries and these before the next alert.
   */
  ghost predicate StopsAfter(d: Alerts.Desk, p: Alerts.Desk, f: Alerts.Desk, n: nat) {
    && |p.alerts| <= |f.alerts| && p.alerts == f.alerts[..|p.alerts|]
    && |p.deliveries| <= |f.deliveries| && p.deliveries == f.deliveries[..|p.deliveries|]
    && (var all, left := |f.alerts| + |f.deliveries|, |d.alerts| + |d.deliveries| + n;
        |p.alerts| + |p.deliveries| == if all <= left then all else left)
    && forall m :: |d.deliveries| <= m < |f.deliveries| ==>
         && (f.deliveries[m].alert + 1 < |p.alerts| ==> m < |p.deliveries|)
         && (m < |p.deliveries| ==> f.deliveries[m].alert < |p.alerts|)
  }

  lemma StepGrows(d: Alerts.Desk, f: Alerts.Desk, world: World, tenant: string, event: GeofenceEvent, rule: Rule, now: Time)
    requires GrownFrom(d, f)
    ensures var g := Alerts.EmitStep(f, world.channels, tenant, event, rule, now);
            && GrownFrom(d, g) && Alerts.Begins(f, g)
            && forall m :: |f.deliveries| <= m < |g.deliveries| ==> g.deliveries[m].alert == |f.alerts|
  {
    Alerts.EnqueueFoldCounts(f.deliveries, world.channels, tenant, |f.alerts|, rule.channels, now);
    var g := Alerts.EmitStep(f, world.channels, tenant, event, rule, now);
    assert Alerts.Begins(f, f);
    Alerts.BeginsStep(f, f, world.channels, tenant, event, rule, now);
    assert forall m :: 0 <= m < |f.deliveries| ==> g.deliveries[..|f.deliveries|][m] == g.deliveries[m];
  }

  /** Once stopped, further rules add nothing. */
  lemma StaysStopped(d: Alerts.Desk, p: Alerts.Desk, f: Alerts.Desk, g: Alerts.Desk, n: nat)
    requires StopsAfter(d, p, f, n) && GrownFrom(d, p) && GrownFrom(d, f) && Alerts.Rows(p) == Alerts.Rows(d) + n
    requires Alerts.Begins(f, g) && forall m :: |f.deliveries| <= m < |g.deliveries| ==> g.deliveries[m].alert == |f.alerts|
    ensures StopsAfter(d, p, g, n)
  {
    assert p.alerts == g.alerts[..|f.alerts|][..|p.alerts|] && p.deliveries == g.deliveries[..|f.deliveries|][..|p.deliveries|];
    assert forall m :: 0 <= m < |f.deliveries| ==> g.deliveries[..|f.deliveries|][m] == g.deliveries[m];
  }

  /** One rule more, before or after the emission has stopped. */
  lemma StopsStep(d: Alerts.Desk, p: Alerts.Desk, f: Alerts.Desk, world: World, tenant: string, event: GeofenceEvent, rule: Rule,
                  now: Time, n: nat)
    requires StopsAfter(d, p, f, n) && GrownFrom(d, p) && GrownFrom(d, f)
    requires Alerts.Rows(f) <= Alerts.Rows(d) + n ==> p == f
    ensures var q, g := Alerts.EmitStepUpTo(p, world.channels, tenant, event, rule, now, Alerts.Left(d, p, n)),
                        Alerts.EmitStep(f, world.channels, tenant, event, rule, now);
            StopsAfter(d, q, g, n) && GrownFrom(d, q) && GrownFrom(d, g)
  {
    StepGrows(d, f, world, tenant, event, rule, now);
    if Alerts.Left(d, p, n) == 0 {
      StaysStopped(d, p, f, Alerts.EmitStep(f, world.channels, tenant, event, rule, now), n);
    }
  }

  /** Nothing is lost, and deliveries are of alerts that exist. */
  ghost predicate GrownFrom(d: Alerts.Desk, f: Alerts.Desk) {
    && |d.alerts| <= |f.alerts| && |d.deliveries| <= |f.deliveries|
    && forall m :: |d.deliveries| <= m < |f.deliveries| ==> f.deliveries[m].alert < |f.alerts|
  }

  lemma {:induction false} CutInOrder(d: Alerts.Desk, world: World, tenant: string, event: GeofenceEvent, rules: seq<Rule>, now: Time, n: nat)
    ensures var p, f := Alerts.EmitUpTo(d, world.channels, tenant, event, rules, now, n),
                        Alerts.EmitFold(d, world.channels, tenant, event, rules, now);
            StopsAfter(d, p, f, n) && GrownFrom(d, p) && GrownFrom(d, f)
  {
    if rules == [] {
    } else {
      var init := rules[..|rules| - 1];
      var p, f := Alerts.EmitUpTo(d, world.channels, tenant, event, init, now, n),
                  Alerts.EmitFold(d, world.channels, tenant, event, init, now);
      CutInOrder(d, world, tenant, event, init, now, n);
      Alerts.CutShort(d, world.channels, tenant, event, init, now, n);
      StopsStep(d, p, f, world, tenant, event, rules[|rules| - 1], now, n);
    }
  }

  /** The fan-out of some events, up to the raise when there is one: the events before it in full, and the
      first rows of the event that raises. */
  ghost predicate FansOutUpTo(before: Alerts.Desk, after: Alerts.Desk, world: World, tenant: string, events: seq<GeofenceEvent>,
                              now: Time, fault: Option<Fault>)
  {
    if fault.Some? && fault.value.event < |events| then
      exists mid: Alerts.Desk, full: Alerts.Desk ::
        && FansOut(before, mid, world, tenant, events[..fault.value.event], now)
        && FansOut(mid, full, world, tenant, [events[fault.value.event]], now)
        && StopsAfter(mid, after, full, fault.value.rows)
    else FansOut(before, after, world, tenant, events, now)
  }

  lemma EventsFanOutUpTo(before: Alerts.Desk, world: World, tenant: string, events: seq<GeofenceEvent>, now: Time, fault: Option<Fault>)
    ensures FansOutUpTo(before, EmitSome(before, world, tenant, events, now, fault), world, tenant, events, now, fault)
  {
    if fault.Some? && fault.value.event < |events| {
      var j := fault.value.event;
      var mid := EmitEvents(before, world, tenant, events[..j], now);
      var full := EmitEvents(mid, world, tenant, [events[j]], now);
      EventsFanOut(before, world, tenant, events[..j], now);
      EventsFanOut(mid, world, tenant, [events[j]], now);
      assert [events[j]][..0] == [] && EmitEvents(mid, world, tenant, [], now) == mid;
      CutInOrder(mid, world, tenant, events[j], world.rules, now, fault.value.rows);
    } else {
      EventsFanOut(before, world, tenant, events, now);
    }
  }

  // ---------------------------------------------------------------- a whole batch

  function DeskOf(db: Db): Alerts.Desk { Alerts.Desk(db.alerts, db.deliveries) }

  function Added(before: Db, after: Db): seq<OutboxMessage> {
    if |before.outbox| <= |after.outbox| then after.outbox[|before.outbox|..] else []
  }

  ghost predicate Extends(before: Db, after: Db) {
    |before.outbox| <= |after.outbox| && after.outbox[..|before.outbox|] == before.outbox
  }

  /** The message of each event, in order. */
  function Notices(tenant: string, events: seq<GeofenceEvent>): seq<OutboxMessage> {
    seq(|events|, i requires 0 <= i < |events| => OutboxMessage(tenant, Geofence(events[i]), 0, None))
  }

  function RetryOf(tenant: string, events: seq<GeofenceEvent>, fault: Option<Fault>): seq<OutboxMessage> {
    if fault.Some? && fault.value.event < |events| && fault.value.retried then [OutboxMessage(tenant, AlertRetry(events), 0, None)]
    else []
  }

  function FindingsOf(tenant: string, findings: seq<string>): seq<OutboxMessage> {
    seq(|findings|, i requires 0 <= i < |findings| => OutboxMessage(tenant, Correlation(findings[i]), 0, None))
  }

  /** Every event is of this entity at this time. */
  ghost predicate OfEntity(events: seq<GeofenceEvent>, tenant: string, o: Observation) {
    forall i :: 0 <= i < |events| ==>
      && events[i].key.tenant == tenant && events[i].key.entity == o.entityId && events[i].occurredAt == o.observedAt
      && Some(events[i].position) == o.position && events[i].entityType == None
  }

  lemma {:induction false} EnterFoldOfEntity(p: Geofencing.Progress, s: Geofencing.Sighting, ids: seq<nat>, o: Observation)
    requires s.entity == o.entityId && s.at == o.observedAt && Some(s.position) == o.position && s.entityType == None
    requires OfEntity(p.events, s.tenant, o)
    ensures OfEntity(Geofencing.EnterFold(p, s, ids).events, s.tenant, o)
  {
    if ids == [] {
    } else {
      EnterFoldOfEntity(p, s, ids[..|ids| - 1], o);
    }
  }

  lemma {:induction false} ExitFoldOfEntity(p: Geofencing.Progress, s: Geofencing.Sighting, keys: seq<StateKey>, o: Observation)
    requires s.entity == o.entityId && s.at == o.observedAt && Some(s.position) == o.position && s.entityType == None
    requires OfEntity(p.events, s.tenant, o) && forall k :: k in keys ==> s.Concerns(k)
    ensures OfEntity(Geofencing.ExitFold(p, s, keys).events, s.tenant, o)
  {
    if keys == [] {
    } else {
      ExitFoldOfEntity(p, s, keys[..|keys| - 1], o);
      assert s.Concerns(keys[|keys| - 1]);
    }
  }

  lemma {:induction false} ConcerningOnly(order: seq<StateKey>, s: Geofencing.Sighting)
    ensures forall k :: k in Geofencing.Concerning(order, s.tenant, s.entity) ==> s.Concerns(k)
  {
    if order == [] {
    } else {
      ConcerningOnly(order[..|order| - 1], s);
    }
  }

  lemma {:induction false} MessagesAreNotices(tenant: string, events: seq<GeofenceEvent>)
    requires forall i :: 0 <= i < |events| ==> events[i].key.tenant == tenant
    ensures GeofenceHistory.Messages(events) == Notices(tenant, events)
  {
    if events == [] {
    } else {
      MessagesAreNotices(tenant, events[..|events| - 1]);
      assert Notices(tenant, events) == Notices(tenant, events[..|events| - 1]) + [NewMessage(tenant, Geofence(events[|events| - 1]))];
    }
  }

  lemma {:induction false} FindingsAre(tenant: string, findings: seq<string>)
    ensures Findings(tenant, findings) == FindingsOf(tenant, findings)
  {
    if findings == [] {
    } else {
      FindingsAre(tenant, findings[..|findings| - 1]);
      assert FindingsOf(tenant, findings)
             == FindingsOf(tenant, findings[..|findings| - 1]) + [NewMessage(tenant, Correlation(findings[|findings| - 1]))];
    }
  }

  /** What one fresh, positioned observation adds about geofences. */
  lemma EvaluateRound(db: Db, env: Env, o: Observation, fault: Option<Fault>) returns (events: seq<GeofenceEvent>)
    requires o.position.Some?
    ensures var after := Ingestion.Evaluate(db, env, o, o.position.value, fault);
            && OfEntity(events, env.tenant, o)
            && after.outbox == db.outbox + Notices(env.tenant, events) + RetryOf(env.tenant, events, fault)
            && DeskOf(after) == EmitSome(DeskOf(db), env.world, env.tenant, events, env.now, fault)
  {
    var s := Geofencing.SightingOf(env.world, env.tenant, o.entityId, o.position.value, o.observedAt, None, env.now);
    var p := Geofencing.Progress(db.states, db.stateOrder, db.outbox, []);
    events := Geofencing.Evaluate(p, s).events;
    ConcerningOnly(p.order, s);
    EnterFoldOfEntity(p, s, s.ids, o);
    ExitFoldOfEntity(Geofencing.EnterFold(p, s, s.ids), s, Geofencing.Concerning(p.order, s.tenant, s.entity), o);
    GeofenceHistory.EvaluateAnnounced(db.outbox, p, s);
    MessagesAreNotices(env.tenant, events);
  }

  /** What the observation adds to the outbox. */
  function GainOf(env: Env, o: Observation, fault: Option<Fault>, events: seq<GeofenceEvent>): seq<OutboxMessage> {
    Notices(env.tenant, events) + RetryOf(env.tenant, events, fault) + FindingsOf(env.tenant, env.world.detect(o))
  }

  lemma GainTells(env: Env, o: Observation, fault: Option<Fault>, events: seq<GeofenceEvent>)
    ensures Told(GainOf(env, o, fault, events)) == events
  {
    var notices, retry, findings := Notices(env.tenant, events), RetryOf(env.tenant, events, fault),
                                    FindingsOf(env.tenant, env.world.detect(o));
    ToldAppend(notices, retry);
    ToldAppend(notices + retry, findings);
    ToldNotices(env.tenant, events);
    ToldRetry(env.tenant, events, fault);
    FindingsAre(env.tenant, env.world.detect(o));
    ToldFindings(env.tenant, env.world.detect(o));
  }

  lemma DeriveRound(db: Db, env: Env, o: Observation, fault: Option<Fault>) returns (events: seq<GeofenceEvent>)
    ensures OfEntity(events, env.tenant, o)
    ensures Derive(db, env, o, fault).outbox == db.outbox + GainOf(env, o, fault, events)
    ensures DeskOf(Derive(db, env, o, fault)) == EmitSome(DeskOf(db), env.world, env.tenant, events, env.now, fault)
  {
    events := [];
    if o.position.Some? {
      events := EvaluateRound(db, env, o, fault);
    }
    FindingsAre(env.tenant, env.world.detect(o));
  }

  /** The events told between two states of the outbox. */
  function ToldBetween(before: Db, after: Db): seq<GeofenceEvent> { Told(Added(before, after)) }

  /**
   One observation.  Stored already, it adds no message and no alert.  Otherwise it adds the messages of
   its events, the retry of an emission that raises, and one message per finding; and its alerts and
   deliveries are those of its events.
   */
  ghost predicate Round(before: Db, after: Db, env: Env, o: Observation, fault: Option<Fault>) {
    var events := ToldBetween(before, after);
    && Extends(before, after) && OfEntity(events, env.tenant, o)
    && (if ObservationKey(env.tenant, o.sourceId, o.entityId, o.observedAt) in before.observations then Added(before, after) == []
        else Added(before, after) == GainOf(env, o, fault, events))
    && FansOutUpTo(DeskOf(before), DeskOf(after), env.world, env.tenant, events, env.now, fault)
  }

  lemma StepEmits(t: Tally, env: Env, o: Observation)
    ensures var after, fault := Step(t, env, o).db, Lookup(env.faults, t.seen);
            var events := ToldBetween(t.db, after);
            && Extends(t.db, after) && OfEntity(events, env.tenant, o)
            && Added(t.db, after) == (if Key(env, o) in t.db.observations then [] else GainOf(env, o, fault, events))
            && DeskOf(after) == EmitSome(DeskOf(t.db), env.world, env.tenant, events, env.now, fault)
  {
    var recorded, fault := Recorded(t.db, env, o), Lookup(env.faults, t.seen);
    if Key(env, o) !in t.db.observations {
      var events := DeriveRound(recorded, env, o, fault);
      assert Added(t.db, Step(t, env, o).db) == GainOf(env, o, fault, events);
      GainTells(env, o, fault, events);
    }
  }

  lemma StepRound(t: Tally, env: Env, o: Observation)
    ensures Round(t.db, Step(t, env, o).db, env, o, Lookup(env.faults, t.seen))
  {
    StepEmits(t, env, o);
    EventsFanOutUpTo(DeskOf(t.db), env.world, env.tenant, ToldBetween(t.db, Step(t, env, o).db), env.now, Lookup(env.faults, t.seen));
  }

  lemma {:induction false} ToldNotices(tenant: string, events: seq<GeofenceEvent>)
    ensures Told(Notices(tenant, events)) == events
  {
    if events == [] {
    } else {
      var init, last := events[..|events| - 1], events[|events| - 1];
      ToldNotices(tenant, init);
      assert Notices(tenant, events)[..|events| - 1] == Notices(tenant, init);
    }
  }

  lemma {:induction false} FoldSeen(t: Tally, env: Env, batch: seq<Observation>)
    ensures Fold(t, env, batch).seen == t.seen + |batch|
  {
    if batch == [] {
    } else {
      FoldSeen(t, env, batch[..|batch| - 1]);
    }
  }

  /** The database before each observation of a batch, and after the last. */
  ghost function States(t: Tally, env: Env, batch: seq<Observation>): (dbs: seq<Db>)
    ensures |dbs| == |batch| + 1
  {
    seq(|batch| + 1, i requires 0 <= i <= |batch| => Fold(t, env, batch[..i]).db)
  }

  /** The events of the rounds, one after the other. */
  ghost function ToldThrough(dbs: seq<Db>): seq<GeofenceEvent>
    requires dbs != []
  {
    if |dbs| == 1 then [] else ToldThrough(dbs[..|dbs| - 1]) + ToldBetween(dbs[|dbs| - 2], dbs[|dbs| - 1])
  }

  lemma Joined(a: Db, b: Db, c: Db)
    requires Extends(a, b) && Extends(b, c)
    ensures Extends(a, c) && ToldBetween(a, c) == ToldBetween(a, b) + ToldBetween(b, c)
  {
    assert c.outbox[..|a.outbox|] == c.outbox[..|b.outbox|][..|a.outbox|];
    assert Added(a, c) == Added(a, b) + Added(b, c);
    ToldAppend(Added(a, b), Added(b, c));
  }

  lemma {:induction false} ToldSum(dbs: seq<Db>)
    requires dbs != [] && forall i :: 0 <= i < |dbs| - 1 ==> Extends(dbs[i], dbs[i + 1])
    ensures Extends(dbs[0], dbs[|dbs| - 1]) && ToldBetween(dbs[0], dbs[|dbs| - 1]) == ToldThrough(dbs)
  {
    var n := |dbs| - 1;
    if n == 0 {
      assert Added(dbs[0], dbs[0]) == [];
    } else {
      ToldSum(dbs[..n]);
      assert Extends(dbs[n - 1], dbs[n - 1 + 1]);
      Joined(dbs[0], dbs[n - 1], dbs[n]);
    }
  }

  lemma FinishTells(t: Tally, env: Env)
    ensures Extends(t.db, Finish(t, env)) && DeskOf(Finish(t, env)) == DeskOf(t.db)
    ensures ToldBetween(t.db, Finish(t, env)) == []
  {
    var notice, rows := NewMessage(env.tenant, Completed(env.source, t.inserted, env.jobType)),
                        NewMessage(env.tenant, Analytics(env.tenant, t.rows));
    ToldOne(notice);
    ToldOne(rows);
    ToldAppend([notice], [rows]);
    assert Added(t.db, Finish(t, env)) == [notice] || Added(t.db, Finish(t, env)) == [notice] + [rows];
  }

  lemma StateRound(db: Db, env: Env, batch: seq<Observation>, i: nat)
    requires i < |batch|
    ensures var dbs := States(Tally(db, 0, 0, []), env, batch);
            Extends(dbs[i], dbs[i + 1]) && Round(dbs[i], dbs[i + 1], env, batch[i], Lookup(env.faults, i))
  {
    var t := Tally(db, 0, 0, []);
    FoldSeen(t, env, batch[..i]);
    assert batch[..i + 1][..i] == batch[..i];
    StepRound(Fold(t, env, batch[..i]), env, batch[i]);
  }

  lemma ExecuteTells(db: Db, env: Env, batch: seq<Observation>)
    ensures var dbs := States(Tally(db, 0, 0, []), env, batch);
            && DeskOf(dbs[|batch|]) == DeskOf(Execute(db, env, batch))
            && ToldBetween(db, Execute(db, env, batch)) == ToldThrough(dbs)
  {
    var f, dbs := Fold(Tally(db, 0, 0, []), env, batch), States(Tally(db, 0, 0, []), env, batch);
    assert batch[..|batch|] == batch && batch[..0] == [];
    forall i | 0 <= i < |dbs| - 1
      ensures Extends(dbs[i], dbs[i + 1])
    {
      StateRound(db, env, batch, i);
    }
    ToldSum(dbs);
    FinishTells(f, env);
    Joined(db, f.db, Execute(db, env, batch));
    assert ToldThrough(dbs) + [] == ToldThrough(dbs);
  }

  /**
   A whole execution is one round per observation of the batch, raising emissions included, and the
   geofence messages it adds are the events of those rounds, each once and in order.
   */
  lemma ExecuteRounds(db: Db, env: Env, batch: seq<Observation>) returns (dbs: seq<Db>)
    ensures |dbs| == |batch| + 1 && dbs[0] == db && DeskOf(dbs[|batch|]) == DeskOf(Execute(db, env, batch))
    ensures forall i :: 0 <= i < |batch| ==> Round(dbs[i], dbs[i + 1], env, batch[i], Lookup(env.faults, i))
    ensures ToldBetween(db, Execute(db, env, batch)) == ToldThrough(dbs)
  {
    dbs := States(Tally(db, 0, 0, []), env, batch);
    assert batch[..0] == [];
    ExecuteTells(db, env, batch);
    forall i | 0 <= i < |batch|
      ensures Round(dbs[i], dbs[i + 1], env, batch[i], Lookup(env.faults, i))
    {
      StateRound(db, env, batch, i);
    }
  }

  // ---------------------------------------------------------------- batches no emission of which raises

  lemma {:induction false} EmitEventsJoin(d: Alerts.Desk, world: World, tenant: string, a: seq<GeofenceEvent>, b: seq<GeofenceEvent>,
                                          now: Time)
    ensures EmitEvents(d, world, tenant, a + b, now) == EmitEvents(EmitEvents(d, world, tenant, a, now), world, tenant, b, now)
  {
    if b == [] {
      assert a + b == a;
    } else {
      EmitEventsJoin(d, world, tenant, a, b[..|b| - 1], now);
      assert (a + b)[..|a + b| - 1] == a + b[..|b| - 1];
    }
  }

  ghost predicate Quiet(t: Tally, env: Env, n: nat) {
    forall i :: t.seen <= i < t.seen + n ==> i !in env.faults
  }

  lemma {:induction false} FoldEmits(t: Tally, env: Env, batch: seq<Observation>)
    requires Quiet(t, env, |batch|)
    ensures var after := Fold(t, env, batch).db;
            && Extends(t.db, after)
            && DeskOf(after) == EmitEvents(DeskOf(t.db), env.world, env.tenant, ToldBetween(t.db, after), env.now)
  {
    if batch == [] {
      assert Added(t.db, t.db) == [];
    } else {
      var init, o := batch[..|batch| - 1], batch[|batch| - 1];
      var f := Fold(t, env, init);
      FoldEmits(t, env, init);
      FoldSeen(t, env, init);
      StepEmits(f, env, o);
      Joined(t.db, f.db, Step(f, env, o).db);
      EmitEventsJoin(DeskOf(t.db), env.world, env.tenant, ToldBetween(t.db, f.db), ToldBetween(f.db, Step(f, env, o).db), env.now);
    }
  }

  /**
   When no emission of the batch raises, the alerts and deliveries an execution adds are the fan-out of
   exactly the geofence messages it adds to the outbox.
   */
  lemma ExecuteFansOut(db: Db, env: Env, batch: seq<Observation>)
    requires forall i :: 0 <= i < |batch| ==> i !in env.faults
    ensures FansOut(DeskOf(db), DeskOf(Execute(db, env, batch)), env.world, env.tenant, ToldBetween(db, Execute(db, env, batch)), env.now)
  {
    var t := Tally(db, 0, 0, []);
    var f := Fold(t, env, batch);
    FoldEmits(t, env, batch);
    FinishTells(f, env);
    Joined(db, f.db, Execute(db, env, batch));
    assert ToldBetween(db, f.db) + [] == ToldBetween(db, f.db);
    EventsFanOut(DeskOf(db), env.world, env.tenant, ToldBetween(db, f.db), env.now);
  }

  // ---------------------------------------------------------------- totals

  function FiringTotal(rules: seq<Rule>, tenant: string, events: seq<GeofenceEvent>, now: Time): nat {
    if events == [] then 0
    else FiringTotal(rules, tenant, events[..|events| - 1], now) + |Alerts.Firing(rules, tenant, events[|events| - 1], now)|
  }

  function UsableTotal(world: World, tenant: string, events: seq<GeofenceEvent>, now: Time): nat {
    if events == [] then 0
    else
      UsableTotal(world, tenant, events[..|events| - 1], now)
      + Alerts.TotalUsable(Alerts.Firing(world.rules, tenant, events[|events| - 1], now), world.channels, tenant)
  }

  /** The totals over some events are the sums of those of the single events. */
  lemma {:induction false} EventsTotal(d: Alerts.Desk, world: World, tenant: string, events: seq<GeofenceEvent>, now: Time)
    requires Alerts.Linked(d)
    ensures var q := EmitEvents(d, world, tenant, events, now);
            && Alerts.Linked(q)
            && |q.alerts| == |d.alerts| + FiringTotal(world.rules, tenant, events, now)
            && |q.deliveries| == |d.deliveries| + UsableTotal(world, tenant, events, now)
  {
    if events == [] {
    } else {
      var init := events[..|events| - 1];
      EventsTotal(d, world, tenant, init, now);
      Alerts.FanOutConserves(EmitEvents(d, world, tenant, init, now), world.channels, tenant, events[|events| - 1], world.rules, now);
    }
  }
}
