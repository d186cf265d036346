/** The fixed-window rate limiter: one counter per key and window, incremented in Redis, expiring by itself. */
module RateLimit {
  import opened Arithmetic
  import opened Wrappers

  /** Milliseconds since 1970-01-01 UTC. */
  type Millis = int

  datatype Bucket = Bucket(key: string, window: int)

  datatype Counter = Counter(count: nat, expiresAt: Option<Millis>)

  type Counters = map<Bucket, Counter>

  /** What Redis does for a request: answers, is unreachable, counts but the reply is lost, or counts
      and then raises on the expiry. */
  datatype Reply = Answered | Down | ReplyLost | ExpireRaised

  /** A request reads the clock at `at` and reaches Redis at `arrives`. */
  datatype Request = Request(key: string, at: Millis, arrives: Millis, reply: Reply)

  datatype Config = Config(limit: int, window: int, failOpen: bool)

  function WindowOf(cfg: Config, at: Millis): int
    requires cfg.window > 0
  {
    at / 1000 / cfg.window
  }

  function BucketOf(cfg: Config, r: Request): Bucket
    requires cfg.window > 0
  {
    Bucket(r.key, WindowOf(cfg, r.at))
  }

  // ---------------------------------------------------------------- one request

  /** A counter still there; an expired key is as if absent. */
  function Live(counters: Counters, b: Bucket, now: Millis): Option<Counter> {
    if b in counters && (counters[b].expiresAt.None? || now < counters[b].expiresAt.value) then Some(counters[b]) else None
  }

  function Incremented(counters: Counters, b: Bucket, now: Millis): Counter {
    match Live(counters, b, now)
    case None => Counter(1, None)
    case Some(c) => c.(count := c.count + 1)
  }

  function Counts(reply: Reply): bool { reply != Down }

  function After(cfg: Config, counters: Counters, r: Request): Counters
    requires cfg.window > 0
  {
    var b := BucketOf(cfg, r);
    var c := Incremented(counters, b, r.arrives);
    match r.reply
    case Down => counters
    case Answered => counters[b := if c.count == 1 then c.(expiresAt := Some(r.arrives + (cfg.window + 1) * 1000)) else c]
    case ReplyLost => counters[b := c]
    case ExpireRaised => counters[b := c]
  }

  /** The answer: an expiry that is not set cannot raise, so `ExpireRaised` is an answer from the second count on. */
  function Allows(cfg: Config, counters: Counters, r: Request): bool
    requires cfg.window > 0
  {
    var count := Incremented(counters, BucketOf(cfg, r), r.arrives).count;
    if r.reply == Answered || (r.reply == ExpireRaised && count != 1) then count <= cfg.limit else cfg.failOpen
  }

  class RateLimiter {
    const config: Config
    var counters: Counters

    constructor (config: Config)
      ensures this.config == config && counters == map[]
    {
      this.config := config;
      counters := map[];
    }

    /** `check_rate_limit`. */
    method Check(r: Request) returns (allowed: bool)
      requires config.window > 0
      modifies this
      ensures counters == After(config, old(counters), r)
      ensures allowed == Allows(config, old(counters), r)
    {
      if r.reply == Down {
        return config.failOpen;
      }
      var bucket := BucketOf(config, r);
      if bucket in counters && counters[bucket].expiresAt.Some? && counters[bucket].expiresAt.value <= r.arrives {
        counters := map b | b in counters && b != bucket :: counters[b];
      }
      var count := 1;
      if bucket in counters {
        count := counters[bucket].count + 1;
        counters := counters[bucket := counters[bucket].(count := count)];
      } else {
        counters := counters[bucket := Counter(1, None)];
      }
      if r.reply == ReplyLost {
        return config.failOpen;
      }
      if count == 1 {
        if r.reply == ExpireRaised {
          return config.failOpen;
        }
        counters := counters[bucket := counters[bucket].(expiresAt := Some(r.arrives + (config.window + 1) * 1000))];
      }
      allowed := count <= config.limit;
    }
  }

  // ---------------------------------------------------------------- runs

  datatype Entry = Entry(request: Request, allowed: bool)

  datatype Trace = Trace(counters: Counters, log: seq<Entry>)

  function Run(cfg: Config, requests: seq<Request>): Trace
    requires cfg.window > 0
  {
    if requests == [] then Trace(map[], [])
    else
      var t, r := Run(cfg, requests[..|requests| - 1]), requests[|requests| - 1];
      Trace(After(cfg, t.counters, r), t.log + [Entry(r, Allows(cfg, t.counters, r))])
  }

  /** The request reaches Redis no later than a second after its window has ended. */
  predicate Timely(cfg: Config, r: Request)
    requires cfg.window > 0
  {
    r.at <= r.arrives < (WindowOf(cfg, r.at) * cfg.window + cfg.window + 1) * 1000
  }

  ghost predicate AllTimely(cfg: Config, requests: seq<Request>)
    requires cfg.window > 0
  {
    forall i :: 0 <= i < |requests| ==> Timely(cfg, requests[i])
  }

  function Applied(cfg: Config, log: seq<Entry>, b: Bucket): nat
    requires cfg.window > 0
  {
    if log == [] then 0
    else
      var e := log[|log| - 1];
      Applied(cfg, log[..|log| - 1], b) + if BucketOf(cfg, e.request) == b && Counts(e.request.reply) then 1 else 0
  }

  function Requested(cfg: Config, log: seq<Entry>, b: Bucket): nat
    requires cfg.window > 0
  {
    if log == [] then 0
    else Requested(cfg, log[..|log| - 1], b) + if BucketOf(cfg, log[|log| - 1].request) == b then 1 else 0
  }

  function Admitted(cfg: Config, log: seq<Entry>, b: Bucket): nat
    requires cfg.window > 0
  {
    if log == [] then 0
    else
      var e := log[|log| - 1];
      Admitted(cfg, log[..|log| - 1], b) + if BucketOf(cfg, e.request) == b && e.allowed then 1 else 0
  }

  /** Every counter holds the requests counted in its window, and outlives the window by a second. */
  ghost predicate Faithful(cfg: Config, t: Trace)
    requires cfg.window > 0
  {
    && (forall b :: b in t.counters <==> Applied(cfg, t.log, b) > 0)
    && (forall b :: b in t.counters ==> t.counters[b].count == Applied(cfg, t.log, b))
    && (forall b :: b in t.counters && t.counters[b].expiresAt.Some? ==>
          t.counters[b].expiresAt.value >= (b.window * cfg.window + cfg.window + 1) * 1000)
  }

  lemma WindowStart(cfg: Config, at: Millis)
    requires cfg.window > 0
    ensures WindowOf(cfg, at) * cfg.window * 1000 <= at
  {
    var s := at / 1000;
    assert s / cfg.window * cfg.window <= s;
  }

  lemma LogExtends(cfg: Config, log: seq<Entry>, e: Entry, b: Bucket)
    requires cfg.window > 0
    ensures Applied(cfg, log + [e], b)
            == Applied(cfg, log, b) + if BucketOf(cfg, e.request) == b && Counts(e.request.reply) then 1 else 0
    ensures Requested(cfg, log + [e], b) == Requested(cfg, log, b) + if BucketOf(cfg, e.request) == b then 1 else 0
    ensures Admitted(cfg, log + [e], b)
            == Admitted(cfg, log, b) + if BucketOf(cfg, e.request) == b && e.allowed then 1 else 0
  {
    assert (log + [e])[..|log|] == log;
  }

  /** A timely request finds the true count: the expiry never resets a window that can still be asked about. */
  lemma TimelyCount(cfg: Config, t: Trace, r: Request)
    requires cfg.window > 0 && Faithful(cfg, t) && Timely(cfg, r)
    ensures Incremented(t.counters, BucketOf(cfg, r), r.arrives).count == Applied(cfg, t.log, BucketOf(cfg, r)) + 1
  {
    assert BucketOf(cfg, r).window == WindowOf(cfg, r.at);
  }

  /**
   The answer to a timely request, from the requests of its window counted so far: admitted up to the limit
   when Redis answers; and when it is down, loses its reply, or raises setting the expiry of a new counter,
   admitted exactly when the limiter fails open.
   */
  lemma AnsweredExactly(cfg: Config, requests: seq<Request>, r: Request)
    requires cfg.window > 0 && AllTimely(cfg, requests + [r])
    ensures var t, u := Run(cfg, requests), Run(cfg, requests + [r]);
            var n := Applied(cfg, t.log, Bucket(r.key, r.at / 1000 / cfg.window));
            && |u.log| == |t.log| + 1 && u.log[..|t.log|] == t.log && u.log[|t.log|].request == r
            && (u.log[|t.log|].allowed <==>
                  if r.reply == Answered || (r.reply == ExpireRaised && n > 0) then n < cfg.limit else cfg.failOpen)
  {
    assert (requests + [r])[..|requests|] == requests && (requests + [r])[|requests|] == r;
    assert forall i :: 0 <= i < |requests| ==> (requests + [r])[i] == requests[i];
    RunFaithful(cfg, requests);
    TimelyCount(cfg, Run(cfg, requests), r);
  }

  lemma StepFaithful(cfg: Config, t: Trace, r: Request)
    requires cfg.window > 0 && Faithful(cfg, t) && Timely(cfg, r)
    ensures Faithful(cfg, Trace(After(cfg, t.counters, r), t.log + [Entry(r, Allows(cfg, t.counters, r))]))
  {
    var e := Entry(r, Allows(cfg, t.counters, r));
    TimelyCount(cfg, t, r);
    WindowStart(cfg, r.at);
    forall b: Bucket
      ensures Applied(cfg, t.log + [e], b) == Applied(cfg, t.log, b) + if BucketOf(cfg, r) == b && Counts(r.reply) then 1 else 0
    {
      LogExtends(cfg, t.log, e, b);
    }
  }

  lemma {:induction false} RunFaithful(cfg: Config, requests: seq<Request>)
    requires cfg.window > 0 && AllTimely(cfg, requests)
    ensures Faithful(cfg, Run(cfg, requests))
  {
    if requests == [] {
    } else {
      RunFaithful(cfg, requests[..|requests| - 1]);
      StepFaithful(cfg, Run(cfg, requests[..|requests| - 1]), requests[|requests| - 1]);
    }
  }

  function Quota(cfg: Config, n: nat): nat {
    if cfg.limit <= 0 then 0 else if n <= cfg.limit then n else cfg.limit
  }

  ghost predicate Answers(cfg: Config, requests: seq<Request>, b: Bucket)
    requires cfg.window > 0
  {
    forall i :: 0 <= i < |requests| && BucketOf(cfg, requests[i]) == b ==> requests[i].reply == Answered
  }

  /** Failing closed, an aligned window never admits more than `limit`, whatever Redis does. */
  lemma {:induction false} WindowBound(cfg: Config, requests: seq<Request>, b: Bucket)
    requires cfg.window > 0 && AllTimely(cfg, requests) && !cfg.failOpen
    ensures Admitted(cfg, Run(cfg, requests).log, b) <= Quota(cfg, Applied(cfg, Run(cfg, requests).log, b))
  {
    if requests == [] {
    } else {
      var init, r := requests[..|requests| - 1], requests[|requests| - 1];
      var t := Run(cfg, init);
      WindowBound(cfg, init, b);
      RunFaithful(cfg, init);
      TimelyCount(cfg, t, r);
      LogExtends(cfg, t.log, Entry(r, Allows(cfg, t.counters, r)), b);
    }
  }

  /** An aligned window whose requests Redis all answers admits exactly the first `limit` of them. */
  lemma {:induction false} WindowQuota(cfg: Config, requests: seq<Request>, b: Bucket)
    requires cfg.window > 0 && AllTimely(cfg, requests) && Answers(cfg, requests, b)
    ensures var log := Run(cfg, requests).log;
            Admitted(cfg, log, b) == Quota(cfg, Requested(cfg, log, b)) && Applied(cfg, log, b) == Requested(cfg, log, b)
  {
    if requests == [] {
    } else {
      var init, r := requests[..|requests| - 1], requests[|requests| - 1];
      var t := Run(cfg, init);
      assert Answers(cfg, init, b) by {
        assert forall i :: 0 <= i < |init| ==> init[i] == requests[i];
      }
      WindowQuota(cfg, init, b);
      RunFaithful(cfg, init);
      TimelyCount(cfg, t, r);
      LogExtends(cfg, t.log, Entry(r, Allows(cfg, t.counters, r)), b);
    }
  }

  // ---------------------------------------------------------------- any interval of window length

  function AdmittedWithin(log: seq<Entry>, key: string, from: Millis, to: Millis): nat {
    if log == [] then 0
    else
      var e := log[|log| - 1];
      AdmittedWithin(log[..|log| - 1], key, from, to)
      + if e.allowed && e.request.key == key && from <= e.request.at < to then 1 else 0
  }

  lemma WindowsMet(cfg: Config, from: Millis, at: Millis)
    requires cfg.window > 0 && from <= at < from + cfg.window * 1000
    ensures WindowOf(cfg, from) <= WindowOf(cfg, at) <= WindowOf(cfg, from) + 1
  {
    var s, t, w := from / 1000, at / 1000, cfg.window;
    assert s <= t <= s + w;
    var q := s / w;
    assert q * w <= s < q * w + w;
    assert q * w <= t < (q + 2) * w;
    DivBetween(t, w, q);
  }

  lemma DivBetween(t: int, w: int, q: int)
    requires w > 0 && q * w <= t < (q + 2) * w
    ensures q <= t / w <= q + 1
  {
    MulStep(t / w, q, w);
    MulStep(q + 1, t / w, w);
  }

  lemma {:induction false} TwoWindows(cfg: Config, log: seq<Entry>, key: string, from: Millis)
    requires cfg.window > 0
    ensures AdmittedWithin(log, key, from, from + cfg.window * 1000)
            <= Admitted(cfg, log, Bucket(key, WindowOf(cfg, from))) + Admitted(cfg, log, Bucket(key, WindowOf(cfg, from) + 1))
  {
    if log == [] {
    } else {
      TwoWindows(cfg, log[..|log| - 1], key, from);
      var r := log[|log| - 1].request;
      if from <= r.at < from + cfg.window * 1000 {
        WindowsMet(cfg, from, r.at);
      }
    }
  }

  /** When failing closed, or when Redis answers in the two windows concerned, no interval of window length,
      aligned or not, admits more than twice the limit. */
  lemma SlidingBound(cfg: Config, requests: seq<Request>, key: string, from: Millis)
    requires cfg.window > 0 && AllTimely(cfg, requests)
    requires !cfg.failOpen || (&& Answers(cfg, requests, Bucket(key, WindowOf(cfg, from)))
                               && Answers(cfg, requests, Bucket(key, WindowOf(cfg, from) + 1)))
    ensures AdmittedWithin(Run(cfg, requests).log, key, from, from + cfg.window * 1000)
            <= 2 * if cfg.limit > 0 then cfg.limit else 0
  {
    var w := WindowOf(cfg, from);
    TwoWindows(cfg, Run(cfg, requests).log, key, from);
    if cfg.failOpen {
      WindowQuota(cfg, requests, Bucket(key, w));
      WindowQuota(cfg, requests, Bucket(key, w + 1));
    } else {
      WindowBound(cfg, requests, Bucket(key, w));
      WindowBound(cfg, requests, Bucket(key, w + 1));
    }
  }

  // ---------------------------------------------------------------- when the expiry resets a window

  /** When the counter set by the first request of a window expires; any time at all without one. */
  function Expiry(cfg: Config, requests: seq<Request>, b: Bucket): Option<Millis>
    requires cfg.window > 0
  {
    if requests == [] then None
    else
      var before := Expiry(cfg, requests[..|requests| - 1], b);
      if before.Some? || BucketOf(cfg, requests[|requests| - 1]) != b then before
      else Some(requests[|requests| - 1].arrives + (cfg.window + 1) * 1000)
  }

  /** Every request of the window is counted on top of all those before it. */
  predicate SeesAll(cfg: Config, requests: seq<Request>, b: Bucket)
    requires cfg.window > 0
  {
    requests == []
    || (var init, r := requests[..|requests| - 1], requests[|requests| - 1];
        && SeesAll(cfg, init, b)
        && (BucketOf(cfg, r) == b ==>
              Incremented(Run(cfg, init).counters, b, r.arrives).count == Applied(cfg, Run(cfg, init).log, b) + 1))
  }

  /** No request of the window arrives at or after the expiry its first request set. */
  predicate BeforeExpiry(cfg: Config, requests: seq<Request>, b: Bucket)
    requires cfg.window > 0
  {
    requests == []
    || (var init, r := requests[..|requests| - 1], requests[|requests| - 1];
        && BeforeExpiry(cfg, init, b)
        && (BucketOf(cfg, r) == b && Expiry(cfg, init, b).Some? ==> r.arrives < Expiry(cfg, init, b).value))
  }

  /** The window's counter after `n` requests in time, the first of which set `expiry`. */
  predicate Counting(counters: Counters, b: Bucket, n: nat, expiry: Option<Millis>) {
    && (b in counters <==> n > 0)
    && (n > 0 ==> expiry.Some? && counters[b] == Counter(n, expiry))
    && (n == 0 ==> expiry.None?)
  }

  lemma CountingStep(cfg: Config, counters: Counters, b: Bucket, n: nat, expiry: Option<Millis>, r: Request)
    requires cfg.window > 0 && Counting(counters, b, n, expiry) && (BucketOf(cfg, r) == b ==> r.reply == Answered)
    ensures var late := BucketOf(cfg, r) == b && expiry.Some? && r.arrives >= expiry.value;
            && (BucketOf(cfg, r) == b ==> (Incremented(counters, b, r.arrives).count == n + 1 <==> !late))
            && (!late ==> Counting(After(cfg, counters, r), b, n + if BucketOf(cfg, r) == b then 1 else 0,
                                   if BucketOf(cfg, r) == b && expiry.None? then Some(r.arrives + (cfg.window + 1) * 1000) else expiry))
  {
  }

  /**
   The exact condition, over any run with arrivals in any order: the expiry never resets an answered
   window, so that every request of it sees the true count, if and only if none arrives at or after
   the expiry set by the first.
   */
  lemma {:induction false} ExpiryResets(cfg: Config, requests: seq<Request>, b: Bucket)
    requires cfg.window > 0 && Answers(cfg, requests, b)
    ensures SeesAll(cfg, requests, b) <==> BeforeExpiry(cfg, requests, b)
    ensures BeforeExpiry(cfg, requests, b) ==>
              Counting(Run(cfg, requests).counters, b, Applied(cfg, Run(cfg, requests).log, b), Expiry(cfg, requests, b))
  {
    if requests == [] {
    } else {
      var init, r := requests[..|requests| - 1], requests[|requests| - 1];
      assert Answers(cfg, init, b) by {
        assert forall i :: 0 <= i < |init| ==> init[i] == requests[i];
      }
      ExpiryResets(cfg, init, b);
      var t := Run(cfg, init);
      LogExtends(cfg, t.log, Entry(r, Allows(cfg, t.counters, r)), b);
      if BeforeExpiry(cfg, init, b) {
        CountingStep(cfg, t.counters, b, Applied(cfg, t.log, b), Expiry(cfg, init, b), r);
      }
    }
  }

  /** In time, an answered window admits exactly min(limit, requests), whatever the other windows do. */
  lemma {:induction false} QuotaInTime(cfg: Config, requests: seq<Request>, b: Bucket)
    requires cfg.window > 0 && Answers(cfg, requests, b) && BeforeExpiry(cfg, requests, b)
    ensures var log := Run(cfg, requests).log;
            Admitted(cfg, log, b) == Quota(cfg, Requested(cfg, log, b)) && Applied(cfg, log, b) == Requested(cfg, log, b)
  {
    if requests == [] {
    } else {
      var init, r := requests[..|requests| - 1], requests[|requests| - 1];
      var t := Run(cfg, init);
      assert Answers(cfg, init, b) by {
        assert forall i :: 0 <= i < |init| ==> init[i] == requests[i];
      }
      QuotaInTime(cfg, init, b);
      ExpiryResets(cfg, requests, b);
      LogExtends(cfg, t.log, Entry(r, Allows(cfg, t.counters, r)), b);
    }
  }

  /** And such a late arrival is admitted over the limit: the second of two requests under a limit of one. */
  lemma LateArrival(cfg: Config, first: Request, second: Request)
    requires cfg.window > 0 && cfg.limit == 1 && first.reply == Answered && second.reply == Answered
    requires BucketOf(cfg, first) == BucketOf(cfg, second)
    ensures Admitted(cfg, Run(cfg, [first, second]).log, BucketOf(cfg, first)) == 2
            <==> second.arrives >= first.arrives + (cfg.window + 1) * 1000
  {
    var b := BucketOf(cfg, first);
    assert [first, second][..1] == [first] && [first][..0] == [];
    var t := Run(cfg, [first]);
    assert Run(cfg, [first][..0]) == Trace(map[], []);
    assert t == Trace(After(cfg, map[], first), [] + [Entry(first, Allows(cfg, map[], first))]);
    LogExtends(cfg, [], Entry(first, Allows(cfg, map[], first)), b);
    LogExtends(cfg, t.log, Entry(second, Allows(cfg, t.counters, second)), b);
  }
}
