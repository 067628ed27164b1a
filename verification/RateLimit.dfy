/** Fixed-window rate limiting, over whole request traces. Times are in milliseconds. */
module RateLimit {
  import opened Json
  import opened Cache

  type TenantId = nat

  datatype Request = Request(tenant: Option<TenantId>, time: nat, redis: Fault)

  /** The key that a request counts under; the formatted key is one to one with this pair. */
  type Key = (TenantId, nat)
  type Counters = map<Key, Entry<nat>>

  const MINUTE: nat := 60_000

  /** Unix seconds divided by sixty. */
  function Window(time: nat): nat {
    (time / 1000) / 60
  }

  lemma {:induction false} WindowBounds(time: nat)
    ensures MINUTE * Window(time) <= time < MINUTE * (Window(time) + 1)
    ensures Window(time) == time / MINUTE
  {
  }

  function Max0(n: int): nat {
    if n < 0 then 0 else n
  }

  /** What one request does to the counters, and whether it is let through: always without a tenant and on
      a Redis error, otherwise while the count is within the limit. */
  function Step(limit: int, c: Counters, r: Request): (Counters, bool) {
    if r.tenant.None? then (c, true)
    else
      var key := (r.tenant.value, Window(r.time));
      (Incremented(c, key, r.time, MINUTE, r.redis), r.redis != Ok || CountAt(c, key, r.time) + 1 <= limit)
  }

  /** The middleware around a handler. */
  class RateLimiter {
    const requestsPerMinute: int
    const counter: RedisCache<Key, ()>

    constructor (counter: RedisCache<Key, ()>, requestsPerMinute: int)
      ensures this.counter == counter && this.requestsPerMinute == requestsPerMinute
    {
      this.counter, this.requestsPerMinute := counter, requestsPerMinute;
    }

    method Handle(r: Request) returns (served: bool)
      modifies counter`counters
      ensures (counter.counters, served) == Step(requestsPerMinute, old(counter.counters), r)
    {
      if r.tenant.None? {
        return true;
      }
      var key := (r.tenant.value, Window(r.time));
      var count := counter.RateIncr(r.time, key, MINUTE, r.redis);
      if count.None? {
        return true;
      }
      if count.value > requestsPerMinute {
        return false;
      }
      return true;
    }
  }

  // --- Traces ---

  type Trace = seq<Request>

  predicate Monotone(trace: Trace) {
    forall i, j :: 0 <= i < j < |trace| ==> trace[i].time <= trace[j].time
  }

  function CountersAfter(trace: Trace): Counters {
    if trace == [] then map[]
    else Step(0, CountersAfter(trace[..|trace| - 1]), trace[|trace| - 1]).0
  }

  /** Whether the `i`-th request of a trace is let through. */
  predicate Served(limit: int, trace: Trace, i: nat)
    requires i < |trace|
  {
    Step(limit, CountersAfter(trace[..i]), trace[i]).1
  }

  predicate InWindow(r: Request, tenant: TenantId, w: nat) {
    r.tenant == Some(tenant) && Window(r.time) == w
  }

  /** The requests of a tenant in a window whose increment took effect, seen or not. */
  function Hits(trace: Trace, tenant: TenantId, w: nat): nat {
    if trace == [] then 0
    else
      var r := trace[|trace| - 1];
      Hits(trace[..|trace| - 1], tenant, w) + (if InWindow(r, tenant, w) && r.redis != Before then 1 else 0)
  }

  /** A key never expires inside its own window: until the window is over, its counter holds exactly the
      increments that took effect. */
  lemma {:induction false} CounterExact(trace: Trace, tenant: TenantId, w: nat)
    requires Monotone(trace)
    requires trace != [] ==> Window(trace[|trace| - 1].time) <= w
    ensures var c, key, hits := CountersAfter(trace), (tenant, w), Hits(trace, tenant, w);
      && (key in c <==> hits > 0)
      && (key in c ==> c[key].value == hits && (c[key].expiry.None? || c[key].expiry.value >= MINUTE * (w + 1)))
  {
    if trace != [] {
      var init, r := trace[..|trace| - 1], trace[|trace| - 1];
      WindowBounds(r.time);
      if init != [] {
        var before := init[|init| - 1];
        assert before.time <= r.time;
        WindowBounds(before.time);
        assert Window(before.time) <= Window(r.time);
      }
      CounterExact(init, tenant, w);
      StillAlive(r.time, w);
    }
  }

  lemma {:induction false} StillAlive(time: nat, w: nat)
    requires Window(time) <= w
    ensures time < MINUTE * (w + 1)
  {
    WindowBounds(time);
  }

  /** So a request is let through exactly when it has no tenant, Redis fails, or it is within the limit
      among the increments of its own tenant and window so far. */
  lemma {:induction false} ServedExactly(limit: int, trace: Trace, i: nat)
    requires Monotone(trace) && i < |trace|
    ensures Served(limit, trace, i) <==>
      var r := trace[i];
      r.tenant.None? || r.redis != Ok || Hits(trace[..i], r.tenant.value, Window(r.time)) + 1 <= limit
  {
    var r, before := trace[i], trace[..i];
    if r.tenant.Some? {
      var w := Window(r.time);
      if before != [] {
        var last := before[i - 1];
        assert last.time <= r.time;
        WindowBounds(last.time);
        WindowBounds(r.time);
        assert Window(last.time) <= w;
      }
      CounterExact(before, r.tenant.value, w);
      StillAlive(r.time, w);
    }
  }

  // --- Counting over a span of time ---

  predicate InSpan(r: Request, tenant: TenantId, lo: nat, hi: nat) {
    r.tenant == Some(tenant) && lo <= r.time < hi
  }

  lemma {:induction false} WindowIsSpan(r: Request, tenant: TenantId, w: nat)
    ensures InWindow(r, tenant, w) <==> InSpan(r, tenant, MINUTE * w, MINUTE * (w + 1))
  {
    WindowBounds(r.time);
  }

  /** The requests of a tenant in a span that are let through. */
  function Admitted(limit: int, trace: Trace, tenant: TenantId, lo: nat, hi: nat): nat {
    if trace == [] then 0
    else
      var n := |trace| - 1;
      Admitted(limit, trace[..n], tenant, lo, hi)
      + (if InSpan(trace[n], tenant, lo, hi) && Served(limit, trace, n) then 1 else 0)
  }

  /** Those of them that Redis answered for. */
  function Counted(limit: int, trace: Trace, tenant: TenantId, lo: nat, hi: nat): nat {
    if trace == [] then 0
    else
      var n := |trace| - 1;
      Counted(limit, trace[..n], tenant, lo, hi)
      + (if InSpan(trace[n], tenant, lo, hi) && Served(limit, trace, n) && trace[n].redis == Ok then 1 else 0)
  }

  function Errors(trace: Trace, tenant: TenantId, lo: nat, hi: nat): nat {
    if trace == [] then 0
    else
      var n := |trace| - 1;
      Errors(trace[..n], tenant, lo, hi) + (if InSpan(trace[n], tenant, lo, hi) && trace[n].redis != Ok then 1 else 0)
  }

  function Requests(trace: Trace, tenant: TenantId, lo: nat, hi: nat): nat {
    if trace == [] then 0
    else Requests(trace[..|trace| - 1], tenant, lo, hi) + (if InSpan(trace[|trace| - 1], tenant, lo, hi) then 1 else 0)
  }

  lemma {:induction false} AdmittedSplits(limit: int, trace: Trace, tenant: TenantId, lo: nat, hi: nat)
    requires Monotone(trace)
    ensures Admitted(limit, trace, tenant, lo, hi) ==
      Counted(limit, trace, tenant, lo, hi) + Errors(trace, tenant, lo, hi)
  {
    if trace != [] {
      var n := |trace| - 1;
      AdmittedSplits(limit, trace[..n], tenant, lo, hi);
      ServedExactly(limit, trace, n);
    }
  }

  function Min(a: nat, b: nat): nat {
    if a < b then a else b
  }

  /** Among the answered requests of a window, the first ones up to the limit are let through. */
  lemma {:induction false} WindowCounted(limit: int, trace: Trace, tenant: TenantId, w: nat)
    requires Monotone(trace)
    ensures var lo, hi := MINUTE * w, MINUTE * (w + 1);
      && Counted(limit, trace, tenant, lo, hi) <= Min(Hits(trace, tenant, w), Max0(limit))
      && (Errors(trace, tenant, lo, hi) == 0 ==>
            && Hits(trace, tenant, w) == Requests(trace, tenant, lo, hi)
            && Counted(limit, trace, tenant, lo, hi) == Min(Requests(trace, tenant, lo, hi), Max0(limit)))
  {
    if trace != [] {
      var n := |trace| - 1;
      WindowCounted(limit, trace[..n], tenant, w);
      WindowIsSpan(trace[n], tenant, w);
      ServedExactly(limit, trace, n);
    }
  }

  /** Per window: a tenant is let through at most as often as the limit says, plus once for every Redis
      error; without errors, exactly as often as it asks or as the limit says, whichever is less. */
  lemma {:induction false} WindowLimit(limit: int, trace: Trace, tenant: TenantId, w: nat)
    requires Monotone(trace)
    ensures var lo, hi := MINUTE * w, MINUTE * (w + 1);
      && Admitted(limit, trace, tenant, lo, hi) <= Max0(limit) + Errors(trace, tenant, lo, hi)
      && (Errors(trace, tenant, lo, hi) == 0 ==>
            Admitted(limit, trace, tenant, lo, hi) == Min(Requests(trace, tenant, lo, hi), Max0(limit)))
  {
    AdmittedSplits(limit, trace, tenant, MINUTE * w, MINUTE * (w + 1));
    WindowCounted(limit, trace, tenant, w);
  }

  lemma {:induction false} SpanInTwoWindows(limit: int, trace: Trace, tenant: TenantId, a: nat)
    ensures var w := Window(a);
      Counted(limit, trace, tenant, a, a + MINUTE) <=
        Counted(limit, trace, tenant, MINUTE * w, MINUTE * (w + 1)) +
          Counted(limit, trace, tenant, MINUTE * (w + 1), MINUTE * (w + 2))
  {
    if trace != [] {
      SpanInTwoWindows(limit, trace[..|trace| - 1], tenant, a);
      WindowBounds(a);
    }
  }

  /** In any sixty seconds: at most twice the limit, plus the errors. */
  lemma {:induction false} SpanLimit(limit: int, trace: Trace, tenant: TenantId, a: nat)
    requires Monotone(trace)
    ensures Admitted(limit, trace, tenant, a, a + MINUTE) <= 2 * Max0(limit) + Errors(trace, tenant, a, a + MINUTE)
  {
    AdmittedSplits(limit, trace, tenant, a, a + MINUTE);
    SpanInTwoWindows(limit, trace, tenant, a);
    WindowCounted(limit, trace, tenant, Window(a));
    WindowCounted(limit, trace, tenant, Window(a) + 1);
  }

  // --- Tenants do not affect each other ---

  function Own(trace: Trace, tenant: TenantId): Trace {
    if trace == [] then []
    else
      var n := |trace| - 1;
      Own(trace[..n], tenant) + (if trace[n].tenant == Some(tenant) then [trace[n]] else [])
  }

  lemma {:induction false} HitsAreOwn(trace: Trace, tenant: TenantId, w: nat)
    ensures Hits(trace, tenant, w) == Hits(Own(trace, tenant), tenant, w)
  {
    if trace != [] {
      var n := |trace| - 1;
      HitsAreOwn(trace[..n], tenant, w);
      var own := Own(trace[..n], tenant);
      assert (own + [trace[n]])[..|own|] == own && own + [] == own;
    }
  }

  /** A request's fate depends on nothing but the earlier requests of its own tenant: in two traces that
      agree on those, whatever other tenants do, it is the same. */
  lemma {:induction false} TenantsAreIndependent(limit: int, trace: Trace, i: nat, trace': Trace, i': nat,
                                                 tenant: TenantId)
    requires Monotone(trace) && Monotone(trace') && i < |trace| && i' < |trace'|
    requires trace[i] == trace'[i'] && trace[i].tenant == Some(tenant)
    requires Own(trace[..i], tenant) == Own(trace'[..i'], tenant)
    ensures Served(limit, trace, i) == Served(limit, trace', i')
  {
    var w := Window(trace[i].time);
    ServedExactly(limit, trace, i);
    ServedExactly(limit, trace', i');
    HitsAreOwn(trace[..i], tenant, w);
    HitsAreOwn(trace'[..i'], tenant, w);
  }

  // --- "Requests per minute", exactly ---

  /** `n` requests of one tenant at one moment. */
  function Burst(tenant: TenantId, time: nat, n: nat): (b: Trace)
    ensures |b| == n && forall i :: 0 <= i < n ==> b[i] == Request(Some(tenant), time, Ok)
  {
    if n == 0 then [] else Burst(tenant, time, n - 1) + [Request(Some(tenant), time, Ok)]
  }

  lemma {:induction false} BurstHits(before: Trace, tenant: TenantId, time: nat, n: nat, w: nat)
    ensures Hits(before + Burst(tenant, time, n), tenant, w) ==
      Hits(before, tenant, w) + (if Window(time) == w then n else 0)
  {
    if n == 0 {
      assert before + Burst(tenant, time, 0) == before;
    } else {
      var trace := before + Burst(tenant, time, n);
      BurstHits(before, tenant, time, n - 1, w);
      assert trace[..|trace| - 1] == before + Burst(tenant, time, n - 1);
    }
  }

  lemma {:induction false} BurstMonotone(before: Trace, tenant: TenantId, time: nat, n: nat)
    requires Monotone(before) && (forall i :: 0 <= i < |before| ==> before[i].time <= time)
    ensures Monotone(before + Burst(tenant, time, n))
  {
  }

  lemma {:induction false} OneMoreServed(limit: int, trace: Trace, r: Request, tenant: TenantId, lo: nat, hi: nat)
    requires Monotone(trace + [r]) && InSpan(r, tenant, lo, hi) && r.redis == Ok
    requires Hits(trace, tenant, Window(r.time)) + 1 <= limit
    ensures Admitted(limit, trace + [r], tenant, lo, hi) == Admitted(limit, trace, tenant, lo, hi) + 1
    ensures Errors(trace + [r], tenant, lo, hi) == Errors(trace, tenant, lo, hi)
  {
    assert (trace + [r])[..|trace|] == trace;
    ServedExactly(limit, trace + [r], |trace|);
  }

  /** A burst in a window in which the tenant has not asked yet gets through up to the limit. */
  lemma {:induction false} BurstServed(limit: int, before: Trace, tenant: TenantId, time: nat, n: nat, lo: nat, hi: nat)
    requires Monotone(before) && (forall i :: 0 <= i < |before| ==> before[i].time <= time)
    requires Hits(before, tenant, Window(time)) == 0 && n <= limit && lo <= time < hi
    ensures var trace := before + Burst(tenant, time, n);
      && Admitted(limit, trace, tenant, lo, hi) == Admitted(limit, before, tenant, lo, hi) + n
      && Errors(trace, tenant, lo, hi) == Errors(before, tenant, lo, hi)
  {
    if n == 0 {
      assert before + Burst(tenant, time, 0) == before;
    } else {
      var shorter, r := before + Burst(tenant, time, n - 1), Request(Some(tenant), time, Ok);
      assert before + Burst(tenant, time, n) == shorter + [r];
      BurstServed(limit, before, tenant, time, n - 1, lo, hi);
      BurstMonotone(before, tenant, time, n);
      BurstHits(before, tenant, time, n - 1, Window(time));
      OneMoreServed(limit, shorter, r, tenant, lo, hi);
    }
  }

  lemma {:induction false} NextWindow(a: nat)
    requires a % MINUTE != 0
    ensures var next := MINUTE * (Window(a) + 1); a < next < a + MINUTE && Window(next) == Window(a) + 1
  {
    WindowBounds(a);
    WindowBounds(MINUTE * (Window(a) + 1));
  }

  /** A tenant that spends its limit at `a` and again when the next window opens. */
  lemma {:induction false} TwoBursts(limit: int, tenant: TenantId, a: nat) returns (trace: Trace)
    requires limit > 0 && a % MINUTE != 0
    ensures Monotone(trace) && Errors(trace, tenant, a, a + MINUTE) == 0
    ensures Admitted(limit, trace, tenant, a, a + MINUTE) == 2 * limit
  {
    var next := MINUTE * (Window(a) + 1);
    NextWindow(a);
    var first := FirstBurst(limit, tenant, a);
    BurstServed(limit, first, tenant, next, limit, a, a + MINUTE);
    BurstMonotone(first, tenant, next, limit);
    trace := first + Burst(tenant, next, limit);
  }

  lemma {:induction false} FirstBurst(limit: int, tenant: TenantId, a: nat) returns (trace: Trace)
    requires limit > 0
    ensures Monotone(trace) && (forall i :: 0 <= i < |trace| ==> trace[i].time == a)
    ensures Admitted(limit, trace, tenant, a, a + MINUTE) == limit && Errors(trace, tenant, a, a + MINUTE) == 0
    ensures Hits(trace, tenant, Window(a) + 1) == 0
  {
    trace := [] + Burst(tenant, a, limit);
    BurstServed(limit, [], tenant, a, limit, a, a + MINUTE);
    BurstHits([], tenant, a, limit, Window(a) + 1);
    BurstMonotone([], tenant, a, limit);
  }

  predicate HeldToLimit(limit: int, trace: Trace, tenant: TenantId, a: nat) {
    Admitted(limit, trace, tenant, a, a + MINUTE) <= Max0(limit) + Errors(trace, tenant, a, a + MINUTE)
  }

  /** The sixty seconds from `a` are held to the limit, for every trace and tenant, exactly when they are
      one of the fixed windows, or nothing is let through at all. */
  lemma {:induction false} PerMinuteExactly(limit: int, a: nat)
    ensures (forall trace, tenant :: Monotone(trace) ==> HeldToLimit(limit, trace, tenant, a))
      <==> a % MINUTE == 0 || limit <= 0
  {
    if a % MINUTE == 0 || limit <= 0 {
      forall trace, tenant | Monotone(trace)
        ensures HeldToLimit(limit, trace, tenant, a)
      {
        if limit <= 0 {
          SpanLimit(limit, trace, tenant, a);
        } else {
          WindowBounds(a);
          assert a == MINUTE * Window(a);
          WindowLimit(limit, trace, tenant, Window(a));
        }
      }
    } else {
      var trace := TwoBursts(limit, 0, a);
      assert !HeldToLimit(limit, trace, 0, a);
    }
  }
}
