/** The metrics' own copy of the cache's freshness (internal/metrics/metrics.go), and the refresh
    counters. Ages are compared in nanoseconds instead of floating-point seconds. */
module JwksMetrics {
  import opened GoTime
  import opened JwksCache

  datatype Gauge = Gauge(hasValue: bool, updatedAt: int, kidCount: int)

  function AgeOf(g: Gauge, now: int): int {
    if !g.hasValue || g.updatedAt == 0 then 0 else Max(Sub(now, g.updatedAt), 0)
  }

  /** The value of the jwks_ready gauge. */
  function ReadyValue(staleWindow: int, g: Gauge, now: int): int {
    if !g.hasValue || staleWindow <= 0 || AgeOf(g, now) > staleWindow then 0 else 1
  }

  /** The value of the jwks_keys gauge. */
  function KidCountValue(staleWindow: int, g: Gauge, now: int): int {
    if ReadyValue(staleWindow, g, now) == 0 then 0 else g.kidCount
  }

  /** Without a record, or without a window, every gauge shows 0 whatever the other fields hold; and
      the keys of a set that is not shown as ready are not counted. */
  lemma NothingToShow(staleWindow: int, g: Gauge, t: int)
    ensures !g.hasValue ==> AgeOf(g, t) == 0
    ensures !g.hasValue || staleWindow <= 0 ==>
              ReadyValue(staleWindow, g, t) == 0 && KidCountValue(staleWindow, g, t) == 0
    ensures KidCountValue(staleWindow, g, t) != 0 ==> ReadyValue(staleWindow, g, t) == 1
    ensures ReadyValue(staleWindow, g, t) == 1 ==> KidCountValue(staleWindow, g, t) == g.kidCount
  {
  }

  /** The age shown is the time since the record, as long as a Duration can hold it, and never
      negative. */
  lemma AgeShown(g: Gauge, t: int)
    requires g.hasValue && g.updatedAt != 0
    ensures AgeOf(g, t) == Min(Max(t - g.updatedAt, 0), INT64_LIMIT - 1)
  {
  }

  class Metrics {
    const jwksStaleWindow: int
    var jwksUpdatedAt: int
    var jwksKidCount: int
    var jwksHasValue: bool
    var refreshSuccesses: nat
    var refreshFailures: nat
    var servedStale: nat

    function State(): Gauge
      reads this
    {
      Gauge(jwksHasValue, jwksUpdatedAt, jwksKidCount)
    }

    /** Fresh metrics know the stale window and nothing about a key set. */
    constructor (p: Policy)
      ensures jwksStaleWindow == Int64(p.ttl + p.maxAge)
      ensures State() == Gauge(false, 0, 0) && refreshSuccesses == refreshFailures == servedStale == 0
    {
      jwksStaleWindow := Int64(p.ttl + p.maxAge);
      jwksUpdatedAt, jwksKidCount, jwksHasValue := 0, 0, false;
      refreshSuccesses, refreshFailures, servedStale := 0, 0, 0;
    }

    method RecordRefreshSuccess(kids: int, now: int)
      modifies this`jwksUpdatedAt, this`jwksKidCount, this`jwksHasValue, this`refreshSuccesses
      ensures State() == Gauge(true, now, kids) && refreshSuccesses == old(refreshSuccesses) + 1
    {
      refreshSuccesses := refreshSuccesses + 1;
      jwksUpdatedAt := now;
      jwksKidCount := kids;
      jwksHasValue := true;
    }

    method RecordRefreshFailure()
      modifies this`refreshFailures
      ensures refreshFailures == old(refreshFailures) + 1
    {
      refreshFailures := refreshFailures + 1;
    }

    method RecordServingStale()
      modifies this`servedStale
      ensures servedStale == old(servedStale) + 1
    {
      servedStale := servedStale + 1;
    }
  }

  /** Cache and gauge compute the same window, in either order of the sum. */
  function StaleWindow(p: Policy): int { Int64(p.ttl + p.maxAge) }

  /** Once the store made at `en.updatedAt` has been recorded at `g.updatedAt`, not before it: a cache
      that is ready shows as ready. A gauge that shows ready means an age of at most the window plus
      the delay of the record, unless the window is the very longest Duration, which no saturated age
      exceeds. */
  lemma CacheAndGaugeAgree(p: Policy, en: Entry, g: Gauge, t: int)
    requires p.Fits() && Filled(en) && g.hasValue && g.updatedAt >= en.updatedAt && g.updatedAt != 0
    ensures Freshness(p, en, t).0 ==> ReadyValue(StaleWindow(p), g, t) == 1
    ensures ReadyValue(StaleWindow(p), g, t) == 1 <==>
            p.maxAge + p.ttl == INT64_LIMIT - 1 || t - en.updatedAt <= p.maxAge + p.ttl + (g.updatedAt - en.updatedAt)
  {
  }

  /** The two differ at least at the instant where the age equals the window, even when the record is
      made at the instant of the store: the cache excludes it, the gauge does not. */
  lemma BoundaryDiffers(p: Policy, en: Entry, g: Gauge)
    requires p.Fits() && Filled(en) && g.hasValue && g.updatedAt == en.updatedAt != 0
    ensures var t := en.updatedAt + p.maxAge + p.ttl; ReadyValue(StaleWindow(p), g, t) == 1 && !Freshness(p, en, t).0
  {
  }

  /** A gauge whose record fell on the epoch itself never ages. */
  lemma EpochRecordNeverAges(p: Policy, kids: int, t: int)
    requires p.Fits()
    ensures ReadyValue(StaleWindow(p), Gauge(true, 0, kids), t) == 1
  {
  }
}
