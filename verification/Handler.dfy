/** The public JWKS route (internal/oidc/handler.go), which reads the cache twice, and the background
    refresh loop (internal/oidc/cache.go) that may store between the two reads. */
module Handler {
  import opened Wrappers
  import opened Base64Url
  import opened Fetcher
  import opened JwksCache
  import opened JwksMetrics
  import opened CacheLaws

  /** One tick of the refresh loop: the upstream's reply, produced at `producedAt`, and the clock at
      the store, at the record in the metrics, and at the check for stale serving. */
  datatype Tick = Tick(reply: Reply, producedAt: int, at: int, recordedAt: int, checkedAt: int)

  function AttemptOf(codec: Codec, tick: Tick): Attempt {
    Attempt(if Refreshed(codec, tick.reply).Succeeded? then codec.marshal(codec.decode(tick.reply.content).value)
            else None,
            tick.producedAt, tick.at)
  }

  function AttemptsOf(codec: Codec, ticks: seq<Tick>): (run: seq<Attempt>)
    ensures |run| == |ticks|
  {
    seq(|ticks|, i requires 0 <= i < |ticks| => AttemptOf(codec, ticks[i]))
  }

  datatype Response =
    | Served(header: CacheControl, body: seq<Byte>)   // 200
    | Unavailable(header: CacheControl)               // 503

  /** handleJWKS: Current is read at t1 and Ready at t2; refreshes may complete in between. A 200 is
      one single fresh snapshot, taken at t1, of the marshalling of an acceptable upstream reply. */
  method HandleJWKS(cache: Cache, t1: int, between: seq<Tick>, t2: int) returns (r: Response)
    requires cache.Valid()
    modifies cache
    ensures cache.Valid() && cache.Stored() == EntryAt(old(cache.Stored()), AttemptsOf(cache.codec, between))
    ensures r.Served? ==> (r.body, r.header) == Answer(cache.policy, old(cache.Stored()), t1) && r.body != []
    ensures r.Served? ==> r.header.PublicMaxAge? && old(cache.source).Some?
                          && Acceptable(cache.codec, old(cache.source).value)
                          && cache.codec.marshal(cache.codec.decode(old(cache.source).value.content).value)
                             == Some(r.body)
    ensures r.Unavailable? ==> r.header == NoStore
    ensures r.Unavailable? <==>
            !Freshness(cache.policy, old(cache.Stored()), t1).0 || !Freshness(cache.policy, cache.Stored(), t2).0
  {
    var body, header := cache.Current(t1);
    Refreshes(cache, between);
    var ready := cache.Ready(t2);
    if !ready || |body| == 0 {
      return Unavailable(NoStore);
    }
    return Served(header, body);
  }

  method Refreshes(cache: Cache, ticks: seq<Tick>)
    requires cache.Valid()
    modifies cache
    ensures cache.Valid() && cache.Stored() == EntryAt(old(cache.Stored()), AttemptsOf(cache.codec, ticks))
  {
    for i := 0 to |ticks|
      invariant cache.Valid() && cache.Stored() == EntryAt(old(cache.Stored()), AttemptsOf(cache.codec, ticks[..i]))
    {
      var _ := cache.Refresh(ticks[i].reply, ticks[i].at);
      OneMoreAttempt(old(cache.Stored()), cache.codec, ticks, i);
    }
    assert ticks[..|ticks|] == ticks;
  }

  lemma OneMoreAttempt(en: Entry, codec: Codec, ticks: seq<Tick>, i: nat)
    requires i < |ticks|
    ensures EntryAt(en, AttemptsOf(codec, ticks[..i + 1])) ==
            EntryAfter(codec, EntryAt(en, AttemptsOf(codec, ticks[..i])), ticks[i].reply, ticks[i].at)
  {
    var run := AttemptsOf(codec, ticks[..i + 1]);
    assert run[..i] == AttemptsOf(codec, ticks[..i]);
    assert run[i] == AttemptOf(codec, ticks[i]);
  }

  // ----- The refresh loop with its metrics -----

  ghost function CountSucceeded(codec: Codec, ticks: seq<Tick>): nat {
    if ticks == [] then 0
    else
      CountSucceeded(codec, ticks[..|ticks| - 1])
      + if Refreshed(codec, ticks[|ticks| - 1].reply).Succeeded? then 1 else 0
  }

  ghost function CountMarshalFailed(codec: Codec, ticks: seq<Tick>): nat {
    if ticks == [] then 0
    else
      CountMarshalFailed(codec, ticks[..|ticks| - 1])
      + if Refreshed(codec, ticks[|ticks| - 1].reply).MarshalFailed? then 1 else 0
  }

  /** Ticks that failed while the entry, as it then was, could still be served. */
  ghost function CountStale(policy: Policy, codec: Codec, en: Entry, ticks: seq<Tick>): nat {
    if ticks == [] then 0
    else
      var tick := ticks[|ticks| - 1];
      var stale := !Refreshed(codec, tick.reply).Succeeded?
                   && Freshness(policy, EntryAt(en, AttemptsOf(codec, ticks)), tick.checkedAt).0;
      CountStale(policy, codec, en, ticks[..|ticks| - 1]) + if stale then 1 else 0
  }

  /** The gauge holds the record of a store no earlier than the one the cache holds. */
  ghost predicate Recorded(cache: Cache, m: Metrics)
    reads cache, m
  {
    m.jwksStaleWindow == StaleWindow(cache.policy)
    && (cache.ready ==> m.jwksHasValue && m.jwksUpdatedAt >= cache.updatedAt)
  }

  /** The last tick that succeeded. */
  ghost predicate LastSuccess(codec: Codec, ticks: seq<Tick>, s: int) {
    && 0 <= s < |ticks| && Refreshed(codec, ticks[s].reply).Succeeded?
    && forall i :: s < i < |ticks| ==> !Refreshed(codec, ticks[i].reply).Succeeded?
  }

  /** What a tick that succeeds puts into the gauges. */
  ghost function GaugeOf(codec: Codec, tick: Tick): Gauge
    requires Refreshed(codec, tick.reply).Succeeded?
  {
    Gauge(true, tick.recordedAt, |codec.decode(tick.reply.content).value|)
  }

  /** The gauges hold the record of the last tick that succeeded, with the number of its keys. */
  ghost predicate Shows(codec: Codec, before: Gauge, ticks: seq<Tick>, after: Gauge) {
    if forall i :: 0 <= i < |ticks| ==> !Refreshed(codec, ticks[i].reply).Succeeded? then after == before
    else exists s :: LastSuccess(codec, ticks, s) && after == GaugeOf(codec, ticks[s])
  }

  lemma ShowsOneMore(codec: Codec, before: Gauge, ticks: seq<Tick>, g: Gauge, i: nat, g': Gauge)
    requires i < |ticks| && Shows(codec, before, ticks[..i], g)
    requires g' == if Refreshed(codec, ticks[i].reply).Succeeded? then GaugeOf(codec, ticks[i]) else g
    ensures Shows(codec, before, ticks[..i + 1], g')
  {
    var p, q := ticks[..i], ticks[..i + 1];
    assert forall j :: 0 <= j < i ==> q[j] == p[j];
    if Refreshed(codec, ticks[i].reply).Succeeded? {
      assert LastSuccess(codec, q, i);
    } else if s :| LastSuccess(codec, p, s) && g == GaugeOf(codec, p[s]) {
      assert LastSuccess(codec, q, s);
    }
  }

  /** One tick of the refresh loop. */
  method RunTick(cache: Cache, m: Metrics, tick: Tick)
    requires cache.Valid() && Recorded(cache, m) && tick.recordedAt >= tick.at
    modifies cache, m
    ensures cache.Valid() && Recorded(cache, m)
    ensures cache.Stored() == EntryAfter(cache.codec, old(cache.Stored()), tick.reply, tick.at)
    ensures var r := Refreshed(cache.codec, tick.reply);
      && m.State() == (if r.Succeeded? then GaugeOf(cache.codec, tick) else old(m.State()))
      && m.refreshSuccesses == old(m.refreshSuccesses) + (if r.Succeeded? then 1 else 0)
      && m.refreshFailures == old(m.refreshFailures) + (if r.Succeeded? then 0 else if r.MarshalFailed? then 2 else 1)
      && m.servedStale == old(m.servedStale)
           + (if !r.Succeeded? && Freshness(cache.policy, cache.Stored(), tick.checkedAt).0 then 1 else 0)
  {
    var result := cache.Refresh(tick.reply, tick.at);
    if result.Succeeded? {
      m.RecordRefreshSuccess(result.kids, tick.recordedAt);
    } else {
      if result.MarshalFailed? {
        m.RecordRefreshFailure();
      }
      m.RecordRefreshFailure();
      var usable := cache.Ready(tick.checkedAt);
      if usable {
        m.RecordServingStale();
      }
    }
  }

  /** Cache.Run over a finite number of ticks. Successes and failures are counted once, except that a
      marshal failure is counted as two failures. */
  method Run(cache: Cache, m: Metrics, ticks: seq<Tick>)
    requires cache.Valid() && Recorded(cache, m)
    requires forall i :: 0 <= i < |ticks| ==> ticks[i].recordedAt >= ticks[i].at
    modifies cache, m
    ensures cache.Valid() && Recorded(cache, m)
    ensures cache.Stored() == EntryAt(old(cache.Stored()), AttemptsOf(cache.codec, ticks))
    ensures m.refreshSuccesses == old(m.refreshSuccesses) + CountSucceeded(cache.codec, ticks)
    ensures m.refreshFailures == old(m.refreshFailures) + (|ticks| - CountSucceeded(cache.codec, ticks))
                                 + CountMarshalFailed(cache.codec, ticks)
    ensures Shows(cache.codec, old(m.State()), ticks, m.State())
    ensures m.servedStale == old(m.servedStale) + CountStale(cache.policy, cache.codec, old(cache.Stored()), ticks)
  {
    for i := 0 to |ticks|
      invariant cache.Valid() && Recorded(cache, m)
      invariant cache.Stored() == EntryAt(old(cache.Stored()), AttemptsOf(cache.codec, ticks[..i]))
      invariant m.refreshSuccesses == old(m.refreshSuccesses) + CountSucceeded(cache.codec, ticks[..i])
      invariant m.refreshFailures == old(m.refreshFailures) + (i - CountSucceeded(cache.codec, ticks[..i]))
                                     + CountMarshalFailed(cache.codec, ticks[..i])
      invariant Shows(cache.codec, old(m.State()), ticks[..i], m.State())
      invariant m.servedStale == old(m.servedStale)
                                 + CountStale(cache.policy, cache.codec, old(cache.Stored()), ticks[..i])
    {
      ghost var shown := m.State();
      RunTick(cache, m, ticks[i]);
      OneMoreAttempt(old(cache.Stored()), cache.codec, ticks, i);
      ShowsOneMore(cache.codec, old(m.State()), ticks, shown, i, m.State());
      assert ticks[..i + 1][..i] == ticks[..i];
    }
    assert ticks[..|ticks|] == ticks;
  }
}
