/** The JWKS cache (internal/oidc/cache.go): one stored body, served fresh for maxAge and stale for
    at most one refresh interval longer. Reading the clock is a parameter of each operation. */
module JwksCache {
  import opened Wrappers
  import opened Base64Url
  import opened GoTime
  import opened Fetcher

  /** ttl is the refresh interval, maxAge the advertised lifetime. */
  datatype Policy = Policy(ttl: int, maxAge: int) {
    /** What configuration validation guarantees of the two durations. */
    predicate Configured() { 0 < ttl < INT64_LIMIT && 0 < maxAge < INT64_LIMIT }

    /** The stale window fits in a time.Duration. */
    predicate Fits() { Configured() && maxAge + ttl < INT64_LIMIT }
  }

  /** What the mutex guards. */
  datatype Entry = Entry(ready: bool, current: seq<Byte>, updatedAt: int)

  datatype CacheControl = NoStore | PublicMaxAge(seconds: int)

  /** freshnessLocked, with Go's 64-bit arithmetic: usable or not, and the remaining freshness. */
  function Freshness(p: Policy, en: Entry, now: int): (bool, int) {
    if !en.ready || |en.current| == 0 || en.updatedAt == ZERO_TIME then (false, 0)
    else
      var age := Max(Sub(now, en.updatedAt), 0);
      var staleWindow := Int64(p.maxAge + p.ttl);
      var remaining := Int64(staleWindow - age);
      if remaining <= 0 then (false, 0) else (true, Min(remaining, p.maxAge))
  }

  /** Current: the body and the header, from one reading of the entry. */
  function Answer(p: Policy, en: Entry, now: int): (seq<Byte>, CacheControl) {
    var (ready, remaining) := Freshness(p, en, now);
    if ready then (en.current, PublicMaxAge(remaining / SECOND)) else ([], NoStore)
  }

  /** The entry has been filled, with something, by a working clock. */
  predicate Filled(en: Entry) { en.ready && en.current != [] && en.updatedAt != ZERO_TIME }

  /** The age of an entry; a clock that reads earlier than the store counts as age zero. */
  function Age(en: Entry, t: int): int { Max(t - en.updatedAt, 0) }

  /** What freshness means when the window fits: younger than maxAge + ttl, and what then remains of
      the window, capped at maxAge. */
  lemma FreshnessMeaning(p: Policy, en: Entry, t: int)
    requires p.Fits()
    ensures Freshness(p, en, t).0 <==> Filled(en) && Age(en, t) < p.maxAge + p.ttl
    ensures Freshness(p, en, t).0 ==> Freshness(p, en, t).1 == Min(p.maxAge + p.ttl - Age(en, t), p.maxAge)
  {
  }

  /** No entry is served at or past the age maxAge + ttl. */
  ghost predicate StalenessBounded(p: Policy) {
    forall en, t {:trigger Freshness(p, en, t)} :: Freshness(p, en, t).0 ==> t - en.updatedAt < p.maxAge + p.ttl
  }

  /** An entry is usable the moment it is stored. */
  ghost predicate UsableWhenStored(p: Policy) {
    forall en {:trigger Filled(en)} :: Filled(en) ==> Freshness(p, en, en.updatedAt).0
  }

  lemma OverflowedWindow(p: Policy, en: Entry)
    requires p.Configured() && !p.Fits() && Filled(en)
    ensures !Freshness(p, en, en.updatedAt).0
    ensures Freshness(p, en, en.updatedAt + 2 * INT64_LIMIT).0
  {
  }

  /** Configuration bounds neither duration from above. Both promises of the cache hold exactly when
      the sum of the two fits in 64 bits: otherwise a fresh entry is unusable, and a very old one is
      served. */
  lemma PromisesHoldExactlyWhenWindowFits(p: Policy)
    requires p.Configured()
    ensures StalenessBounded(p) <==> p.Fits()
    ensures UsableWhenStored(p) <==> p.Fits()
  {
    if p.Fits() {
      forall en, t {:trigger Freshness(p, en, t)}
        ensures Freshness(p, en, t).0 ==> t - en.updatedAt < p.maxAge + p.ttl
      {
        FreshnessMeaning(p, en, t);
      }
      forall en | Filled(en)
        ensures Freshness(p, en, en.updatedAt).0
      {
        FreshnessMeaning(p, en, en.updatedAt);
      }
    } else {
      var en := Entry(true, [0], 0);
      OverflowedWindow(p, en);
      assert Filled(en);
    }
  }

  /** The answer in the entry's own terms: the stored body with what is left of the window in whole
      seconds, capped at maxAge; and nothing at all once the window has passed. */
  lemma AnswerMeaning(p: Policy, en: Entry, t: int)
    requires p.Fits()
    ensures Filled(en) && Age(en, t) < p.maxAge + p.ttl ==>
              Answer(p, en, t) == (en.current, PublicMaxAge(Min(p.maxAge + p.ttl - Age(en, t), p.maxAge) / SECOND))
    ensures !(Filled(en) && Age(en, t) < p.maxAge + p.ttl) ==> Answer(p, en, t) == ([], NoStore)
  {
    FreshnessMeaning(p, en, t);
  }

  /** What freshness means when the window overflows: an entry is unusable until its age, as far as a
      Duration can tell, exceeds the window by which the sum passes the limit. */
  lemma OverflowedFreshness(p: Policy, en: Entry, t: int)
    requires p.Configured() && !p.Fits()
    ensures Freshness(p, en, t).0 <==>
              Filled(en) && Min(Age(en, t), INT64_LIMIT - 1) > p.maxAge + p.ttl - INT64_LIMIT
  {
    var age := Max(Sub(t, en.updatedAt), 0);
    var window := p.maxAge + p.ttl - 2 * INT64_LIMIT;
    assert age == Min(Age(en, t), INT64_LIMIT - 1);
    assert Int64(p.maxAge + p.ttl) == Int64(window) == window;
    assert Int64(window - age) == if IsInt64(window - age) then window - age else window - age + 2 * INT64_LIMIT;
  }

  /** The advertised lifetime never reaches past the stale window, whatever the clock reads. */
  lemma AdvertisedWithinWindow(p: Policy, en: Entry, t: int)
    requires p.Fits() && Answer(p, en, t).1.PublicMaxAge?
    ensures var lifetime := Answer(p, en, t).1.seconds * SECOND;
            0 <= lifetime <= p.maxAge && t + lifetime <= en.updatedAt + p.maxAge + p.ttl
  {
  }

  /** Between stores the advertised lifetime never grows, and an expired entry stays expired. */
  lemma AdvertisedNeverGrows(p: Policy, en: Entry, t: int, u: int)
    requires p.Fits() && t <= u && Answer(p, en, u).1.PublicMaxAge?
    ensures Answer(p, en, t).1.PublicMaxAge? && Answer(p, en, u).1.seconds <= Answer(p, en, t).1.seconds
  {
  }

  class Cache {
    const codec: Codec
    const policy: Policy
    var current: seq<Byte>
    var updatedAt: int
    var ready: bool
    ghost var source: Option<Reply>   // the upstream reply behind the stored body

    function Stored(): Entry
      reads this
    {
      Entry(ready, current, updatedAt)
    }

    /** Whatever is stored is the marshalling of the key set of an acceptable upstream reply. */
    ghost predicate Valid()
      reads this
    {
      ready ==> source.Some? && Acceptable(codec, source.value)
                && codec.marshal(codec.decode(source.value.content).value) == Some(current)
    }

    constructor (codec: Codec, policy: Policy)
      ensures Valid() && this.codec == codec && this.policy == policy && Stored() == Entry(false, [], ZERO_TIME)
    {
      this.codec, this.policy := codec, policy;
      current, updatedAt, ready, source := [], ZERO_TIME, false, None;
    }

    method Store(body: seq<Byte>, now: int)
      modifies this`current, this`updatedAt, this`ready
      ensures Stored() == Entry(true, body, now)
    {
      current := body;
      updatedAt := now;
      ready := true;
    }

    method Current(now: int) returns (body: seq<Byte>, header: CacheControl)
      ensures (body, header) == Answer(policy, Stored(), now)
      ensures policy.Fits() ==>
        var window, age := policy.maxAge + policy.ttl, Max(now - updatedAt, 0);
        if ready && current != [] && updatedAt != ZERO_TIME && age < window
          then body == current && header == PublicMaxAge(Min(window - age, policy.maxAge) / SECOND)
          else body == [] && header == NoStore
    {
      if policy.Fits() {
        AnswerMeaning(policy, Stored(), now);
      }
      var (ok, remaining) := Freshness(policy, Stored(), now);
      if !ok {
        return [], NoStore;
      }
      return current, PublicMaxAge(remaining / SECOND);
    }

    method Ready(now: int) returns (ok: bool)
      ensures ok == Freshness(policy, Stored(), now).0
      ensures policy.Fits() ==>
        (ok <==> ready && current != [] && updatedAt != ZERO_TIME && now - updatedAt < policy.maxAge + policy.ttl)
    {
      if policy.Fits() {
        FreshnessMeaning(policy, Stored(), now);
      }
      ok := Freshness(policy, Stored(), now).0;
    }

    /** Prime and refresh: fetch, marshal, store; on any failure the old entry stays. */
    method Refresh(reply: Reply, now: int) returns (result: RefreshResult)
      requires Valid()
      modifies this
      ensures Valid() && result == Refreshed(codec, reply)
      ensures Stored() == EntryAfter(codec, old(Stored()), reply, now)
      ensures result == FetchFailed <==> !Acceptable(codec, reply)
      ensures result == MarshalFailed <==>
                Acceptable(codec, reply) && codec.marshal(codec.decode(reply.content).value).None?
      ensures !result.Succeeded? ==> Stored() == old(Stored()) && source == old(source)
      ensures Acceptable(codec, reply) && codec.marshal(codec.decode(reply.content).value).Some? ==>
                && result == Succeeded(|codec.decode(reply.content).value|)
                && ready && updatedAt == now && source == Some(reply)
                && Some(current) == codec.marshal(codec.decode(reply.content).value)
    {
      var fetched := Fetch(codec, reply);
      if fetched.Err? {
        return FetchFailed;
      }
      var body := codec.marshal(fetched.value);
      if body.None? {
        return MarshalFailed;
      }
      Store(body.value, now);
      source := Some(reply);
      return Succeeded(|fetched.value|);
    }
  }

  datatype RefreshResult = FetchFailed | MarshalFailed | Succeeded(kids: nat)

  function Refreshed(codec: Codec, reply: Reply): RefreshResult {
    if !Acceptable(codec, reply) then FetchFailed
    else
      var keys := codec.decode(reply.content).value;
      if codec.marshal(keys).None? then MarshalFailed else Succeeded(|keys|)
  }

  function EntryAfter(codec: Codec, en: Entry, reply: Reply, now: int): Entry {
    if Refreshed(codec, reply).Succeeded? then Entry(true, codec.marshal(codec.decode(reply.content).value).value, now)
    else en
  }
}
