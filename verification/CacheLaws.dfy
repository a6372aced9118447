/** What the cache promises over whole runs: availability between refreshes, failing closed, and a
    bound on how long a key set dropped upstream can still be in use anywhere downstream. */
module CacheLaws {
  import opened Wrappers
  import opened Base64Url
  import opened GoTime
  import opened JwksCache

  /** The outcome of one refresh attempt: the body stored at `at`, which the upstream produced at
      `producedAt`; or None when the attempt failed and left the entry alone. */
  datatype Attempt = Attempt(body: Option<seq<Byte>>, producedAt: int, at: int)

  function Apply(en: Entry, a: Attempt): Entry {
    if a.body.Some? then Entry(true, a.body.value, a.at) else en
  }

  /** The entry after a run of attempts. */
  function EntryAt(en: Entry, run: seq<Attempt>): Entry {
    if run == [] then en else Apply(EntryAt(en, run[..|run| - 1]), run[|run| - 1])
  }

  const EMPTY := Entry(false, [], ZERO_TIME)

  ghost predicate LastStore(run: seq<Attempt>, s: int) {
    0 <= s < |run| && run[s].body.Some? && forall i :: s < i < |run| ==> run[i].body.None?
  }

  /** The entry is what the last successful attempt stored. */
  lemma {:induction false} EntryIsLastStore(en: Entry, run: seq<Attempt>, s: int)
    requires LastStore(run, s)
    ensures EntryAt(en, run) == Entry(true, run[s].body.value, run[s].at)
  {
    if s < |run| - 1 {
      assert LastStore(run[..|run| - 1], s);
      EntryIsLastStore(en, run[..|run| - 1], s);
    }
  }

  lemma {:induction false} FindLastStore(run: seq<Attempt>, i: nat) returns (s: int)
    requires i < |run| && run[i].body.Some?
    ensures i <= s && LastStore(run, s)
  {
    if run[|run| - 1].body.Some? {
      s := |run| - 1;
    } else {
      s := FindLastStore(run[..|run| - 1], i);
    }
  }

  lemma {:induction false} NothingStored(en: Entry, run: seq<Attempt>)
    requires forall i :: 0 <= i < |run| ==> run[i].body.None?
    ensures EntryAt(en, run) == en
  {
    if run != [] {
      NothingStored(en, run[..|run| - 1]);
    }
  }

  // ----- Staleness, end to end -----

  /** A response read from the cache at t may be used by a downstream cache (section 4.2 of RFC 9111)
      at any u while its advertised lifetime lasts. If each stored body reached the cache within
      `latency` of being produced, and the upstream produced this body at no time after `dropped`,
      then that use ends before dropped + latency + maxAge + ttl. */
  lemma {:induction false} DroppedKeysExpire(p: Policy, run: seq<Attempt>, t: int, u: int, latency: int, dropped: int)
    requires p.Fits() && Answer(p, EntryAt(EMPTY, run), t).1.PublicMaxAge?
    requires u == t || t <= u < t + Answer(p, EntryAt(EMPTY, run), t).1.seconds * SECOND
    requires forall i :: 0 <= i < |run| && run[i].body.Some? ==> run[i].at <= run[i].producedAt + latency
    requires forall i :: 0 <= i < |run| && run[i].body == Some(Answer(p, EntryAt(EMPTY, run), t).0) ==>
               run[i].producedAt <= dropped
    ensures u < dropped + latency + p.maxAge + p.ttl
  {
    var en := EntryAt(EMPTY, run);
    FreshnessMeaning(p, en, t);
    AdvertisedWithinWindow(p, en, t);
    if forall i :: 0 <= i < |run| ==> run[i].body.None? {
      NothingStored(EMPTY, run);
    } else {
      var i :| 0 <= i < |run| && run[i].body.Some?;
      var s := FindLastStore(run, i);
      EntryIsLastStore(EMPTY, run, s);
    }
  }

  /** With no successful attempt for maxAge + ttl the cache fails closed, until the next store. */
  lemma {:induction false} FailsClosed(p: Policy, run: seq<Attempt>, failures: seq<Attempt>, t: int, body: seq<Byte>,
                                      producedAt: int)
    requires p.Fits() && t - EntryAt(EMPTY, run).updatedAt >= p.maxAge + p.ttl
    requires forall i :: 0 <= i < |failures| ==> failures[i].body.None?
    ensures Answer(p, EntryAt(EntryAt(EMPTY, run), failures), t) == ([], NoStore)
    ensures body != [] && t != ZERO_TIME ==>
              Answer(p, EntryAt(EntryAt(EMPTY, run), failures + [Attempt(Some(body), producedAt, t)]), t).0 == body
  {
    var en, next := EntryAt(EMPTY, run), Attempt(Some(body), producedAt, t);
    NothingStored(en, failures);
    FreshnessMeaning(p, en, t);
    assert LastStore(failures + [next], |failures|);
    EntryIsLastStore(en, failures + [next], |failures|);
    FreshnessMeaning(p, Entry(true, body, t), t);
  }

  // ----- Availability -----

  /** Priming succeeded, later attempts complete at most `gap` apart, at most k in a row fail, and
      successes store something under a working clock. */
  ghost predicate Regular(run: seq<Attempt>, gap: int, k: nat) {
    && run != [] && run[0].body.Some?
    && (forall i :: 0 < i < |run| ==> run[i].at - run[i - 1].at <= gap)
    && (forall i :: 0 <= i < |run| - k ==> SomeSuccess(run, i, k))
    && (forall i :: 0 <= i < |run| && run[i].body.Some? ==> run[i].body.value != [] && run[i].at != ZERO_TIME)
  }

  /** One of the k + 1 attempts from i on succeeded. */
  ghost predicate SomeSuccess(run: seq<Attempt>, i: int, k: nat) {
    exists s :: 0 <= i <= s <= i + k < |run| && run[s].body.Some?
  }

  /** The entry that the cache holds after the first n attempts. */
  function EntryAfterFirst(run: seq<Attempt>, n: nat): Entry
    requires n <= |run|
  {
    EntryAt(EMPTY, run[..n])
  }

  /** The cache is ready at every instant from priming on: from each attempt of the run to the next,
      and from the last one for another gap. */
  ghost predicate ReadyThroughout(p: Policy, run: seq<Attempt>, gap: int) {
    forall n: nat, t {:trigger Freshness(p, EntryAfterFirst(run, n), t)} ::
      1 <= n <= |run| && run[n - 1].at <= t && (if n < |run| then t <= run[n].at else t <= run[n - 1].at + gap) ==>
        Freshness(p, EntryAfterFirst(run, n), t).0
  }

  /** Every beginning of a regular run is regular. */
  lemma PrefixIsRegular(run: seq<Attempt>, gap: int, k: nat, n: nat)
    requires Regular(run, gap, k) && 1 <= n <= |run|
    ensures Regular(run[..n], gap, k)
  {
    forall i | 0 <= i < n - k
      ensures SomeSuccess(run[..n], i, k)
    {
      assert SomeSuccess(run, i, k);
      var s :| i <= s <= i + k && run[s].body.Some?;
      assert run[..n][s] == run[s];
    }
  }

  lemma {:induction false} GapsAddUp(run: seq<Attempt>, gap: int, i: nat, j: nat)
    requires i <= j < |run| && forall l :: 0 < l < |run| ==> run[l].at - run[l - 1].at <= gap
    ensures run[j].at - run[i].at <= (j - i) * gap
  {
    if i < j {
      GapsAddUp(run, gap, i, j - 1);
      assert (j - i) * gap == (j - 1 - i) * gap + gap;
    }
  }

  lemma MulMonotone(a: int, b: int, c: int)
    requires a <= b && 0 <= c
    ensures a * c <= b * c
  {
  }

  /** For one gap after its last attempt, a regular run finds the cache ready. */
  lemma ReadyForAnotherGap(p: Policy, run: seq<Attempt>, gap: int, k: nat, t: int)
    requires p.Fits() && gap > 0 && Regular(run, gap, k) && (k + 1) * gap < p.maxAge + p.ttl
    requires run[|run| - 1].at <= t <= run[|run| - 1].at + gap
    ensures Freshness(p, EntryAt(EMPTY, run), t).0
  {
    var n := |run|;
    var i := if n > k then n - k - 1 else 0;
    if n > k {
      assert SomeSuccess(run, i, k);
    } else {
      assert run[0].body.Some?;
    }
    var s0 :| i <= s0 < n && run[s0].body.Some?;
    var s := FindLastStore(run, s0);
    EntryIsLastStore(EMPTY, run, s);
    GapsAddUp(run, gap, s, n - 1);
    MulMonotone(n - 1 - s, k, gap);
    assert (k + 1) * gap == k * gap + gap;
    FreshnessMeaning(p, EntryAt(EMPTY, run), t);
  }

  lemma RegularRunsStayReady(p: Policy, run: seq<Attempt>, gap: int, k: nat)
    requires p.Fits() && gap > 0 && Regular(run, gap, k) && (k + 1) * gap < p.maxAge + p.ttl
    ensures ReadyThroughout(p, run, gap)
  {
    forall n: nat, t {:trigger Freshness(p, EntryAfterFirst(run, n), t)} |
      1 <= n <= |run| && run[n - 1].at <= t && (if n < |run| then t <= run[n].at else t <= run[n - 1].at + gap)
      ensures Freshness(p, EntryAfterFirst(run, n), t).0
    {
      PrefixIsRegular(run, gap, k, n);
      ReadyForAnotherGap(p, run[..n], gap, k, t);
    }
  }

  /** Prime at the epoch, then k failures, one every gap. */
  ghost function WorstRun(gap: int, k: nat): seq<Attempt> {
    seq(k + 1, i => Attempt(if i == 0 then Some([0]) else None, 0, i * gap))
  }

  lemma WorstRunExpires(p: Policy, gap: int, k: nat)
    requires p.Fits() && gap > 0 && (k + 1) * gap >= p.maxAge + p.ttl
    ensures Regular(WorstRun(gap, k), gap, k) && !ReadyThroughout(p, WorstRun(gap, k), gap)
  {
    var run := WorstRun(gap, k);
    forall i | 0 < i < |run|
      ensures run[i].at - run[i - 1].at <= gap
    {
      assert i * gap == (i - 1) * gap + gap;
    }
    assert run[0].body.Some? && SomeSuccess(run, 0, k);
    assert LastStore(run, 0);
    EntryIsLastStore(EMPTY, run, 0);
    var t := run[k].at + gap;
    assert t == (k + 1) * gap;
    assert run[..k + 1] == run;
    FreshnessMeaning(p, EntryAfterFirst(run, k + 1), t);
  }

  /** The exact condition under which regular refreshing keeps the cache ready at every instant. */
  lemma AvailabilityExactly(p: Policy, gap: int, k: nat)
    requires p.Fits() && gap > 0
    ensures (forall run :: Regular(run, gap, k) ==> ReadyThroughout(p, run, gap)) <==> (k + 1) * gap < p.maxAge + p.ttl
  {
    if (k + 1) * gap < p.maxAge + p.ttl {
      forall run | Regular(run, gap, k)
        ensures ReadyThroughout(p, run, gap)
      {
        RegularRunsStayReady(p, run, gap, k);
      }
    } else {
      WorstRunExpires(p, gap, k);
    }
  }
}
