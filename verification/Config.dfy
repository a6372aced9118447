/** The duration and election checks of internal/config/config.go, against what the components they
    protect demand: the elector's own defaults and checks (internal/leader/elector.go), the runner's
    defaults (internal/tsrunner/runner.go) and the tickers. */
module Config {
  import opened Wrappers
  import opened GoTime
  import opened JwksCache

  datatype Election = Election(
    leaseName: string, namespace: string, identity: string, lease: int, renew: int, retry: int)

  datatype Settings = Settings(
    jwksTTL: int, jwksMaxAge: int, discoveryMaxAge: int, startupFetch: int,
    startTimeout: int, shutdownTimeout: int, pollInterval: int,
    electionEnabled: bool, election: Election)

  const MIN_JWKS_TTL: int := 5 * SECOND

  datatype DurationError = NotPositive(index: nat) | TTLTooShort

  /** The durations in the order in which they are checked. */
  function Durations(c: Settings): (d: seq<int>)
    ensures |d| == 10
  {
    [c.jwksTTL, c.jwksMaxAge, c.discoveryMaxAge, c.startupFetch, c.startTimeout, c.shutdownTimeout, c.pollInterval,
     c.election.lease, c.election.renew, c.election.retry]
  }

  /** The i-th check in the order of reporting fails. */
  predicate Offends(c: Settings, i: nat) {
    match i
    case 0 => c.jwksTTL <= 0
    case 1 => c.jwksMaxAge <= 0
    case 2 => c.discoveryMaxAge <= 0
    case 3 => c.startupFetch <= 0
    case 4 => c.startTimeout <= 0
    case 5 => c.shutdownTimeout <= 0
    case 6 => c.pollInterval <= 0
    case 7 => c.election.lease <= 0
    case 8 => c.election.renew <= 0
    case 9 => c.election.retry <= 0
    case _ => false
  }

  /** Every duration is positive, field by field. */
  predicate Positive(c: Settings) {
    && c.jwksTTL > 0 && c.jwksMaxAge > 0 && c.discoveryMaxAge > 0 && c.startupFetch > 0
    && c.startTimeout > 0 && c.shutdownTimeout > 0 && c.pollInterval > 0
    && c.election.lease > 0 && c.election.renew > 0 && c.election.retry > 0
  }

  lemma PositiveWithoutOffence(c: Settings)
    ensures Positive(c) <==> forall i: nat :: i < 10 ==> !Offends(c, i)
  {
    if forall i: nat :: i < 10 ==> !Offends(c, i) {
      assert !Offends(c, 0) && !Offends(c, 1) && !Offends(c, 2) && !Offends(c, 3) && !Offends(c, 4);
      assert !Offends(c, 5) && !Offends(c, 6) && !Offends(c, 7) && !Offends(c, 8) && !Offends(c, 9);
    }
  }

  /** Each check concerns the field it is named after. */
  lemma OffenceIsNotPositive(c: Settings, i: nat)
    requires i < 10
    ensures Offends(c, i) <==> Durations(c)[i] <= 0
  {
  }

  /** Checks every duration, and then the lower bound on the refresh interval; answers the first offender. */
  method ValidateDurations(c: Settings) returns (r: Option<DurationError>)
    ensures r.None? <==> Positive(c) && c.jwksTTL >= MIN_JWKS_TTL
    ensures r == Some(TTLTooShort) <==> Positive(c) && c.jwksTTL < MIN_JWKS_TTL
    ensures r.Some? && r.value.NotPositive? ==>
              Offends(c, r.value.index) && forall j: nat :: j < r.value.index ==> !Offends(c, j)
  {
    PositiveWithoutOffence(c);
    var checks := Durations(c);
    for i := 0 to |checks|
      invariant forall j: nat :: j < i ==> !Offends(c, j)
    {
      OffenceIsNotPositive(c, i);
      if checks[i] <= 0 {
        return Some(NotPositive(i));
      }
    }
    if c.jwksTTL < MIN_JWKS_TTL {
      return Some(TTLTooShort);
    }
    return None;
  }

  datatype ElectionError = LeaseNameMissing | NamespaceMissing | IdentityMissing | BadLease | BadRenew | BadRetry
                         | LeaseTooShort | RenewTooShort

  /** What the configuration itself asks of the election settings, when election is enabled. */
  function ValidateLeaderElection(c: Settings): Option<ElectionError> {
    if !c.electionEnabled then None
    else if c.election.leaseName == "" then Some(LeaseNameMissing)
    else if c.election.namespace == "" then Some(NamespaceMissing)
    else if c.election.identity == "" then Some(IdentityMissing)
    else if c.election.lease <= c.election.renew then Some(LeaseTooShort)
    else if c.election.renew <= c.election.retry then Some(RenewTooShort)
    else None
  }

  /** The durations that the elector puts in place of zero. */
  function ElectorDefaults(e: Election): Election {
    e.(lease := if e.lease == 0 then 15 * SECOND else e.lease,
       renew := if e.renew == 0 then 10 * SECOND else e.renew,
       retry := if e.retry == 0 then 2 * SECOND else e.retry)
  }

  /** What the elector asks of its settings once the defaults are in. */
  function ElectorValidate(e: Election): Option<ElectionError> {
    if e.leaseName == "" then Some(LeaseNameMissing)
    else if e.namespace == "" then Some(NamespaceMissing)
    else if e.identity == "" then Some(IdentityMissing)
    else if e.lease <= 0 then Some(BadLease)
    else if e.renew <= 0 then Some(BadRenew)
    else if e.retry <= 0 then Some(BadRetry)
    else if e.lease <= e.renew then Some(LeaseTooShort)
    else if e.renew <= e.retry then Some(RenewTooShort)
    else None
  }

  /** The durations that the runner puts in place of zero. */
  function RunnerDefaults(start: int, shutdown: int, poll: int): (int, int, int) {
    (if start == 0 then 30 * SECOND else start,
     if shutdown == 0 then 10 * SECOND else shutdown,
     if poll == 0 then 15 * SECOND else poll)
  }

  /** The configuration passed both checks. */
  ghost predicate Accepted(c: Settings) {
    ValidateLeaderElection(c).None? && Positive(c) && c.jwksTTL >= MIN_JWKS_TTL
  }

  /** Which election settings pass, and which complaint belongs to which defect: the first one in
      this order. */
  lemma ElectionErrorsExactly(c: Settings)
    ensures var e, r := c.election, ValidateLeaderElection(c);
      var named := c.electionEnabled && e.leaseName != "" && e.namespace != "" && e.identity != "";
      && (r.None? <==> !c.electionEnabled || (named && e.retry < e.renew < e.lease))
      && (r == Some(LeaseNameMissing) <==> c.electionEnabled && e.leaseName == "")
      && (r == Some(NamespaceMissing) <==> c.electionEnabled && e.leaseName != "" && e.namespace == "")
      && (r == Some(IdentityMissing) <==>
            c.electionEnabled && e.leaseName != "" && e.namespace != "" && e.identity == "")
      && (r == Some(LeaseTooShort) <==> named && e.lease <= e.renew)
      && (r == Some(RenewTooShort) <==> named && e.lease > e.renew && e.renew <= e.retry)
  {
  }

  /** With positive durations the configuration and the elector reject for exactly the same reason. */
  lemma ValidatorsAgree(c: Settings)
    requires c.electionEnabled && Positive(c)
    ensures ValidateLeaderElection(c) == ElectorValidate(ElectorDefaults(c.election))
    ensures ElectorDefaults(c.election) == c.election
  {
  }

  /** An accepted configuration needs no default and trips no later check: every ticker gets a
      positive period, the cache policy is configured, and 0 < retry < renew < lease. */
  lemma AcceptedIsSafe(c: Settings)
    requires Accepted(c) && forall i :: 0 <= i < 10 ==> IsInt64(Durations(c)[i])
    ensures Policy(c.jwksTTL, c.jwksMaxAge).Configured() && c.pollInterval > 0
    ensures RunnerDefaults(c.startTimeout, c.shutdownTimeout, c.pollInterval)
            == (c.startTimeout, c.shutdownTimeout, c.pollInterval)
    ensures c.electionEnabled ==> ElectorValidate(ElectorDefaults(c.election)).None?
                                  && 0 < c.election.retry < c.election.renew < c.election.lease
  {
    assert IsInt64(Durations(c)[0]) && IsInt64(Durations(c)[1]);
    if c.electionEnabled {
      ValidatorsAgree(c);
    }
  }

  /** But it says nothing about the sum of the two cache durations: an accepted configuration may make
      the stale window overflow (see PromisesHoldExactlyWhenWindowFits). */
  lemma AcceptedMayOverflow() returns (c: Settings)
    ensures Accepted(c) && (forall i :: 0 <= i < 10 ==> IsInt64(Durations(c)[i]))
    ensures !Policy(c.jwksTTL, c.jwksMaxAge).Fits()
  {
    var huge := INT64_LIMIT - 1;
    c := Settings(huge, huge, 1, 1, 1, 1, 1, false, Election("", "", "", 3, 2, 1));
  }
}
