# A verified model of the OIDC proxy

The service publishes one Kubernetes issuer's key set on the public internet through a Tailscale Funnel.
This project models the parts of it that are hard to get right and proves what they guarantee, over every
run, every interleaving and every input. `dafny verify dfyconfig.toml` checks all of it.

| part of the service | files |
|---|---|
| the Funnel runner: build, start, probe, verify, serve, re-authenticate, back off | `RunnerTrace.dfy`, `RunnerLaws.dfy`, `Runner.dfy` |
| the key set: base64url, validation, fetch, cache, metrics copy, public route, refresh loop | `Base64Url.dfy`, `Jwks.dfy`, `Fetcher.dfy`, `JwksCache.dfy`, `JwksMetrics.dfy`, `CacheLaws.dfy`, `Handler.dfy` |
| leader election glue with the readiness flags, and the join of the process with its health server | `Leadership.dfy`, `ProcessJoin.dfy` |
| configuration checks against what the protected components demand | `Config.dfy` |
| Go's 64-bit time arithmetic, and two small datatypes | `GoTime.dfy`, `Wrappers.dfy` |

## How the runner is modelled

`Runner.Run` is the loop as it stands in the source, on classes for the concrete server and the backoff.
The environment is adversarial: every reply of Start, BackendState, CertDomains, ListenFunnel, the minter
and the serve goroutine is arbitrary, every `select` may take any ready case, and before every step the
context may be cancelled and watchers of earlier servers may poll. Each call is recorded in a history.

The discipline is checked one event at a time, over five small summaries of the past (`RunnerTrace`).
`RunnerLaws` shows what the summaries stand for and derives the laws about whole histories; the laws mention
positions in the history only, never a summary. `Runner.Run` guarantees them of every history it produces.

The election glue and the process join are step relations over all interleavings of their goroutines: each
atomic load, store, channel operation and critical section is one step. The key-set pipeline is methods and
classes, proved against functions of the entry and the clock, about which the promises are then proved.

## What the proofs say about the code

Most of what the code and its comments promise holds. Some stronger readings do not, and the model keeps them:

* Configuration bounds neither cache duration from above. Both promises of the cache, bounded staleness and
  usability of a fresh entry, hold exactly when `maxAge + ttl` fits in 64 bits
  (`JwksCache.PromisesHoldExactlyWhenWindowFits`), and an accepted configuration may violate that.
* The cache excludes the instant at which the age equals the window, the gauge includes it; a record made
  exactly at the Unix epoch never ages in the gauge (`JwksMetrics.BoundaryDiffers`, `EpochRecordNeverAges`).
* A marshal failure during a refresh is counted as two failures (`Handler.Run`).
* The error returned after losing leadership need not be the first one reported
  (`Leadership.ReturnedErrorCanDifferFromFirst`). It is the first one exactly when the elector itself did not
  fail and main did not take from the channel the different report of a sender that another had overtaken
  between the mutex and the once (`Leadership.ReturnedErrorIsFirstExactly`).
* The leader flag can stay up after both leadership callbacks have ended, exactly when the started callback
  set it after the stopped one had cleared it. LeaderReady still never answers yes after the stopped callback
  cleared it, because a runner that begins with a cancelled context never raises the ready signal.
* Withdrawing the signal at the start of a serve cycle, and once more when it is over, changes nothing: the
  signal is down at both points (`RunnerLaws.TheoremReadyDiscipline`). Nor does the stopped callback's look at
  the shutdown flag change anything, since the flag is raised only once the context is done.
* The watcher's channel also closes on cancellation, and a watcher may poll a server that is already closed;
  `TheoremFlipsForAReason` and `TheoremServersConserved` are stated accordingly.

## Model

| member | source | states |
|---|---|---|
| `Runner.Run` | internal/tsrunner/runner.go:153-198 | Every history of the loop satisfies all nineteen laws below, returned or not; the returned value is the last event, and when it still runs it has begun the observed number of iterations or is polling a started server that has said nothing to act on. |
| `RunnerLaws.TheoremServersConserved` | internal/tsrunner/runner.go:153-198 | At most one server is open at any point; start, key, probe, verify, listen, serve and close happen only on an open one; no server is built or closed twice; none is open when Run returns, and nothing follows. |
| `RunnerLaws.ReturnedMeansAllClosed` | internal/tsrunner/runner.go:156-160 | Conservation read at the end: in a run that has returned, each server built is closed after that, exactly once. |
| `RunnerLaws.TheoremNoUnverifiedServing` | internal/tsrunner/runner.go:309-348 | Every Funnel listener is opened on a server that, in the same iteration, was started successfully, then probed Running, then (when a host is expected) reported certificate domains that contain it. |
| `RunnerLaws.TheoremCarriedOut` | internal/tsrunner/runner.go:283-496 | What was begun is carried out before the server is closed: an open listener is served, that is, its goroutine is spawned, the signal raised and the result received; a serve cycle asks for a listener, unless the domains could not be read or lacked the host; a reason to stop leads to a shutdown and then to the discarded result. |
| `RunnerLaws.TheoremProbesFollowStart` | internal/tsrunner/runner.go:358-397 | The main loop asks for the state only of a server that it started in the same iteration. |
| `RunnerLaws.TheoremMismatchIsFatal` | internal/tsrunner/runner.go:283-348 | Once the domains lacked the expected host, the loop does nothing more than close the server and return the mismatch, whether or not the context is cancelled meanwhile. |
| `RunnerLaws.TheoremKeysApplied` | internal/tsrunner/runner.go:420-437 | Each minted key is applied exactly once, as the next key event, unless the history ends first, which a returned run does not; each key applied is the one just minted. |
| `RunnerLaws.TheoremKeysBeforeStart` | internal/tsrunner/runner.go:432-437 | No server gets its key after it was started. |
| `RunnerLaws.TheoremMintsSpaced` | internal/tsrunner/runner.go:370-395 | Between two successful mints, the first of a non-empty key, lies a serve cycle or a failed Start: a transient NeedsLogin on a keyed server never mints again. |
| `RunnerLaws.TheoremMintsForLogin` | internal/tsrunner/runner.go:407-427 | The minter is called only in an iteration in which a probe said NeedsLogin and none said Running after a successful Start. |
| `RunnerLaws.TheoremReadyDiscipline` | internal/tsrunner/runner.go:441-496 | Whenever the public signal is up, an open, verified server backs it; it is down at every start, mint, sleep, domain check, listen, shutdown, close and at the return. |
| `RunnerLaws.TheoremServeResultsReceived` | internal/tsrunner/runner.go:462-496 | At most one serve goroutine per server; its result is received once, before the close and after the signal was raised and the watcher started; it is discarded after a shutdown, which needs a reason to stop, and examined only if there was none; reasons are found only while it serves. |
| `RunnerLaws.TheoremReadyOnlyIfBegun` | internal/tsrunner/runner.go:168-171 | The signal is raised only after some iteration began before cancellation; a run given a cancelled context never raises it. |
| `RunnerLaws.TheoremFlipsForAReason` | internal/tsrunner/runner.go:498-529 | A closed watcher channel is acted on only if a watcher saw NeedsLogin on that server, or the context was cancelled; the context is found done only after cancellation. |
| `RunnerLaws.TheoremStopsPromptly` | internal/tsrunner/runner.go:168-198 | After cancellation no iteration begins, and at most one more server is built, one more key minted and one more listener opened. |
| `RunnerLaws.TheoremExitsForAReason` | internal/tsrunner/runner.go:283-348 | A nil return was preceded by cancellation; an error return means that the last domains read, on a successful reply, lacked the expected host. |
| `RunnerLaws.TheoremBackoffLaw` | internal/tsrunner/runner.go:541-567 | The n-th sleep since the last reset lasts min(100ms * 2^n, 30s); after a failed serve cycle exactly the base; the count is zero at every key set, domain check and listen, and is reset only by a serve cycle or a minted key; between two iterations the loop served, minted or slept. |
| `RunnerLaws.TheoremSleepsForAReason` | internal/tsrunner/runner.go:260-304 | Each sleep answers one failed mint, domain read, listen or serve result of the iteration not slept on yet, or gives up on a server that was probed and said neither NeedsLogin nor, when started, Running; no iteration begins before every such failure was slept on. |
| `Runner.NextDelay` | internal/tsrunner/runner.go:548-554 | The stored delay doubles up to the cap, and the 64-bit product never wraps. |
| `Runner.Backoff.Sleep` | internal/tsrunner/runner.go:548-565 | After n sleeps since the reset, the timer is armed for the n-th delay and the stored value is the next one. |
| `Runner.EnsureServer` | internal/tsrunner/runner.go:200-205 | The main loop owns one open server afterwards, new or kept, and it counts as unverified: a stale true never skips the host check. |
| `Runner.StartAndProbe` | internal/tsrunner/runner.go:358-405 | A decision to serve means a successful Start followed by a Running probe; to re-authenticate, a NeedsLogin probe and none Running; to retry, that it was probed and nothing better was heard, or cancellation; a server owed a serve cycle for its key is not given up without cancellation. |
| `Runner.HandleReauth` | internal/tsrunner/runner.go:420-437 | The loop owns one open server afterwards: the old one after a failed mint and a sleep, or a fresh one holding the key. |
| `Runner.VerifyIssuerHost` | internal/tsrunner/runner.go:322-348 | No error exactly when no host is expected or the domains held it; the mismatch error exactly when a successful reply lacked it; any other error is a failure to be slept on. |
| `Runner.WatchForLoginNeeded` | internal/tsrunner/runner.go:501-529 | The channel is closed if a poll said NeedsLogin; and only then, or on cancellation. |
| `Runner.ServeOnce` | internal/tsrunner/runner.go:441-496 | Whatever happens, a listener was asked for, an open one has been served, the signal ends withdrawn and no goroutine is left; an error exactly when the listen or the examined result failed. |
| `Runner.HandleServe` | internal/tsrunner/runner.go:283-304 | Fatal exactly on the host mismatch; every other failure has been slept on, starting from a reset backoff; the serve cycle was carried out. |
| `Runner.RealServer.Start` | internal/tsrunner/tsnet_adapter.go:44-67 | Succeeds exactly when a tsnet server exists or can be created, the deadline has not passed and it starts; one once created stays; the call is recorded with its outcome. |
| `Runner.RealServer.BackendState` | internal/tsrunner/tsnet_adapter.go:91-104 | The tsnet server's reply; the empty state on an error or without a tsnet server, the latter no error. |
| `Runner.RealServer.Close` | internal/tsrunner/tsnet_adapter.go:117-124 | The tsnet server is gone and the server is closed; nothing else changes. |
| `Base64Url.RoundTrip` | internal/oidc/jwks.go:116-121 | Every byte string survives unpadded base64url encoding and decoding. |
| `Base64Url.DecodesToBytesExactly` | internal/oidc/jwks.go:116-121 | A text decodes to at least one byte if and only if it holds only alphabet characters and line breaks, with at least two of the former and not one more than a multiple of four. |
| `Jwks.EncodedKeysAreAccepted` | internal/oidc/jwks.go:97-123 | Completeness: an RSA signing key with any non-empty modulus and exponent, encoded as RFC 7518 asks, passes. |
| `Jwks.AcceptedKeysExactly` | internal/oidc/jwks.go:97-123 | Exactly which keys pass, in terms of their fields' characters. |
| `Jwks.ReasonsExactly` | internal/oidc/jwks.go:97-123 | Each reason for refusal is given exactly when its field is the first, in order, that is at fault. |
| `Jwks.ParseAndValidate` | internal/oidc/jwks.go:68-95 | The loop with its seen-map accepts only 1 to 200 valid keys with distinct kids and returns them in order; an error's index ends a good prefix and its reason is the one that fails there. |
| `Jwks.VerdictIsUnique` | internal/oidc/jwks.go:68-95 | That verdict is complete and exact: acceptance holds if and only if the set is publishable, and the error, with index and reason, is determined by the keys. |
| `Jwks.FirstFailure` | internal/oidc/jwks.go:77-83 | The reported index is the least one at which the prefix fails. |
| `Jwks.AcceptedTwice` | internal/oidc/jwks.go:75-95 | Validating an accepted set again returns the same set. |
| `Fetcher.Fetch` | internal/oidc/fetcher.go:145-175 | Success if and only if the reply has status 200 and a complete body of at most 1 MiB that decodes to a publishable set, which is returned; each error kind says what was wrong. |
| `JwksCache.FreshnessMeaning` | internal/oidc/cache.go:176-190 | When the window fits, usable means filled and younger than maxAge + ttl, a clock behind the store counting as age zero, and the remainder is what is left of the window, capped at maxAge. |
| `JwksCache.AnswerMeaning` | internal/oidc/cache.go:144-152 | When the window fits: the stored body with what is left of the window, capped at maxAge, in whole seconds; nothing and no-store once the window has passed or if nothing was stored. |
| `JwksCache.OverflowedFreshness` | internal/oidc/cache.go:176-190 | When it overflows: usable exactly if the age, as far as a Duration can tell, exceeds maxAge + ttl - 2^63. |
| `JwksCache.PromisesHoldExactlyWhenWindowFits` | internal/oidc/cache.go:171-189 | Bounded staleness, and usability of a fresh entry, each hold if and only if maxAge + ttl does not overflow. |
| `JwksCache.AdvertisedWithinWindow` | internal/oidc/cache.go:171-189 | Reading time plus the advertised max-age never passes updatedAt + maxAge + ttl, whatever the clock reads. |
| `JwksCache.AdvertisedNeverGrows` | internal/oidc/cache.go:144-152 | Between stores the advertised max-age never increases and an expired entry stays expired. |
| `JwksCache.Cache.Current` | internal/oidc/cache.go:144-152 | In terms of the stored fields: the body with min(what is left of the window, maxAge) in whole seconds exactly while it is stored and younger than the window, and otherwise no body and no-store. |
| `JwksCache.Cache.Refresh` | internal/oidc/cache.go:110-140 | A fetch failure exactly when the reply is not acceptable, a marshal failure exactly when its keys cannot be marshalled, and then nothing changes; otherwise the marshalled keys are stored at the given time and their number is reported. |
| `CacheLaws.EntryIsLastStore` | internal/oidc/cache.go:134-140 | After any run of attempts the entry is what the last successful one stored. |
| `CacheLaws.DroppedKeysExpire` | internal/oidc/cache.go:168-190 | A key set dropped upstream is out of use in every compliant downstream cache before drop + fetch latency + maxAge + ttl. |
| `CacheLaws.FailsClosed` | internal/oidc/cache.go:144-190 | With no store for maxAge + ttl the answer is empty and no-store; the next store is served at once. |
| `CacheLaws.PrefixIsRegular` | internal/oidc/cache.go:83-108 | Every beginning of such a run is such a run. |
| `CacheLaws.RegularRunsStayReady` | internal/oidc/cache.go:53-132 | After priming, with attempts at most a gap apart and at most k failures in a row, the cache is ready at every instant between two attempts, and for a gap after the last, when (k + 1) gaps are shorter than maxAge + ttl. |
| `CacheLaws.AvailabilityExactly` | internal/oidc/cache.go:171-190 | That inequality is the exact condition: otherwise some such run expires. |
| `JwksMetrics.CacheAndGaugeAgree` | internal/metrics/metrics.go:404-436 | Once the store is recorded, a ready cache shows jwks_ready 1; the gauge shows 1 exactly while the cache's age is at most the window plus the delay of the record, or for ever if the window is the longest duration. |
| `JwksMetrics.NothingToShow` | internal/metrics/metrics.go:410-443 | Without a record or a window every gauge shows 0, and keys are counted only while jwks_ready is 1. |
| `JwksMetrics.AgeShown` | internal/metrics/metrics.go:410-423 | The age shown is the time since the record, never negative. |
| `JwksMetrics.BoundaryDiffers` | internal/metrics/metrics.go:432-434 | At the age equal to the window the gauge is 1 and the cache is not ready. |
| `JwksMetrics.EpochRecordNeverAges` | internal/metrics/metrics.go:414-417 | A record made at the epoch shows 1 for ever. |
| `Handler.HandleJWKS` | internal/oidc/handler.go:94-106 | With any refreshes between the two reads, a 200 carries the body and header of one fresh snapshot, the marshalling of an acceptable reply's key set; otherwise, exactly when one of the reads finds the cache stale, a 503 with no-store. |
| `Handler.Run` | internal/oidc/cache.go:83-132 | Over any run of ticks the entry follows the attempts, the gauges hold the record of the last success with the number of its keys and never lag the cache, every success and stale serving is counted once, every failure once and a marshal failure twice. |
| `Leadership.ScheduleKeeps` | cmd/oidc-proxy/ha.go:28-104 | The invariants hold after every schedule of the goroutines. |
| `Leadership.NilOnlyWhenCancelled` | cmd/oidc-proxy/ha.go:91-103 | nil is returned only after cancellation; any error returned was reported by a callback or is the elector's own failure. |
| `Leadership.AnswerFollowsCase` | cmd/oidc-proxy/ha.go:91-103 | What is returned follows from the case taken: the context, nil; the error channel, the winner's report, received once; the elector, its own failure, else nil if the context was done at the receipt, else the first report unless the context ended in that moment. |
| `Leadership.MainCanMove` | cmd/oidc-proxy/ha.go:91-103 | Main can take every ready case, cancellation above all, and go on from every later state. |
| `Leadership.RunnerFailureIsReported` | cmd/oidc-proxy/ha.go:54-65 | The public runner runs unless its context was done; the error it ends with, unless that is the cancellation, is reported while its context is live; nothing else is ever reported in its name. |
| `Leadership.GracefulStopIsSilent` | cmd/oidc-proxy/ha.go:66-79 | Once the context is done before the stopped callback has looked at it, no later state of any extension holds a report of lost leadership by that callback. |
| `Leadership.StoppedRunnerIsSilent` | cmd/oidc-proxy/ha.go:61-64 | A public runner still going when its context ends is never reported, whatever it returns. |
| `Leadership.StandbyReportsNothing` | cmd/oidc-proxy/ha.go:66-103 | A replica that never led has reported nothing, and returns nil or the elector's own failure. |
| `Leadership.LostLeadershipIsReported` | cmd/oidc-proxy/ha.go:66-103 | When the elector has ended without failing and the context is live, an error is recorded; main has returned an error or can move from wherever it is, every move brings it closer to its return, and the return carries an error. |
| `Leadership.SendersNeverBlock` | cmd/oidc-proxy/ha.go:28-44 | At most one send on the error channel, exactly one once any sender is through; every caller of sendErr can move, or waits for one that is about to send and can; no other step of the callbacks blocks. |
| `Leadership.LeaderReadyIsAtomic` | cmd/oidc-proxy/state.go:58-66 | A yes from LeaderReady means that the key set was ready and both flags were up at the instant it loaded publicReady; a no, that one of the three was down when it looked. |
| `Leadership.NeverLeaderReadyAfterStop` | cmd/oidc-proxy/ha.go:54-79 | Once the stopped callback has cleared the leader flag, no LeaderReady evaluation comes to answer yes, even if a runner shutting down raises the signal again. |
| `Leadership.FlagsOutsideRunner` | cmd/oidc-proxy/ha.go:54-79 | publicReady is up exactly when the runner last raised it and the stopped callback has not cleared it since, so never outside the runner; the leader flag is up exactly when set and not cleared, or set late. |
| `Leadership.LeaderFlagCanOutliveBoth` | cmd/oidc-proxy/ha.go:54-68 | A schedule after which both callbacks have ended and the leader flag is still up. |
| `Leadership.ReturnedErrorIsFirstExactly` | cmd/oidc-proxy/ha.go:32-103 | In every interleaving an error returned is the first one reported if and only if the elector did not fail by itself and main did not receive, on the channel, a different report from a sender that was not the first; and it is always the winner's report, the first report or the elector's own failure, in which case nothing was reported. |
| `Leadership.ReturnedErrorCanDifferFromFirst` | cmd/oidc-proxy/ha.go:36-43 | A schedule in which that condition fails: the error returned is not the first one reported. |
| `ProcessJoin.FirstErr` | cmd/oidc-proxy/main.go:380-387 | The loop computes the first error of a list. |
| `ProcessJoin.FirstMeaning` | cmd/oidc-proxy/main.go:380-387 | None exactly when all are nil; otherwise the earliest. |
| `ProcessJoin.FirstTakenWins` | cmd/oidc-proxy/main.go:316-339 | At every point of every schedule the combined error is the first among the results that the schedule itself has taken, in its order. |
| `ProcessJoin.JoinedExactlyOnce` | cmd/oidc-proxy/main.go:296-340 | In every arrival order what the runner sent and what the health server sent are each taken once, besides the failure of the one shutdown if and only if it failed; the result is the first error in the order taken, nil exactly when none contributed. |
| `ProcessJoin.NeverStuck` | cmd/oidc-proxy/main.go:316-340 | No schedule is longer than seven steps; main can move unless it has returned or waits for a task still running, one that was told to stop or both before any ended; everything was told to stop when it returns. |
| `Config.ValidateDurations` | internal/config/config.go:220-245 | Accepts exactly when all ten named durations are positive and the refresh interval is at least 5s; a complaint names the first offender in order. |
| `Config.ElectionErrorsExactly` | internal/config/config.go:247-275 | Which election settings pass, and which complaint belongs to which first defect. |
| `Config.ValidatorsAgree` | internal/leader/elector.go:37-95 | With positive durations the configuration and the elector, after its defaults, reject for the same reason, and the defaults change nothing. |
| `Config.AcceptedIsSafe` | internal/config/config.go:220-275 | An accepted configuration trips no later check, needs no default, gives every ticker a positive period and has 0 < retry < renew < lease. |
| `Config.AcceptedMayOverflow` | internal/config/config.go:220-245 | An accepted configuration whose stale window overflows. |

## Left out

- Run: observed for an arbitrary number of iterations, and each probe loop and watcher for an arbitrary number of polls; that a probe loop ends is not claimed, since with an auth key it has no timeout and without one it needs a fair select.
- StartAndProbe: its reply `cut` stands for an observation that ends while the probe loop still polls.
- SetAuthKey: the copy of the key inside an existing tsnet server is not modelled; the runner keys only servers that have none.
- Leadership: the glue, the flags and the goroutines are one state value with interleaved steps instead of objects; one LeaderReady evaluation is in flight at a time; the metrics' copies of the flags are left out.
- Leadership: the election library's contract is assumed: the started callback runs at most once, the stopped one before leader.Run returns nil, and after the run context was cancelled.
- Leadership: the runner is abstracted to what RunnerLaws proves of it, namely that it begins only with a live context and returns with the signal down; main does not wait for it, and neither does the model.
- Ready, and LeaderReady without election: short combinations of the same flags.
- ProcessJoin: startHealthServer's early return on a listen failure; nothing has been started then.
- Fetch: the transport, TLS, the token file and JSON are environment; decoding is an arbitrary partial function of the body and marshalling one of the key set, so nothing is claimed about trailing data. A read that delivers bytes and fails at once counts as two reads, which matters only to the error kind at the size limit.
- Prime: its store is Refresh; its own two counters are left out.
- CacheAndGaugeAgree: ages are compared in nanoseconds instead of floating-point seconds, and the three atomic stores of a record are one step.
- Current: the advertised seconds are the floor of the remaining nanoseconds, without floating-point rounding.
- Validate: the removed variables, issuer URL, production requirements and allowlist checks; only durations and election settings are modelled.
- Lease mutual exclusion between pods, OAuth minting, tsnet and the state secret: outside the repository or behind arbitrary replies.
- Discovery document, source-address allowlist, logging, metric registration, environment loading: easy members only.
