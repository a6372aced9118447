/** What an observer sees of one run of the Funnel runner: the calls it makes on servers, the
    minter, the clock and the readiness signal, in order. `Conforms` is the run-time discipline,
    stated one event at a time over small summaries of the past; module RunnerLaws turns it into
    statements about positions in the whole history, which `Runner.Run` then guarantees. */
module RunnerTrace {
  import opened Wrappers
  import opened GoTime

  const RUNNING := "Running"
  const NEEDS_LOGIN := "NeedsLogin"

  // Backoff constants, in nanoseconds.
  const BACKOFF_BASE: int := 100_000_000
  const BACKOFF_MAX: int := 30_000_000_000

  /** How the result of a serve goroutine reaches the main loop: after a shutdown, which discards it,
      or on its own, with http.ErrServerClosed or with another error. */
  datatype Receipt = Drained | EndedClean | EndedBadly

  /** Servers are named by the order in which the factory built them. */
  datatype Event =
    | Iteration                               // the check at the top of the loop let an iteration begin
    | Built(id: nat)                          // factory()
    | KeySet(id: nat, key: string)            // SetAuthKey
    | StartCalled(id: nat, ok: bool)          // Start returned
    | Probed(id: nat, state: string)          // BackendState, called by the main loop
    | CertsRead(id: nat, ok: bool, domains: seq<string>)
    | ServeCycle(id: nat)                     // handleServe entered
    | Listened(id: nat, ok: bool)             // ListenFunnel returned
    | ServeSpawned(id: nat)                   // the http.Serve goroutine starts
    | ServeReceived(id: nat, how: Receipt)    // its result is received
    | Ready(up: bool)                         // SetPublicReady
    | WatchStarted(id: nat)                   // the watcher goroutine starts
    | FlipSeen(id: nat)                       // the watcher's channel was found closed
    | DoneSeen(id: nat)                       // the context was found done while serving
    | ShutdownCalled(id: nat)                 // http.Server.Shutdown
    | Closed(id: nat)
    | Minted(ok: bool, key: string)
    | Slept(delay: int)                       // a backoff timer of this length was armed
    | BackoffReset
    | Cancelled                               // the context was cancelled, at any moment
    | WatchPolled(id: nat, state: string)     // BackendState, called by a watcher goroutine
    | Exited(fatal: bool)                     // Run returned; fatal = with the mismatch error

  // ----- Five small summaries of a history, each with the events it allows next -----

  datatype Life = Life(
    built: nat,              // servers built so far; the newest is built - 1
    open: bool,              // the newest server is not closed
    startCalled: bool,       // Start was called on the newest server
    keyed: bool,             // the newest server was given a key that is not empty
    spawned: bool,           // a serve goroutine was started on the newest server
    exited: bool)
  {
    predicate Newest(id: nat) { open && id + 1 == built }
  }

  ghost function LifeStep(l: Life, e: Event): Life {
    if e.Built? then Life(l.built + 1, true, false, false, false, l.exited)
    else if e.KeySet? then l.(keyed := e.key != "")
    else if e.StartCalled? then l.(startCalled := true)
    else if e.ServeSpawned? then l.(spawned := true)
    else if e.Closed? then l.(open := false)
    else if e.Exited? then l.(exited := true)
    else l
  }

  ghost predicate LegalLife(l: Life, e: Event) {
    && !l.exited
    && (e.Built? ==> e.id == l.built && !l.open)
    && (OnServer(e) ==> l.Newest(e.id))
    && (e.KeySet? ==> !l.startCalled)
    && (e.ServeSpawned? ==> !l.spawned)
    && (e.WatchPolled? ==> e.id < l.built)   // a watcher may outlive its server
    && (e.Exited? ==> !l.open)
  }

  /** What the main loop does to a server, other than building it. */
  predicate OnServer(e: Event) {
    e.KeySet? || e.StartCalled? || e.Probed? || e.CertsRead? || e.ServeCycle? || e.Listened?
    || e.ServeSpawned? || e.ServeReceived? || e.WatchStarted? || e.FlipSeen? || e.DoneSeen? || e.ShutdownCalled?
    || e.Closed?
  }

  /** One serve goroutine: spawned, announced by the signal, watched, perhaps to be stopped and then
      told so, received. */
  datatype Phase = NotServing | Spawned | Announced | Watched | Stopping | ShutDown

  datatype Serve = Serve(
    tried: bool,             // Start was called in this iteration, on the newest server
    started: bool,           // ... and succeeded
    running: bool,           // ... and a later probe said Running
    hostSeen: bool,          // ... and then the certificate domains held the expected host
    due: bool,               // a serve cycle was entered, and neither refused nor a listener asked for
    listened: bool,          // ... and then a listener was opened, not yet handed to a goroutine
    phase: Phase,            // of the serve goroutine whose result is outstanding
    ready: bool,             // the public-ready signal
    mismatch: bool)          // the last domains read lacked the expected host
  {
    predicate Serving() { phase != NotServing }
  }

  const IDLE := Serve(false, false, false, false, false, false, NotServing, false, false)

  /** What was established about a server is forgotten with the iteration, the server or its Start. */
  predicate Forgets(e: Event) { e.Iteration? || e.Built? || e.StartCalled? }

  ghost predicate ShowsHost(host: string, e: Event) { e.CertsRead? && e.ok && host in e.domains }

  ghost predicate LacksHost(host: string, e: Event) { e.CertsRead? && e.ok && host !in e.domains }

  ghost function PhaseStep(p: Phase, e: Event): Phase {
    match e
    case ServeSpawned(_) => Spawned
    case Ready(up) => if up then Announced else p
    case WatchStarted(_) => Watched
    case FlipSeen(_) => Stopping
    case DoneSeen(_) => Stopping
    case ShutdownCalled(_) => ShutDown
    case ServeReceived(_, _) => NotServing
    case _ => p
  }

  ghost function ServeStep(host: string, s: Serve, e: Event): Serve {
    Serve(
      tried := e.StartCalled? || (s.tried && !Forgets(e)),
      started := if e.StartCalled? then e.ok else s.started && !Forgets(e),
      running := !Forgets(e) && (s.running || (s.started && e.Probed? && e.state == RUNNING)),
      hostSeen := if e.CertsRead? then ShowsHost(host, e) else s.hostSeen && !Forgets(e),
      due := e.ServeCycle? || (s.due && !Forgets(e) && !e.Listened? && (e.CertsRead? ==> ShowsHost(host, e))),
      listened := if e.Listened? then e.ok else s.listened && !Forgets(e) && !e.ServeSpawned?,
      phase := PhaseStep(s.phase, e),
      ready := if e.Ready? then e.up else s.ready,
      mismatch := if e.CertsRead? then LacksHost(host, e) else s.mismatch)
  }

  ghost predicate LegalServe(host: string, s: Serve, e: Event) {
    && (s.mismatch ==> AfterMismatch(e))
    && (NeverWhileReady(e) ==> !s.ready)
    && (NeverWhileServing(e) ==> !s.Serving())
    && (NeverWhileDue(e) ==> !s.due && !s.listened)
    && (e.CertsRead? || e.Listened? ==> !s.listened)
    && (e.Probed? ==> s.tried)
    && (e.CertsRead? ==> s.running && host != "")
    && (e.ServeCycle? ==> s.running)
    && (e.Listened? || e.ServeSpawned? ==> s.running && (host == "" || s.hostSeen))
    && (e.ServeSpawned? ==> s.listened)
    && (e == Ready(true) ==> s.phase == Spawned)
    && (e.WatchStarted? ==> s.phase == Announced)
    && (e.FlipSeen? || e.DoneSeen? ==> s.phase == Watched)
    && (e.ShutdownCalled? ==> s.phase == Stopping)
    && (e.ServeReceived? ==> s.phase == if e.how == Drained then ShutDown else Watched)
    && (e == Exited(true) ==> s.mismatch)
  }

  /** All that may still happen once the domains read lacked the expected host. */
  predicate AfterMismatch(e: Event) { e.Closed? || e == Exited(true) || e.Cancelled? || e.WatchPolled? }

  /** The loop may not go on, or give the server up, before it has served as it began to. */
  predicate NeverWhileDue(e: Event) { e.Iteration? || e.Built? || e.StartCalled? || e.Closed? || e.Exited? }

  /** Operations during which the process must not advertise the public endpoint. */
  predicate NeverWhileReady(e: Event) {
    e.Iteration? || e.Built? || e.KeySet? || e.StartCalled? || e.CertsRead? || e.Listened?
    || e.ShutdownCalled? || e.Closed? || e.Minted? || e.Slept? || e.Exited?
  }

  predicate NeverWhileServing(e: Event) {
    e.Iteration? || e.Built? || e.KeySet? || e.StartCalled? || e.CertsRead? || e.Listened?
    || e.ServeSpawned? || e.Closed? || e.Minted? || e.Slept? || e.Exited?
  }

  datatype Keys = Keys(
    pending: Option<string>, // minted key not yet applied
    owed: bool)              // a key was minted; since then no serve cycle and no failed Start

  ghost function KeysStep(k: Keys, e: Event): Keys {
    if e.Minted? && e.ok then k.(pending := Some(e.key), owed := k.owed || e.key != "")
    else if e.KeySet? then k.(pending := None)
    else if e.ServeCycle? || (e.StartCalled? && !e.ok) then k.(owed := false)
    else k
  }

  ghost predicate LegalKeys(k: Keys, e: Event) {
    && (e.Iteration? || e.StartCalled? || e.Minted? || e.Exited? ==> k.pending.None?)
    && (e.KeySet? ==> k.pending == Some(e.key))
    && (e.Minted? && e.ok ==> !k.owed)
  }

  datatype Pace = Pace(
    sleeps: nat,             // sleeps since the last backoff reset
    progressed: bool,        // this iteration served, minted a key or slept
    served: bool,            // this iteration entered a serve cycle
    minted: bool,            // this iteration minted a key
    failed: bool,            // a failed operation has not been followed by a sleep yet
    asked: bool,             // a probe of this iteration said NeedsLogin
    probed: bool,            // the server was probed since the last Start and the last sleep
    startOk: bool,           // this iteration's last Start succeeded
    up: bool)                // ... and a later probe said Running

  /** The failures that the loop survives by backing off. */
  predicate Failure(e: Event) {
    ((e.CertsRead? || e.Listened? || e.Minted?) && !e.ok) || (e.ServeReceived? && e.how == EndedBadly)
  }

  ghost function PaceStep(p: Pace, e: Event): Pace {
    Pace(
      sleeps := if e.BackoffReset? then 0 else if e.Slept? then p.sleeps + 1 else p.sleeps,
      progressed := !e.Iteration? && (p.progressed || e.ServeCycle? || (e.Minted? && e.ok) || e.Slept?),
      served := !e.Iteration? && (p.served || e.ServeCycle?),
      minted := !e.Iteration? && (p.minted || (e.Minted? && e.ok)),
      failed := !e.Iteration? && !e.Slept? && (p.failed || Failure(e)),
      asked := !e.Iteration? && (p.asked || (e.Probed? && e.state == NEEDS_LOGIN)),
      probed := e.Probed? || (p.probed && !e.Iteration? && !e.Slept? && !e.StartCalled?),
      startOk := if e.StartCalled? then e.ok else p.startOk && !e.Iteration?,
      up := !e.Iteration? && (p.up || (p.startOk && e.Probed? && e.state == RUNNING)))
  }

  ghost predicate LegalPace(p: Pace, e: Event) {
    && (e.Iteration? ==> p.progressed && !p.failed)
    && (e.Minted? ==> p.asked && !p.up)
    && (e.BackoffReset? ==> p.served || p.minted)
    && (e.KeySet? || e.CertsRead? || e.Listened? ==> p.sleeps == 0)
    && (e.Slept? ==> e.delay == Delay(p.sleeps) && (p.served ==> p.sleeps == 0)
                     && (p.failed || (p.probed && !p.asked && !p.up)))
  }

  datatype Stop = Stop(
    cancelled: bool,
    iterations: nat,         // iterations begun
    lateBuilt: bool, lateMint: bool, lateListen: bool,  // such a call was made after cancellation
    logins: set<nat>)        // servers a watcher saw in NeedsLogin

  ghost function StopStep(s: Stop, e: Event): Stop {
    if e.Cancelled? then s.(cancelled := true)
    else if e.Iteration? then s.(iterations := s.iterations + 1)
    else if e.Built? then s.(lateBuilt := s.lateBuilt || s.cancelled)
    else if e.Minted? then s.(lateMint := s.lateMint || s.cancelled)
    else if e.Listened? then s.(lateListen := s.lateListen || s.cancelled)
    else if e.WatchPolled? && e.state == NEEDS_LOGIN then s.(logins := s.logins + {e.id})
    else s
  }

  ghost predicate LegalStop(s: Stop, e: Event) {
    && (e.Cancelled? || e.Iteration? ==> !s.cancelled)
    && (e.Built? ==> s.iterations > 0 && !s.lateBuilt)
    && (e.Minted? ==> !s.lateMint)
    && (e.Listened? ==> !s.lateListen)
    && (e.FlipSeen? ==> s.cancelled || e.id in s.logins)
    && (e.DoneSeen? ==> s.cancelled)
    && (e == Exited(false) ==> s.cancelled)
  }

  ghost function LifeOf(t: seq<Event>): Life {
    if t == [] then Life(0, false, false, false, false, false) else LifeStep(LifeOf(t[..|t| - 1]), t[|t| - 1])
  }
  ghost function ServeOf(host: string, t: seq<Event>): Serve {
    if t == [] then IDLE else ServeStep(host, ServeOf(host, t[..|t| - 1]), t[|t| - 1])
  }
  ghost function KeysOf(t: seq<Event>): Keys {
    if t == [] then Keys(None, false) else KeysStep(KeysOf(t[..|t| - 1]), t[|t| - 1])
  }
  ghost function PaceOf(t: seq<Event>): Pace {
    if t == [] then Pace(0, true, false, false, false, false, false, false, false)
    else PaceStep(PaceOf(t[..|t| - 1]), t[|t| - 1])
  }
  ghost function StopOf(t: seq<Event>): Stop {
    if t == [] then Stop(false, 0, false, false, false, {}) else StopStep(StopOf(t[..|t| - 1]), t[|t| - 1])
  }

  // Each event of the history was allowed by what came before it, aspect by aspect.
  ghost predicate LifeOk(t: seq<Event>) {
    t == [] || (LifeOk(t[..|t| - 1]) && LegalLife(LifeOf(t[..|t| - 1]), t[|t| - 1]))
  }
  ghost predicate ServeOk(host: string, t: seq<Event>) {
    t == [] || (ServeOk(host, t[..|t| - 1]) && LegalServe(host, ServeOf(host, t[..|t| - 1]), t[|t| - 1]))
  }
  ghost predicate KeysOk(t: seq<Event>) {
    t == [] || (KeysOk(t[..|t| - 1]) && LegalKeys(KeysOf(t[..|t| - 1]), t[|t| - 1]))
  }
  ghost predicate PaceOk(t: seq<Event>) {
    t == [] || (PaceOk(t[..|t| - 1]) && LegalPace(PaceOf(t[..|t| - 1]), t[|t| - 1]))
  }
  ghost predicate StopOk(t: seq<Event>) {
    t == [] || (StopOk(t[..|t| - 1]) && LegalStop(StopOf(t[..|t| - 1]), t[|t| - 1]))
  }

  ghost predicate Legal(host: string, t: seq<Event>, e: Event) {
    LegalLife(LifeOf(t), e) && LegalServe(host, ServeOf(host, t), e) && LegalKeys(KeysOf(t), e)
    && LegalPace(PaceOf(t), e) && LegalStop(StopOf(t), e)
  }

  ghost predicate Conforms(host: string, t: seq<Event>) {
    LifeOk(t) && ServeOk(host, t) && KeysOk(t) && PaceOk(t) && StopOk(t)
  }

  lemma Extend(host: string, t: seq<Event>, e: Event)
    requires Conforms(host, t) && Legal(host, t, e)
    ensures Conforms(host, t + [e])
    ensures LifeOf(t + [e]) == LifeStep(LifeOf(t), e)
    ensures ServeOf(host, t + [e]) == ServeStep(host, ServeOf(host, t), e)
    ensures KeysOf(t + [e]) == KeysStep(KeysOf(t), e)
    ensures PaceOf(t + [e]) == PaceStep(PaceOf(t), e)
    ensures StopOf(t + [e]) == StopStep(StopOf(t), e)
  {
    assert (t + [e])[..|t + [e]| - 1] == t;
  }

  lemma {:induction false} LifeAt(t: seq<Event>, i: nat)
    requires LifeOk(t) && i < |t|
    ensures LifeOk(t[..i]) && LegalLife(LifeOf(t[..i]), t[i])
  {
    if i < |t| - 1 {
      LifeAt(t[..|t| - 1], i);
      assert t[..|t| - 1][..i] == t[..i];
    }
  }

  lemma {:induction false} ServeAt(host: string, t: seq<Event>, i: nat)
    requires ServeOk(host, t) && i < |t|
    ensures ServeOk(host, t[..i]) && LegalServe(host, ServeOf(host, t[..i]), t[i])
  {
    if i < |t| - 1 {
      ServeAt(host, t[..|t| - 1], i);
      assert t[..|t| - 1][..i] == t[..i];
    }
  }

  lemma {:induction false} KeysAt(t: seq<Event>, i: nat)
    requires KeysOk(t) && i < |t|
    ensures KeysOk(t[..i]) && LegalKeys(KeysOf(t[..i]), t[i])
  {
    if i < |t| - 1 {
      KeysAt(t[..|t| - 1], i);
      assert t[..|t| - 1][..i] == t[..i];
    }
  }

  lemma {:induction false} PaceAt(t: seq<Event>, i: nat)
    requires PaceOk(t) && i < |t|
    ensures PaceOk(t[..i]) && LegalPace(PaceOf(t[..i]), t[i])
  {
    if i < |t| - 1 {
      PaceAt(t[..|t| - 1], i);
      assert t[..|t| - 1][..i] == t[..i];
    }
  }

  lemma {:induction false} StopAt(t: seq<Event>, i: nat)
    requires StopOk(t) && i < |t|
    ensures StopOk(t[..i]) && LegalStop(StopOf(t[..i]), t[i])
  {
    if i < |t| - 1 {
      StopAt(t[..|t| - 1], i);
      assert t[..|t| - 1][..i] == t[..i];
    }
  }

  // ----- Backoff arithmetic -----

  ghost function Pow2(n: nat): nat { if n == 0 then 1 else 2 * Pow2(n - 1) }

  /** The length of the n-th sleep after a reset: the base, doubled n times, up to the cap. */
  ghost function Delay(n: nat): int { Min(BACKOFF_BASE * Pow2(n), BACKOFF_MAX) }

  lemma DelayDoubles(n: nat)
    ensures Delay(n + 1) == Min(2 * Delay(n), BACKOFF_MAX)
    ensures BACKOFF_BASE <= Delay(n) <= BACKOFF_MAX
  {
    Pow2Positive(n);
  }

  lemma Pow2Positive(n: nat)
    ensures Pow2(n) >= 1
  {
  }
}
