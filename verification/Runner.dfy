/** The Funnel runner (internal/tsrunner/runner.go) and its concrete server
    (internal/tsrunner/tsnet_adapter.go). Everything outside the process is adversarial: replies
    are arbitrary, and before any step the context may be cancelled and left-over watchers may
    poll. Every call is recorded in a ghost history. */
module Runner {
  import opened Wrappers
  import opened GoTime
  import opened RunnerTrace
  import opened RunnerLaws

  datatype ServeError = Nil | Mismatch | Other
  datatype Action = ActionServe | ActionReauth | ActionRetry
  datatype Outcome = ReturnedNil | ReturnedMismatch | StillRunning

  /** What ends the wait of a serve cycle: the case of its select that was taken. */
  datatype ServeWake = CtxDone | ChannelClosed | Result(clean: bool)

  /** One turn of the watcher: whether it takes its context, if that is done, before its tick; and how
      the server answers. */
  datatype Poll = Poll(takeDone: bool, reply: Option<string>)

  predicate SaysLogin(poll: Poll) { poll.reply == Some(NEEDS_LOGIN) }

  /** A history together with its summaries. */
  datatype Book = Book(host: string, trace: seq<Event>, life: Life, serve: Serve, keys: Keys, pace: Pace, stop: Stop)

  ghost predicate Sound(b: Book) {
    && Conforms(b.host, b.trace)
    && b.life == LifeOf(b.trace) && b.serve == ServeOf(b.host, b.trace) && b.keys == KeysOf(b.trace)
    && b.pace == PaceOf(b.trace) && b.stop == StopOf(b.trace)
  }

  ghost function Blank(host: string): Book {
    Book(host, [], LifeOf([]), ServeOf(host, []), KeysOf([]), PaceOf([]), StopOf([]))
  }

  /** The histories that keep the discipline. */
  type History = b: Book | Sound(b) ghost witness Blank("")

  ghost predicate Allows(h: Book, e: Event) {
    && LegalLife(h.life, e) && LegalServe(h.host, h.serve, e) && LegalKeys(h.keys, e)
    && LegalPace(h.pace, e) && LegalStop(h.stop, e)
  }

  ghost predicate Stepped(h: Book, e: Event, h': Book) {
    && h'.life == LifeStep(h.life, e) && h'.serve == ServeStep(h.host, h.serve, e)
    && h'.keys == KeysStep(h.keys, e) && h'.pace == PaceStep(h.pace, e)
  }

  ghost function Record(h: History, e: Event): (h': History)
    requires Allows(h, e)
    ensures h'.host == h.host && h'.trace == h.trace + [e] && Stepped(h, e, h') && h'.stop == StopStep(h.stop, e)
  {
    Extend(h.host, h.trace, e);
    Book(h.host, h.trace + [e], LifeStep(h.life, e), ServeStep(h.host, h.serve, e), KeysStep(h.keys, e),
         PaceStep(h.pace, e), StopStep(h.stop, e))
  }

  /** What other goroutines may change between two steps: cancellation and watcher sightings. */
  ghost predicate StopGrew(s: Stop, s': Stop) {
    s' == s.(cancelled := s'.cancelled, logins := s'.logins) && (s.cancelled ==> s'.cancelled) && s.logins <= s'.logins
  }

  ghost predicate SameButStop(h: Book, h': Book) {
    && h'.life == h.life && h'.serve == h.serve && h'.keys == h.keys && h'.pace == h.pace && StopGrew(h.stop, h'.stop)
    && h.trace <= h'.trace
  }

  /** Nothing changed but that a failure may now call for a sleep. */
  ghost predicate Failing(p: Pace, now: bool, p': Pace) {
    p' == p.(failed := p'.failed) && p'.failed == (p.failed || now)
  }

  /** No serve cycle is under way and the host was not refused. */
  ghost predicate AtRest(s: Serve) { !s.due && !s.listened && !s.mismatch }

  ghost predicate Late(s: Stop) { s.lateBuilt || s.lateMint || s.lateListen }

  /** What one call adds to the record of calls made after cancellation. */
  ghost predicate LateAfter(s: Stop, e: Event, s': Stop) {
    && (s.cancelled ==> s'.cancelled) && s.logins <= s'.logins && s'.iterations == s.iterations
    && s'.lateBuilt == (s.lateBuilt || (e.Built? && s'.cancelled))
    && s'.lateMint == (s.lateMint || (e.Minted? && s'.cancelled))
    && s'.lateListen == (s.lateListen || (e.Listened? && s'.cancelled))
  }

  /** What the events of a serve goroutine's life change: its phase, and the failure it may end with. */
  lemma PhaseEffect(h: Book, e: Event, h': Book)
    requires Stepped(h, e, h')
    requires e.WatchStarted? || e.FlipSeen? || e.DoneSeen? || e.ShutdownCalled? || e.ServeReceived?
    ensures h'.life == h.life && h'.keys == h.keys && h'.serve == h.serve.(phase := PhaseStep(h.serve.phase, e))
    ensures Failing(h.pace, e.ServeReceived? && e.how == EndedBadly, h'.pace)
  {
  }

  lemma MintEffect(h: Book, ok: bool, key: string, h': Book)
    requires Stepped(h, Minted(ok, key), h')
    ensures h'.life == h.life && h'.serve == h.serve
    ensures h'.keys == if ok then Keys(Some(key), h.keys.owed || key != "") else h.keys
    ensures h'.pace == if ok then h.pace.(progressed := true, minted := true) else h.pace.(failed := true)
  {
  }

  /** The context the run was given, and the history of the run. */
  class World {
    const host: string        // the expected issuer host; "" disables the check
    var cancelled: bool
    ghost var h: History

    ghost predicate Valid()
      reads this
    {
      h.host == host && h.stop.cancelled == cancelled && (Late(h.stop) ==> cancelled)
      && (h.life.built > 0 ==> h.stop.iterations > 0)
    }

    constructor (host: string)
      ensures Valid() && this.host == host && h == Blank(host)
    {
      this.host, cancelled, h := host, false, Blank(host);
    }

    /** Watchers of servers built earlier poll them, any number of times. */
    ghost method WatchersPoll()
      requires Valid() && !h.life.exited
      modifies this`h
      ensures Valid() && SameButStop(old(h), h)
    {
      hide Sound;
      var polls: nat :| polls >= 0;
      for _ := 0 to polls
        invariant Valid() && SameButStop(old(h), h)
      {
        var id: nat, state: string := *, *;
        if id < h.life.built {
          h := Record(h, WatchPolled(id, state));
        }
      }
    }

    /** Other goroutines run: watchers poll, and the context may be cancelled. */
    method Interfere()
      requires Valid() && !h.life.exited
      modifies this
      ensures Valid() && SameButStop(old(h), h)
    {
      hide Sound;
      WatchersPoll();
      var cancel: bool := *;
      if cancel && !cancelled {
        cancelled := true;
        h := Record(h, Cancelled);
      }
    }

    /** A watcher polls the server it was started for. */
    method WatcherPolls(ghost id: nat, state: string)
      requires Valid() && !h.life.exited && id < h.life.built
      modifies this
      ensures Valid() && SameButStop(old(h), h)
      ensures state == NEEDS_LOGIN ==> id in h.stop.logins
    {
      hide Sound;
      Interfere();
      h := Record(h, WatchPolled(id, state));
    }

    /** One call made by the main loop, after arbitrary interference. */
    method Emit(ghost e: Event)
      requires Valid() && Allows(h, e)
      requires !e.Cancelled? && !e.WatchPolled? && !e.Iteration?
      modifies this
      ensures Valid() && Stepped(old(h), e, h) && LateAfter(old(h.stop), e, h.stop)
      ensures old(h.trace) < h.trace && h.trace[|h.trace| - 1] == e
    {
      hide Sound;
      Interfere();
      h := Record(h, e);
    }

    /** Raise or withdraw the public-ready signal. */
    method SetPublicReady(up: bool)
      requires Valid() && !h.life.exited
      requires !h.serve.mismatch && (up ==> h.serve.phase == Spawned)
      modifies this
      ensures Valid() && h.life == old(h.life) && h.keys == old(h.keys) && h.pace == old(h.pace)
      ensures h.serve == old(h.serve).(ready := up, phase := if up then Announced else old(h.serve.phase))
      ensures StopGrew(old(h.stop), h.stop)
    {
      hide Sound;
      Emit(Ready(up));
    }

    /** Start the goroutine that serves on the open listener. */
    method SpawnServe(ghost id: nat)
      requires Valid() && Allows(h, ServeSpawned(id))
      modifies this
      ensures Valid() && h.life == old(h.life).(spawned := true) && h.keys == old(h.keys) && h.pace == old(h.pace)
      ensures h.serve == old(h.serve).(phase := Spawned, listened := false) && StopGrew(old(h.stop), h.stop)
    {
      hide Sound;
      Emit(ServeSpawned(id));
    }

    /** The minter is asked for a key. */
    method Mint(ok: bool, key: string)
      requires Valid() && Allows(h, Minted(true, key)) && Allows(h, Minted(false, key))
      modifies this
      ensures Valid() && h.life == old(h.life) && h.serve == old(h.serve)
      ensures LateAfter(old(h.stop), Minted(ok, key), h.stop)
      ensures h.keys == if ok then Keys(Some(key), old(h.keys.owed) || key != "") else old(h.keys)
      ensures h.pace == if ok then old(h.pace).(progressed := true, minted := true) else old(h.pace).(failed := true)
    {
      hide Sound;
      Emit(Minted(ok, key));
      MintEffect(old(h), ok, key, h);
    }

    /** The watcher goroutine starts. */
    method StartWatch(ghost id: nat)
      requires Valid() && !h.life.exited && h.life.Newest(id) && h.serve.phase == Announced && !h.serve.mismatch
      modifies this
      ensures Valid() && h.life == old(h.life) && h.keys == old(h.keys) && h.pace == old(h.pace)
      ensures h.serve == old(h.serve).(phase := Watched) && StopGrew(old(h.stop), h.stop)
    {
      hide Sound;
      Emit(WatchStarted(id));
      PhaseEffect(old(h), WatchStarted(id), h);
    }

    /** The select of a serve cycle. Any ready case may be taken; the result of the serve goroutine may
        be ready at any time. */
    method AwaitServe(ghost id: nat, channelClosed: bool) returns (wake: ServeWake)
      requires Valid() && !h.life.exited && h.life.Newest(id) && h.serve.phase == Watched && !h.serve.mismatch
      requires channelClosed ==> cancelled || id in h.stop.logins
      modifies this
      ensures Valid() && h.life == old(h.life) && h.keys == old(h.keys) && StopGrew(old(h.stop), h.stop)
      ensures wake.CtxDone? ==> cancelled
      ensures wake.ChannelClosed? ==> channelClosed
      ensures Failing(old(h.pace), wake == Result(false), h.pace)
      ensures h.serve == old(h.serve).(phase := if wake.Result? then NotServing else Stopping)
    {
      hide Sound;
      Interfere();
      wake := *;
      if (wake.CtxDone? && !cancelled) || (wake.ChannelClosed? && !channelClosed) {
        var clean: bool := *;
        wake := Result(clean);
      }
      RecordWake(id, wake);
    }

    ghost method RecordWake(id: nat, wake: ServeWake)
      requires Valid() && !h.life.exited && h.life.Newest(id) && h.serve.phase == Watched && !h.serve.mismatch
      requires wake.CtxDone? ==> cancelled
      requires wake.ChannelClosed? ==> cancelled || id in h.stop.logins
      modifies this`h
      ensures Valid() && h.life == old(h.life) && h.keys == old(h.keys) && StopGrew(old(h.stop), h.stop)
      ensures Failing(old(h.pace), wake == Result(false), h.pace)
      ensures h.serve == old(h.serve).(phase := if wake.Result? then NotServing else Stopping)
    {
      hide Sound;
      var e := match wake
        case CtxDone => DoneSeen(id)
        case ChannelClosed => FlipSeen(id)
        case Result(clean) => ServeReceived(id, if clean then EndedClean else EndedBadly);
      var h' := Record(h, e);
      PhaseEffect(h, e, h');
      h := h';
    }

    /** Shut the HTTP server down. */
    method Shutdown(ghost id: nat)
      requires Valid() && !h.life.exited && h.life.Newest(id) && h.serve.phase == Stopping
      requires !h.serve.ready && !h.serve.mismatch
      modifies this
      ensures Valid() && h.life == old(h.life) && h.keys == old(h.keys) && h.pace == old(h.pace)
      ensures h.serve == old(h.serve).(phase := ShutDown) && StopGrew(old(h.stop), h.stop)
    {
      hide Sound;
      Emit(ShutdownCalled(id));
      PhaseEffect(old(h), ShutdownCalled(id), h);
    }

    /** Receive the result of the goroutine that was told to stop, and discard it. */
    method Drain(ghost id: nat)
      requires Valid() && !h.life.exited && h.life.Newest(id) && h.serve.phase == ShutDown && !h.serve.mismatch
      modifies this
      ensures Valid() && h.life == old(h.life) && h.keys == old(h.keys) && h.pace == old(h.pace)
      ensures h.serve == old(h.serve).(phase := NotServing) && StopGrew(old(h.stop), h.stop)
    {
      hide Sound;
      Emit(ServeReceived(id, Drained));
      PhaseEffect(old(h), ServeReceived(id, Drained), h);
    }

    /** Has the context been cancelled by now? */
    method Err() returns (done: bool)
      requires Valid() && !h.life.exited
      modifies this
      ensures Valid() && SameButStop(old(h), h) && done == cancelled
    {
      Interfere();
      done := cancelled;
    }

    /** The check at the top of the loop; when it passes, an iteration begins. */
    method TopCheck() returns (done: bool)
      requires Valid() && !h.life.exited && !h.serve.ready && !h.serve.Serving()
      requires h.keys.pending.None? && h.pace.progressed && !h.pace.failed && AtRest(h.serve)
      modifies this
      ensures Valid() && done == cancelled && old(h.trace) <= h.trace
      ensures done ==> SameButStop(old(h), h)
      ensures !done ==> Stepped(old(h), Iteration, h) && h.stop.iterations == old(h.stop.iterations) + 1
    {
      Interfere();
      done := cancelled;
      if !done {
        BeginIteration();
      }
    }

    ghost method BeginIteration()
      requires Valid() && Allows(h, Iteration)
      modifies this`h
      ensures Valid() && Stepped(old(h), Iteration, h) && old(h.trace) <= h.trace
      ensures h.stop.iterations == old(h.stop.iterations) + 1
    {
      hide Sound;
      h := Record(h, Iteration);
    }
  }

  lemma CertsEffect(h: Book, id: nat, failed: bool, domains: seq<string>, h': Book)
    requires Stepped(h, CertsRead(id, !failed, domains), h')
    ensures h'.life == h.life && h'.keys == h.keys && Failing(h.pace, failed, h'.pace)
    ensures h'.serve == h.serve.(hostSeen := h'.serve.hostSeen, mismatch := h'.serve.mismatch, due := h'.serve.due)
    ensures h'.serve.hostSeen <==> !failed && h.host in domains
    ensures h'.serve.mismatch <==> !failed && h.host !in domains
    ensures h'.serve.due <==> h.serve.due && h'.serve.hostSeen
  {
  }

  /** What a probe's answer changes. */
  ghost predicate Answered(h: Book, state: string, h': Book) {
    && h'.life == h.life && h'.keys == h.keys
    && h'.serve == h.serve.(running := h.serve.running || (h.serve.started && state == RUNNING))
    && h'.pace == h.pace.(asked := h.pace.asked || state == NEEDS_LOGIN, probed := true,
                          up := h.pace.up || (h.pace.startOk && state == RUNNING))
  }

  lemma ProbeEffect(h: Book, id: nat, state: string, h': Book)
    requires Stepped(h, Probed(id, state), h')
    ensures Answered(h, state, h')
  {
  }

  lemma ListenEffect(h: Book, id: nat, ok: bool, h': Book)
    requires Stepped(h, Listened(id, ok), h')
    ensures h'.life == h.life && h'.keys == h.keys && h'.serve == h.serve.(listened := ok, due := false)
    ensures Failing(h.pace, !ok, h'.pace)
  {
  }

  /** The production server: a lazily created tsnet.Server and the key to start it with. */
  class RealServer {
    ghost const id: nat
    var authKey: string
    var srv: bool             // the tsnet.Server exists

    /** A server as the factory makes it: no key, and not started yet. */
    constructor (ghost id: nat)
      ensures this.id == id && authKey == "" && !srv
    {
      this.id, authKey, srv := id, "", false;
    }

    /** Succeeds exactly when there is a tsnet.Server by then, the deadline has not passed, and that
        server starts. */
    method Start(w: World, storeOk: bool, expired: bool, upOk: bool) returns (ok: bool)
      requires w.Valid() && Allows(w.h, StartCalled(id, false)) && Allows(w.h, StartCalled(id, true))
      modifies this`srv, w
      ensures w.Valid() && Stepped(old(w.h), StartCalled(id, ok), w.h) && StopGrew(old(w.h.stop), w.h.stop)
      ensures srv <==> old(srv) || storeOk
      ensures ok <==> srv && !expired && upOk
    {
      hide Sound;
      ok := true;
      if !srv {
        if storeOk {
          srv := true;
        } else {
          ok := false;
        }
      }
      ok := ok && !expired && upOk;
      w.Emit(StartCalled(id, ok));
    }

    /** The reply of the tsnet.Server, or None when asking it fails; without one, the empty state. */
    method BackendState(w: World, reply: Option<string>) returns (state: string, failed: bool)
      requires w.Valid() && w.h.life.Newest(id) && !w.h.life.exited && w.h.serve.tried && !w.h.serve.mismatch
      modifies w
      ensures w.Valid() && Answered(old(w.h), state, w.h) && StopGrew(old(w.h.stop), w.h.stop)
      ensures failed <==> srv && reply.None?
      ensures state == if srv && reply.Some? then reply.value else ""
    {
      hide Sound;
      failed := srv && reply.None?;
      state := if srv && reply.Some? then reply.value else "";
      w.Emit(Probed(id, state));
      ProbeEffect(old(w.h), id, state, w.h);
    }

    /** The domains that the tsnet.Server reports; none without one. */
    method CertDomains(w: World, reply: Option<seq<string>>) returns (domains: seq<string>, failed: bool)
      requires w.Valid() && w.h.life.Newest(id) && !w.h.life.exited && w.h.serve.running && w.host != ""
      requires !w.h.serve.ready && !w.h.serve.Serving() && w.h.pace.sleeps == 0
      requires !w.h.serve.listened && !w.h.serve.mismatch
      modifies w
      ensures w.Valid() && w.h.life == old(w.h.life) && w.h.keys == old(w.h.keys) && StopGrew(old(w.h.stop), w.h.stop)
      ensures failed <==> srv && reply.None?
      ensures domains == if srv && reply.Some? then reply.value else []
      ensures w.h.serve == old(w.h.serve).(hostSeen := w.h.serve.hostSeen, mismatch := w.h.serve.mismatch,
                                           due := w.h.serve.due)
      ensures w.h.serve.hostSeen <==> !failed && w.host in domains
      ensures w.h.serve.mismatch <==> !failed && w.host !in domains
      ensures w.h.serve.due <==> old(w.h.serve.due) && w.h.serve.hostSeen
      ensures Failing(old(w.h.pace), failed, w.h.pace)
    {
      hide Sound;
      failed := srv && reply.None?;
      domains := if srv && reply.Some? then reply.value else [];
      w.Emit(CertsRead(id, !failed, domains));
      CertsEffect(old(w.h), id, failed, domains, w.h);
    }

    method ListenFunnel(w: World, reply: bool) returns (ok: bool)
      requires w.Valid() && Allows(w.h, Listened(id, true)) && Allows(w.h, Listened(id, false))
      modifies w
      ensures w.Valid() && LateAfter(old(w.h.stop), Listened(id, ok), w.h.stop)
      ensures ok <==> srv && reply
      ensures w.h.serve == old(w.h.serve).(listened := ok, due := false)
      ensures w.h.life == old(w.h.life) && w.h.keys == old(w.h.keys)
      ensures Failing(old(w.h.pace), !ok, w.h.pace)
    {
      hide Sound;
      ok := srv && reply;
      w.Emit(Listened(id, ok));
      ListenEffect(old(w.h), id, ok, w.h);
    }

    method SetAuthKey(w: World, key: string)
      requires w.Valid() && Allows(w.h, KeySet(id, key))
      modifies this`authKey, w
      ensures w.Valid() && authKey == key && StopGrew(old(w.h.stop), w.h.stop)
      ensures w.h.life == old(w.h.life).(keyed := key != "")
      ensures w.h.serve == old(w.h.serve) && w.h.pace == old(w.h.pace)
      ensures w.h.keys == old(w.h.keys).(pending := None)
    {
      hide Sound;
      authKey := key;
      w.Emit(KeySet(id, key));
    }

    function HasAuthKey(): bool
      reads this
    {
      authKey != ""
    }

    method Close(w: World)
      requires w.Valid() && Allows(w.h, Closed(id))
      modifies this`srv, w
      ensures w.Valid() && !srv && StopGrew(old(w.h.stop), w.h.stop)
      ensures w.h.life == old(w.h.life).(open := false) && w.h.serve == old(w.h.serve)
      ensures w.h.keys == old(w.h.keys) && w.h.pace == old(w.h.pace)
    {
      hide Sound;
      srv := false;
      w.Emit(Closed(id));
    }
  }

  /** The stored delay doubles up to the cap, and the 64-bit product never wraps. */
  lemma NextDelay(n: nat)
    ensures Min(Int64(Delay(n) * 2), BACKOFF_MAX) == Delay(n + 1)
    ensures Delay(0) == BACKOFF_BASE && Delay(n) > 0
  {
    DelayDoubles(n);
    assert Pow2(0) == 1;
  }

  /** backoffState: exponential, capped, without jitter. */
  class Backoff {
    var current: int

    /** n sleeps have happened since the last reset. */
    ghost predicate At(n: nat)
      reads this
    {
      current == if n == 0 then 0 else Delay(n)
    }

    constructor ()
      ensures At(0)
    {
      current := 0;
    }

    method Sleep(w: World)
      requires w.Valid() && At(w.h.pace.sleeps) && Allows(w.h, Slept(Delay(w.h.pace.sleeps)))
      modifies this, w
      ensures w.Valid() && Stepped(old(w.h), Slept(old(Delay(w.h.pace.sleeps))), w.h)
      ensures StopGrew(old(w.h.stop), w.h.stop)
      ensures At(w.h.pace.sleeps)
    {
      hide Sound;
      NextDelay(w.h.pace.sleeps);
      var d := current;
      if d == 0 {
        d := BACKOFF_BASE;
      }
      current := Min(Int64(d * 2), BACKOFF_MAX);
      w.Emit(Slept(d));
    }

    method Reset(w: World)
      requires w.Valid() && Allows(w.h, BackoffReset)
      modifies this, w
      ensures w.Valid() && Stepped(old(w.h), BackoffReset, w.h) && StopGrew(old(w.h.stop), w.h.stop) && At(0)
    {
      hide Sound;
      current := 0;
      w.Emit(BackoffReset);
    }
  }

  // ----- The loop -----

  /** The newest server is open, nothing is being served, and no minted key waits to be applied. */
  ghost predicate Idle(w: World, server: RealServer)
    reads w
  {
    && w.Valid() && w.h.life.Newest(server.id) && !w.h.life.exited
    && !w.h.serve.ready && !w.h.serve.Serving() && !w.h.serve.listened && w.h.keys.pending.None?
  }

  /** The main loop owns one open server on which it has not served. */
  ghost predicate Owns(w: World, server: RealServer)
    reads w, server
  {
    && Idle(w, server) && !w.h.life.spawned && !w.h.pace.failed && AtRest(w.h.serve)
    && (w.h.life.keyed <==> server.HasAuthKey()) && (w.h.keys.owed ==> w.h.life.keyed)
  }

  /** The main loop owns no server. */
  ghost predicate Free(w: World)
    reads w
  {
    && w.Valid() && !w.h.life.open && !w.h.life.exited
    && !w.h.serve.ready && !w.h.serve.Serving() && w.h.keys.pending.None? && !w.h.keys.owed && !w.h.pace.failed
    && !w.h.serve.due && !w.h.serve.listened
  }

  ghost predicate Holds(w: World, server: RealServer?)
    reads w, server
  {
    if server == null then Free(w) && !w.h.serve.mismatch else Owns(w, server)
  }

  method Factory(w: World) returns (server: RealServer)
    requires w.Valid() && w.h.stop.iterations > 0 && Allows(w.h, Built(w.h.life.built))
    modifies w
    ensures fresh(server) && server.id == old(w.h.life.built) && server.authKey == "" && !server.srv
    ensures w.Valid() && LateAfter(old(w.h.stop), Built(server.id), w.h.stop)
    ensures w.h.life == Life(old(w.h.life.built) + 1, true, false, false, false, false) && AtRest(w.h.serve)
    ensures w.h.serve.ready == old(w.h.serve.ready) && w.h.serve.phase == old(w.h.serve.phase)
    ensures w.h.keys == old(w.h.keys) && w.h.pace == old(w.h.pace)
  {
    hide Sound;
    server := new RealServer(w.h.life.built);
    w.Emit(Built(server.id));
  }

  method EnsureServer(w: World, server: RealServer?, verified: bool) returns (s: RealServer, v: bool)
    requires Holds(w, server) && (server != null ==> !verified) && !Late(w.h.stop) && w.h.stop.iterations > 0
    modifies w
    ensures w.h.stop.iterations == old(w.h.stop.iterations)
    ensures Owns(w, s) && !v && w.h.pace == old(w.h.pace) && (fresh(s) || s == server)
  {
    if server != null {
      return server, verified;
    }
    s := Factory(w);
    v := false;
  }

  function DecideNext(state: string, startErr: bool): Action {
    if state == NEEDS_LOGIN then ActionReauth
    else if startErr || state != RUNNING then ActionRetry
    else ActionServe
  }

  ghost predicate SamePace(p: Pace, p': Pace) {
    p'.sleeps == p.sleeps && p'.served == p.served && p'.minted == p.minted && p'.failed == p.failed
  }

  datatype Wake = WakeDone | WakeTimeout | WakeTick

  /** The select of the probe loop. Any ready case may be taken; with a key there is no timeout. */
  method AwaitWake(w: World, authKeyApplied: bool) returns (wake: Wake)
    requires w.Valid() && !w.h.life.exited
    modifies w
    ensures w.Valid() && SameButStop(old(w.h), w.h)
    ensures wake == WakeDone ==> w.cancelled
    ensures wake == WakeTimeout ==> !authKeyApplied
  {
    var done := w.Err();
    wake := *;
    if (wake == WakeDone && !done) || (wake == WakeTimeout && authKeyApplied) {
      wake := WakeTick;
    }
  }

  /** The newest server was started, and nothing that it said since calls for an action. */
  ghost predicate Waiting(w: World)
    reads w
  {
    w.h.serve.started && !w.h.pace.progressed && !w.h.pace.up && (w.h.pace.asked ==> w.h.life.keyed)
  }

  /** `cut` means that the observation ended while the probe loop was still polling. A key that is
      still owed a serve cycle leads to ActionServe, unless the context was cancelled. */
  method StartAndProbe(w: World, server: RealServer) returns (state: string, startErr: bool, cut: bool)
    requires Owns(w, server) && !w.h.pace.progressed && !w.h.pace.asked && !w.h.pace.up
    modifies w, server`srv
    ensures w.h.stop.iterations == old(w.h.stop.iterations)
    ensures Owns(w, server) && SamePace(old(w.h.pace), w.h.pace)
    ensures cut ==> Waiting(w)
    ensures !cut && DecideNext(state, startErr) == ActionServe ==> w.h.serve.running
    ensures !cut && DecideNext(state, startErr) == ActionReauth ==> w.h.pace.asked && !w.h.pace.up
    ensures !cut && DecideNext(state, startErr) == ActionRetry ==>
              (w.h.pace.probed && !w.h.pace.asked && !w.h.pace.up) || w.cancelled
    ensures !cut && DecideNext(state, startErr) != ActionServe ==> !w.h.keys.owed || w.cancelled
  {
    hide Sound;
    var storeOk: bool, expired: bool, upOk: bool := *, *, *;
    var ok := server.Start(w, storeOk, expired, upOk);
    if !ok {
      var reply: Option<string> := *;
      var probeFailed;
      state, probeFailed := server.BackendState(w, reply);
      return state, true, false;
    }
    state, startErr, cut := Probe(w, server);
  }

  method Probe(w: World, server: RealServer) returns (state: string, startErr: bool, cut: bool)
    requires Owns(w, server) && w.h.serve.tried && w.h.serve.started
    requires !w.h.pace.progressed && !w.h.pace.asked && !w.h.pace.up
    modifies w
    ensures w.h.stop.iterations == old(w.h.stop.iterations)
    ensures Owns(w, server) && SamePace(old(w.h.pace), w.h.pace)
    ensures cut ==> Waiting(w)
    ensures !cut && DecideNext(state, startErr) == ActionServe ==> w.h.serve.running
    ensures !cut && DecideNext(state, startErr) == ActionReauth ==> w.h.pace.asked && !w.h.pace.up
    ensures !cut && DecideNext(state, startErr) == ActionRetry ==>
              (w.h.pace.probed && !w.h.pace.asked && !w.h.pace.up) || w.cancelled
    ensures !cut && DecideNext(state, startErr) != ActionServe ==> !w.h.keys.owed || w.cancelled
  {
    hide Sound;
    var authKeyApplied := server.HasAuthKey();
    var lastState := "";
    var polls: nat :| polls >= 0;
    while polls > 0
      invariant w.h.stop.iterations == old(w.h.stop.iterations)
      invariant !w.h.pace.progressed && w.h.serve.tried
      invariant Owns(w, server) && w.h.serve.started && SamePace(old(w.h.pace), w.h.pace) && !w.h.pace.up
      invariant lastState != RUNNING && (lastState == NEEDS_LOGIN ==> w.h.pace.asked)
      invariant w.h.pace.asked ==> server.HasAuthKey()
    {
      var reply: Option<string> := *;
      var failed;
      state, failed := server.BackendState(w, reply);
      if !failed && state != "" {
        lastState := state;
        if state == RUNNING {
          return state, false, false;
        }
        if state == NEEDS_LOGIN && !server.HasAuthKey() {
          return state, false, false;
        }
      }
      var wake := AwaitWake(w, authKeyApplied);
      if wake != WakeTick {
        return lastState, true, false;
      }
      polls := polls - 1;
    }
    return lastState, true, true;
  }

  /** handleReauth: on mint failure the server is kept, otherwise a fresh one gets the key. */
  method HandleReauth(w: World, server: RealServer, backoff: Backoff) returns (next: RealServer)
    requires Owns(w, server) && !w.h.keys.owed && w.h.pace.asked && !w.h.pace.up
    requires backoff.At(w.h.pace.sleeps) && !w.h.pace.served && !w.h.pace.minted && !Late(w.h.stop)
    modifies w, server, backoff
    ensures w.h.stop.iterations == old(w.h.stop.iterations)
    ensures Owns(w, next) && backoff.At(w.h.pace.sleeps) && w.h.pace.progressed
    ensures if w.h.pace.minted then fresh(next) else next == server
  {
    hide Sound;
    var ok: bool, key: string := *, *;
    w.Mint(ok, key);
    if ok {
      backoff.Reset(w);
      next := Replace(w, server, key);
    } else {
      backoff.Sleep(w);
      next := server;
    }
  }

  /** Close the server and hand the minted key to a fresh one. */
  method Replace(w: World, server: RealServer, key: string) returns (next: RealServer)
    requires w.Valid() && w.h.life.Newest(server.id) && !w.h.life.exited && !w.h.serve.ready && !w.h.serve.Serving()
    requires w.h.keys.pending == Some(key) && (w.h.keys.owed ==> key != "") && !w.h.stop.lateBuilt
    requires w.h.pace.sleeps == 0 && !w.h.pace.failed && AtRest(w.h.serve)
    modifies w, server`srv
    ensures w.h.stop.iterations == old(w.h.stop.iterations)
    ensures Owns(w, next) && fresh(next) && w.h.pace == old(w.h.pace)
  {
    hide Sound;
    next := Rebuild(w, server);
    next.SetAuthKey(w, key);
  }

  /** Close the server and build another one. */
  method Rebuild(w: World, server: RealServer) returns (next: RealServer)
    requires w.Valid() && w.h.life.Newest(server.id) && !w.h.life.exited
    requires !w.h.serve.ready && !w.h.serve.Serving() && !w.h.stop.lateBuilt && AtRest(w.h.serve)
    modifies w, server`srv
    ensures w.Valid() && fresh(next) && next.id == old(w.h.life.built) && next.authKey == "" && AtRest(w.h.serve)
    ensures w.h.life == Life(old(w.h.life.built) + 1, true, false, false, false, false)
    ensures !w.h.serve.ready && !w.h.serve.Serving() && w.h.keys == old(w.h.keys) && w.h.pace == old(w.h.pace)
    ensures w.h.stop.iterations == old(w.h.stop.iterations)
  {
    hide Sound;
    server.Close(w);
    next := Factory(w);
  }

  method ProcessRetryAction(w: World, server: RealServer, backoff: Backoff)
    requires Owns(w, server) && !w.h.keys.owed && w.h.pace.probed && !w.h.pace.asked && !w.h.pace.up
    requires backoff.At(w.h.pace.sleeps) && !w.h.pace.served
    modifies w, server, backoff
    ensures w.h.stop.iterations == old(w.h.stop.iterations)
    ensures Free(w) && !w.h.serve.mismatch && backoff.At(w.h.pace.sleeps) && w.h.pace.progressed
  {
    hide Sound;
    backoff.Sleep(w);
    server.Close(w);
  }

  // ----- Serving -----

  /** The newest server may serve: it runs and owns the expected host, if one is set. */
  ghost predicate Cleared(w: World)
    reads w
  {
    w.h.serve.running && (w.host == "" || w.h.serve.hostSeen)
  }

  method VerifyIssuerHost(w: World, server: RealServer) returns (err: ServeError)
    requires Idle(w, server) && w.h.serve.running && w.h.pace.sleeps == 0 && !w.h.serve.mismatch
    modifies w
    ensures w.h.stop.iterations == old(w.h.stop.iterations)
    ensures Idle(w, server) && w.h.keys == old(w.h.keys) && w.h.life == old(w.h.life)
    ensures Failing(old(w.h.pace), err == Other, w.h.pace)
    ensures w.h.stop.lateListen == old(w.h.stop.lateListen)
    ensures err == Nil <==> Cleared(w) && !w.h.serve.mismatch && Failing(old(w.h.pace), false, w.h.pace)
    ensures err == Mismatch <==> w.h.serve.mismatch
    ensures err != Nil ==> !w.h.serve.due
  {
    hide Sound;
    if w.host == "" {
      return Nil;
    }
    var reply: Option<seq<string>> := *;
    var domains, failed := server.CertDomains(w, reply);
    if failed {
      return Other;
    }
    err := if w.host in domains then Nil else Mismatch;
  }

  /** The watcher goroutine, up to the moment at which the main loop looks at its channel, given what
      happens at each of its turns until then. The channel is closed exactly when a poll said
      NeedsLogin, or the context was done and taken first. */
  method WatchForLoginNeeded(w: World, server: RealServer, polls: seq<Poll>) returns (closed: bool)
    requires w.Valid() && w.h.life.Newest(server.id) && !w.h.life.exited && !w.h.serve.mismatch
    requires w.h.serve.phase == Announced
    modifies w
    ensures w.Valid() && w.h.life == old(w.h.life) && w.h.keys == old(w.h.keys) && w.h.pace == old(w.h.pace)
    ensures w.h.serve == old(w.h.serve).(phase := Watched) && StopGrew(old(w.h.stop), w.h.stop)
    ensures closed ==> w.cancelled || server.id in w.h.stop.logins
    ensures (exists k :: 0 <= k < |polls| && SaysLogin(polls[k])) ==> closed
    ensures closed ==> w.cancelled || exists k :: 0 <= k < |polls| && SaysLogin(polls[k])
  {
    hide Sound;
    w.StartWatch(server.id);
    for k := 0 to |polls|
      invariant w.Valid() && w.h.life == old(w.h.life) && w.h.keys == old(w.h.keys) && w.h.pace == old(w.h.pace)
      invariant w.h.serve == old(w.h.serve).(phase := Watched) && StopGrew(old(w.h.stop), w.h.stop)
      invariant forall l :: 0 <= l < k ==> !SaysLogin(polls[l])
    {
      var done := w.Err();
      if polls[k].takeDone && done {
        return true;
      }
      w.WatcherPolls(server.id, if polls[k].reply.Some? then polls[k].reply.value else "");
      if SaysLogin(polls[k]) {
        return true;
      }
    }
    return false;
  }

  /** Withdraw the signal, shut the HTTP server down, and receive its result. */
  method WindDown(w: World, server: RealServer)
    requires w.Valid() && w.h.life.Newest(server.id) && !w.h.life.exited && !w.h.serve.mismatch
    requires w.h.serve.phase == Stopping
    modifies w
    ensures w.h.stop.iterations == old(w.h.stop.iterations)
    ensures w.Valid() && w.h.life == old(w.h.life) && w.h.keys == old(w.h.keys) && w.h.pace == old(w.h.pace)
    ensures w.h.serve == old(w.h.serve).(ready := false, phase := NotServing)
  {
    hide Sound;
    w.SetPublicReady(false);
    w.Shutdown(server.id);
    w.Drain(server.id);
  }

  /** serveOnce, from the moment the goroutine runs and the signal is up. */
  method AwaitEnd(w: World, server: RealServer) returns (err: ServeError)
    requires w.Valid() && w.h.life.Newest(server.id) && !w.h.life.exited && !w.h.serve.mismatch
    requires w.h.serve.phase == Announced
    modifies w
    ensures w.h.stop.iterations == old(w.h.stop.iterations)
    ensures w.Valid() && w.h.life == old(w.h.life) && w.h.keys == old(w.h.keys)
    ensures Failing(old(w.h.pace), err == Other, w.h.pace) && err != Mismatch
    ensures w.h.serve == old(w.h.serve).(ready := false, phase := NotServing)
  {
    hide Sound;
    var wake := WatchAndWait(w, server);
    err := EndServing(w, server, wake);
  }

  /** Start the watcher and wait for a case of the select. */
  method WatchAndWait(w: World, server: RealServer) returns (wake: ServeWake)
    requires w.Valid() && w.h.life.Newest(server.id) && !w.h.life.exited && !w.h.serve.mismatch
    requires w.h.serve.phase == Announced
    modifies w
    ensures w.Valid() && w.h.life == old(w.h.life) && w.h.keys == old(w.h.keys)
    ensures w.h.stop.iterations == old(w.h.stop.iterations)
    ensures Failing(old(w.h.pace), wake == Result(false), w.h.pace)
    ensures w.h.serve == old(w.h.serve).(phase := if wake.Result? then NotServing else Stopping)
  {
    hide Sound;
    var polls: seq<Poll> := *;
    var closed := WatchForLoginNeeded(w, server, polls);
    wake := w.AwaitServe(server.id, closed);
  }

  /** The cases of the select. */
  method EndServing(w: World, server: RealServer, wake: ServeWake) returns (err: ServeError)
    requires w.Valid() && w.h.life.Newest(server.id) && !w.h.life.exited && !w.h.serve.mismatch
    requires w.h.serve.phase == if wake.Result? then NotServing else Stopping
    modifies w
    ensures w.h.stop.iterations == old(w.h.stop.iterations)
    ensures w.Valid() && w.h.life == old(w.h.life) && w.h.keys == old(w.h.keys) && w.h.pace == old(w.h.pace)
    ensures w.h.serve == old(w.h.serve).(ready := false, phase := NotServing)
    ensures err == if wake == Result(false) then Other else Nil
  {
    hide Sound;
    match wake
    case CtxDone =>
      WindDown(w, server);
      err := Nil;
    case ChannelClosed =>
      WindDown(w, server);
      err := Nil;
    case Result(clean) =>
      w.SetPublicReady(false);
      err := if clean then Nil else Other;
  }

  /** The signal is withdrawn before the listener is opened. */
  method OpenListener(w: World, server: RealServer) returns (ok: bool)
    requires Idle(w, server) && Cleared(w) && !w.h.serve.mismatch && !w.h.life.spawned
    requires !w.h.stop.lateListen && w.h.pace.sleeps == 0
    modifies w
    ensures w.h.stop.iterations == old(w.h.stop.iterations)
    ensures w.Valid() && w.h.life == old(w.h.life) && w.h.keys == old(w.h.keys)
    ensures w.h.serve == old(w.h.serve).(ready := false, listened := ok, due := false)
    ensures Failing(old(w.h.pace), !ok, w.h.pace)
  {
    hide Sound;
    w.SetPublicReady(false);
    var reply: bool := *;
    ok := server.ListenFunnel(w, reply);
  }

  /** Listen, and serve until told to stop or until serving ends: an error exactly when the listener
      could not be opened, or serving ended with one. */
  method ServeOnce(w: World, server: RealServer) returns (err: ServeError)
    requires Idle(w, server) && Cleared(w) && !w.h.serve.mismatch && !w.h.life.spawned
    requires !w.h.stop.lateListen && w.h.pace.sleeps == 0
    modifies w
    ensures w.h.stop.iterations == old(w.h.stop.iterations)
    ensures Idle(w, server) && AtRest(w.h.serve) && w.h.keys == old(w.h.keys) && err != Mismatch
    ensures Failing(old(w.h.pace), err == Other, w.h.pace)
  {
    hide Sound;
    var ok := OpenListener(w, server);
    err := Other;
    if ok {
      err := Serving(w, server);
      w.SetPublicReady(false);   // deferred
    }
  }

  /** serveOnce from the moment its listener is open. */
  method Serving(w: World, server: RealServer) returns (err: ServeError)
    requires w.Valid() && w.h.life.Newest(server.id) && !w.h.life.exited && !w.h.life.spawned && Cleared(w)
    requires w.h.serve.listened && !w.h.serve.mismatch && !w.h.serve.Serving()
    modifies w
    ensures w.h.stop.iterations == old(w.h.stop.iterations)
    ensures w.Valid() && w.h.life == old(w.h.life).(spawned := true) && w.h.keys == old(w.h.keys)
    ensures Failing(old(w.h.pace), err == Other, w.h.pace) && err != Mismatch
    ensures w.h.serve == old(w.h.serve).(ready := false, phase := NotServing, listened := false)
  {
    hide Sound;
    w.SpawnServe(server.id);
    w.SetPublicReady(true);
    err := AwaitEnd(w, server);
  }

  /** The check is never skipped: every server that reaches this point is still unverified. */
  method RunServeStep(w: World, server: RealServer, verified: bool) returns (err: ServeError, v: bool)
    requires Idle(w, server) && w.h.serve.running && !w.h.life.spawned && !verified && !w.h.serve.mismatch
    requires !w.h.stop.lateListen && w.h.pace.sleeps == 0
    modifies w
    ensures w.h.stop.iterations == old(w.h.stop.iterations)
    ensures Idle(w, server) && w.h.keys == old(w.h.keys) && !w.h.serve.due
    ensures Failing(old(w.h.pace), err == Other, w.h.pace)
    ensures err == Mismatch <==> w.h.serve.mismatch
  {
    v := verified;
    if !v {
      err := VerifyIssuerHost(w, server);
      if err != Nil {
        return;
      }
      v := true;
    }
    err := ServeOnce(w, server);
  }

  method BeginServe(w: World, server: RealServer, backoff: Backoff)
    requires Owns(w, server) && w.h.serve.running
    modifies w, backoff
    ensures w.h.stop.iterations == old(w.h.stop.iterations) && w.h.stop.lateListen == old(w.h.stop.lateListen)
    ensures Idle(w, server) && !w.h.life.spawned && w.h.serve == old(w.h.serve).(due := true) && !w.h.keys.owed
    ensures w.h.pace == old(w.h.pace).(progressed := true, served := true, sleeps := 0) && backoff.At(0)
  {
    hide Sound;
    w.Emit(ServeCycle(server.id));
    backoff.Reset(w);
  }

  method HandleServe(w: World, server: RealServer, verified: bool, backoff: Backoff)
    returns (fatal: ServeError, v: bool)
    requires Owns(w, server) && w.h.serve.running && !verified && !Late(w.h.stop)
    modifies w, backoff
    ensures w.h.stop.iterations == old(w.h.stop.iterations)
    ensures Idle(w, server) && !w.h.keys.owed && backoff.At(w.h.pace.sleeps) && w.h.pace.progressed && !w.h.pace.failed
    ensures !w.h.serve.due
    ensures (fatal == Mismatch <==> w.h.serve.mismatch) && (fatal == Nil || fatal == Mismatch)
  {
    hide Sound;
    BeginServe(w, server, backoff);
    var err;
    err, v := RunServeStep(w, server, verified);
    if err == Nil || err == Mismatch {
      return err, v;
    }
    backoff.Sleep(w);
    fatal := Nil;
  }

  method ProcessServeAction(w: World, server: RealServer, verified: bool, backoff: Backoff)
    returns (fatal: ServeError, v: bool)
    requires Owns(w, server) && w.h.serve.running && !verified && !Late(w.h.stop)
    modifies w, server, backoff
    ensures w.h.stop.iterations == old(w.h.stop.iterations)
    ensures Free(w) && backoff.At(w.h.pace.sleeps) && w.h.pace.progressed
    ensures (fatal == Mismatch <==> w.h.serve.mismatch) && (fatal == Nil || fatal == Mismatch)
  {
    hide Sound;
    fatal, v := HandleServe(w, server, verified, backoff);
    server.Close(w);
  }

  method ProcessLoopAction(
    w: World, server: RealServer, verified: bool, backoff: Backoff, state: string, startErr: bool)
    returns (next: RealServer?, v: bool, fatal: ServeError)
    requires Owns(w, server) && !verified && backoff.At(w.h.pace.sleeps) && !w.h.pace.served
    requires !w.h.pace.minted && !Late(w.h.stop)
    requires DecideNext(state, startErr) == ActionServe ==> w.h.serve.running
    requires DecideNext(state, startErr) == ActionReauth ==> w.h.pace.asked && !w.h.pace.up
    requires DecideNext(state, startErr) == ActionRetry ==> w.h.pace.probed && !w.h.pace.asked && !w.h.pace.up
    requires DecideNext(state, startErr) != ActionServe ==> !w.h.keys.owed
    modifies w, server, backoff
    ensures w.h.stop.iterations == old(w.h.stop.iterations)
    ensures backoff.At(w.h.pace.sleeps) && w.h.pace.progressed && (next == null || next == server || fresh(next))
    ensures fatal == Nil ==> Holds(w, next) && (next != null ==> !v)
    ensures fatal != Nil ==> fatal == Mismatch && next == null && Free(w) && w.h.serve.mismatch
  {
    match DecideNext(state, startErr)
    case ActionServe =>
      fatal, v := ProcessServeAction(w, server, verified, backoff);
      next := null;
    case ActionReauth =>
      next := HandleReauth(w, server, backoff);
      v, fatal := false, Nil;
    case ActionRetry =>
      ProcessRetryAction(w, server, backoff);
      next, v, fatal := null, false, Nil;
  }

  /** The deferred close, and the return. */
  method Exit(w: World, server: RealServer?, ghost fatal: bool)
    requires if fatal then server == null && Free(w) && w.h.serve.mismatch else Holds(w, server) && w.cancelled
    modifies w, server
    ensures w.Valid() && w.h.trace != [] && w.h.trace[|w.h.trace| - 1] == Exited(fatal)
  {
    hide Sound;
    if server != null {
      server.Close(w);
    }
    w.Emit(Exited(fatal));
  }

  /** Everything the histories of this runner satisfy. */
  ghost predicate Disciplined(host: string, t: seq<Event>) {
    && ServersConserved(t) && NoUnverifiedServing(host, t)
    && KeysApplied(t) && KeysBeforeStart(t) && MintsSpaced(t) && MintsForLogin(t)
    && ReadyDiscipline(host, t) && ReadyOnlyIfBegun(t) && ServeResultsReceived(t)
    && StopsPromptly(t) && ExitsForAReason(host, t) && FlipsForAReason(t)
    && BackoffLaw(t) && SleepsForAReason(t) && ProbesFollowStart(t)
    && ListenersAreServed(t) && CyclesListen(host, t) && StopsAreCarriedOut(t) && MismatchIsFatal(host, t)
  }

  lemma ConformingIsDisciplined(host: string, t: seq<Event>)
    requires Conforms(host, t)
    ensures Disciplined(host, t)
  {
    TheoremServersConserved(t);
    TheoremNoUnverifiedServing(host, t);
    TheoremKeysApplied(t);
    TheoremKeysBeforeStart(t);
    TheoremMintsSpaced(t);
    TheoremMintsForLogin(t);
    TheoremReadyDiscipline(host, t);
    TheoremReadyOnlyIfBegun(host, t);
    TheoremServeResultsReceived(host, t);
    TheoremStopsPromptly(t);
    TheoremExitsForAReason(host, t);
    TheoremFlipsForAReason(t);
    TheoremBackoffLaw(t);
    TheoremSleepsForAReason(t);
    TheoremProbesFollowStart(host, t);
    TheoremCarriedOut(host, t);
    TheoremMismatchIsFatal(host, t);
  }

  /** Run, observed for at most `horizon` iterations. When it is still running after the observation,
      that many iterations have begun, unless the last one is still polling a started server. */
  method Run(w: World, horizon: nat) returns (outcome: Outcome)
    requires w.Valid() && w.h == Blank(w.host)
    modifies w
    ensures Disciplined(w.host, w.h.trace)
    ensures outcome == ReturnedNil ==> w.h.trace != [] && w.h.trace[|w.h.trace| - 1] == Exited(false)
    ensures outcome == ReturnedMismatch ==> w.h.trace != [] && w.h.trace[|w.h.trace| - 1] == Exited(true)
    ensures outcome == StillRunning ==> Iterations(w.h.trace) == horizon || StillProbing(w.h.trace)
  {
    hide Sound;
    outcome := Loop(w, horizon);
    WholeHistory(w.h);
  }

  lemma WholeHistory(h: History)
    ensures Disciplined(h.host, h.trace) && Iterations(h.trace) == h.stop.iterations
    ensures h.serve.started && !h.pace.progressed && !h.pace.up && (h.pace.asked ==> h.life.keyed) ==>
              StillProbing(h.trace)
  {
    assert Sound(h);
    ConformingIsDisciplined(h.host, h.trace);
    MeaningOfIterations(h.trace);
    if h.serve.started && !h.pace.progressed && !h.pace.up && (h.pace.asked ==> h.life.keyed) {
      ProbingFromSummary(h.host, h.trace);
    }
  }

  /** The rest of an iteration, once the server has been started and probed. */
  method Act(w: World, server: RealServer, verified: bool, backoff: Backoff, state: string, startErr: bool)
    returns (next: RealServer?, v: bool, outcome: Outcome)
    requires Owns(w, server) && !verified && backoff.At(w.h.pace.sleeps) && !w.h.pace.served && !w.h.pace.minted
    requires DecideNext(state, startErr) == ActionServe ==> w.h.serve.running
    requires DecideNext(state, startErr) == ActionReauth ==> w.h.pace.asked && !w.h.pace.up
    requires DecideNext(state, startErr) == ActionRetry ==>
               (w.h.pace.probed && !w.h.pace.asked && !w.h.pace.up) || w.cancelled
    requires DecideNext(state, startErr) != ActionServe ==> !w.h.keys.owed || w.cancelled
    modifies w, server, backoff
    ensures w.Valid()
    ensures outcome != StillRunning ==>
              w.h.trace != [] && w.h.trace[|w.h.trace| - 1] == Exited(outcome == ReturnedMismatch)
    ensures outcome == StillRunning ==>
      && Holds(w, next) && (next != null ==> !v && (next == server || fresh(next))) && backoff.At(w.h.pace.sleeps)
      && w.h.pace.progressed && w.h.stop.iterations == old(w.h.stop.iterations)
  {
    hide Sound;
    next, v := server, verified;
    var done := w.Err();
    if done {
      Exit(w, server, false);
      return next, v, ReturnedNil;
    }
    var fatal;
    next, v, fatal := ProcessLoopAction(w, server, verified, backoff, state, startErr);
    if fatal != Nil {
      Exit(w, next, true);
      return next, v, ReturnedMismatch;
    }
    outcome := StillRunning;
  }

  method Loop(w: World, horizon: nat) returns (outcome: Outcome)
    requires w.Valid() && w.h == Blank(w.host)
    modifies w
    ensures w.Valid()
    ensures outcome == ReturnedNil ==> w.h.trace != [] && w.h.trace[|w.h.trace| - 1] == Exited(false)
    ensures outcome == ReturnedMismatch ==> w.h.trace != [] && w.h.trace[|w.h.trace| - 1] == Exited(true)
    ensures outcome == StillRunning ==> w.h.stop.iterations == horizon || Waiting(w)
  {
    hide Sound;
    var server: RealServer? := null;
    var verified := false;
    var backoff := new Backoff();
    for i := 0 to horizon
      invariant Holds(w, server) && (server != null ==> !verified && fresh(server)) && w.h.stop.iterations == i
      invariant fresh(backoff) && backoff.At(w.h.pace.sleeps) && w.h.pace.progressed
    {
      var done := w.TopCheck();
      if done {
        Exit(w, server, false);
        return ReturnedNil;
      }
      server, verified := EnsureServer(w, server, verified);
      var cut;
      server, verified, outcome, cut := Iterate(w, server, verified, backoff);
      if cut || outcome != StillRunning {
        return;
      }
    }
    return StillRunning;
  }

  /** An iteration, from the moment its server is there. */
  method Iterate(w: World, server: RealServer, verified: bool, backoff: Backoff)
    returns (next: RealServer?, v: bool, outcome: Outcome, cut: bool)
    requires Owns(w, server) && !verified && backoff.At(w.h.pace.sleeps) && !w.h.pace.served && !w.h.pace.minted
    requires !w.h.pace.progressed && !w.h.pace.asked && !w.h.pace.up
    modifies w, server, backoff
    ensures w.Valid() && (cut ==> outcome == StillRunning && Waiting(w))
    ensures outcome != StillRunning ==>
              w.h.trace != [] && w.h.trace[|w.h.trace| - 1] == Exited(outcome == ReturnedMismatch)
    ensures outcome == StillRunning && !cut ==>
      && Holds(w, next) && (next != null ==> !v && (next == server || fresh(next))) && backoff.At(w.h.pace.sleeps)
      && w.h.pace.progressed && w.h.stop.iterations == old(w.h.stop.iterations)
  {
    hide Sound;
    var state, startErr;
    state, startErr, cut := StartAndProbe(w, server);
    if cut {
      next, v, outcome := server, verified, StillRunning;
    } else {
      next, v, outcome := Act(w, server, verified, backoff, state, startErr);
    }
  }
}
