/** runWithLeaderElection (cmd/oidc-proxy/ha.go) with the flags it shares with the health probes
    (cmd/oidc-proxy/state.go), as interleaved goroutines: the main select, the elector goroutine with
    the stopped callback, the started callback with the public runner, cancellation, and one health
    probe evaluating LeaderReady. Every load, store, channel operation and critical section is one
    step; an action names the goroutine that moves and how the environment answers it. */
module Leadership {
  import opened Wrappers

  datatype Error = LeadershipLost | ContextCanceled | Failure(code: int)

  datatype Caller = Starter | Stopper
  datatype Once = Unused | Busy(holder: Caller) | Done

  /** leader.Run and, after it loses or gives up the lease, the stopped callback. */
  datatype ElectorPc =
    | Setup                        // configuration and clients
    | Acquiring
    | Leading
    | StopClearLeader | StopClearReady | StopCheckShutdown | StopCheckCtx
    | StopDefer | StopOnce | StopSend
    | Returning(result: Option<Error>)
    | Finished(result: Option<Error>)

  /** The started callback, in its own goroutine. */
  datatype StartedPc =
    | NotSpawned
    | StartSetLeader
    | RunnerCheck                  // the public runner looks at its context before anything else
    | RunnerActive(raised: bool)   // raised: it last called SetPublicReady(true)
    | RunnerReturned(err: Option<Error>)
    | StartDefer(e: Error) | StartOnce(e: Error) | StartSend(e: Error)
    | Ended

  datatype MainPc =
    | Selecting
    | ElectionNil                  // received nil from the elector, about to look at the context
    | ReadDeferred
    | Returned(err: Option<Error>)

  /** What held during one evaluation of LeaderReady: its argument, both flags at the instant at
      which publicReady was due to be loaded, and the leader flag at the instant of the answer. */
  datatype Witness = Witness(jwksReady: bool, readyThen: bool, leaderThen: bool, leaderLast: bool)

  datatype ProbePc = ProbeIdle | LoadedReady(saw: Witness) | Answered(ok: bool, saw: Witness)

  /** The atomic flags and the two contexts. */
  datatype Flags = Flags(ctxDone: bool, runCancelled: bool, shuttingDown: bool, leader: bool, publicReady: bool) {
    /** The run context is done; it is derived from the outer one. */
    predicate RunDone() { ctxDone || runCancelled }
  }

  /** The channels, the once and the mutex-guarded first error. */
  datatype Chans = Chans(
    once: Once, errCh: Option<Error>, electionCh: Option<Option<Error>>, deferred: Option<Error>,
    sends: nat,                    // sends on errCh so far
    reported: set<Error>,          // errors passed to sendErr so far
    electorError: Option<Error>,   // what leader.Run failed with, if it failed
    first: Option<Caller>,         // who reported first
    winner: Option<Caller>,        // whom the once let through
    startErr: Option<Error>,       // what the started callback reported
    stopReported: bool)            // the stopped callback reported the loss
  {
    /** The critical section of sendErr: the first error stays. */
    function Defer(who: Caller, e: Error): Chans {
      this.(deferred := if deferred.None? then Some(e) else deferred,
            first := if deferred.None? then Some(who) else first,
            startErr := if who.Starter? then Some(e) else startErr,
            stopReported := stopReported || who.Stopper?,
            reported := reported + {e})
    }

    /** The once lets its first caller through. */
    function Claim(who: Caller): Chans {
      this.(once := Busy(who), winner := Some(who))
    }

    /** What a caller of sendErr reported. */
    function ReportOf(who: Option<Caller>): Option<Error> {
      if who.None? then None else if who.value.Starter? then startErr else Some(LeadershipLost)
    }

    /** The send on errCh, by the one caller that the once let through. */
    function Send(e: Error): Chans {
      this.(errCh := Some(e), sends := sends + 1, once := Done)
    }
  }

  /** The case of main's select that was taken. */
  datatype Via = ViaCtx | ViaErrCh | ViaElection

  /** What happened so far; no step looks at it. */
  datatype History = History(
    setLate: bool,                 // the started callback set the flag after the stopped one cleared it
    raisedLate: bool,              // the runner's last word was to raise the signal, after it was cleared
    ran: bool,                     // the public runner passed the check of its context
    runnerErr: Option<Error>,      // what the public runner returned
    via: Option<Via>,
    ctxThen: bool)                 // the context was done when main received the elector's nil

  datatype State = State(
    flags: Flags, chans: Chans,
    elector: ElectorPc, started: StartedPc, main: MainPc, probe: ProbePc, hist: History)

  const INITIAL := State(Flags(false, false, false, false, false),
                         Chans(Unused, None, None, None, 0, {}, None, None, None, None, false),
                         Setup, NotSpawned, Selecting, ProbeIdle, History(false, false, false, None, None, false))

  datatype Action =
    | CancelCtx | MarkShuttingDown
    | SetupFails(e: Error) | SetupSucceeds | Acquire | GiveUp | LoseLease | ElectorMoves
    | StartedMoves | RunnerSetsReady(up: bool) | RunnerReturns(err: Option<Error>)
    | MainTakesCtx | MainTakesErr | MainTakesElection | MainMoves
    | ProbeStarts(jwksReady: bool) | ProbeLoadsLeader | ProbeEnds

  /** The stopped callback has cleared the leader flag. */
  predicate Cleared(pc: ElectorPc) {
    pc.StopClearReady? || pc.StopCheckShutdown? || pc.StopCheckCtx? || pc.StopDefer? || pc.StopOnce? || pc.StopSend?
    || pc == Returning(None) || pc == Finished(None)
  }

  /** ... and then the public-ready flag. */
  predicate ReadyCleared(pc: ElectorPc) { Cleared(pc) && !pc.StopClearReady? }

  /** The stopped callback has begun. */
  predicate StopBegun(pc: ElectorPc) { pc.StopClearLeader? || Cleared(pc) }

  /** The stopped callback, or the elector before it, has yet to look at the shutdown flag and the
      context for the last time. */
  predicate BeforeStopCheck(pc: ElectorPc) {
    pc.Setup? || pc.Acquiring? || pc.Leading? || pc.StopClearLeader? || pc.StopClearReady?
    || pc.StopCheckShutdown? || pc.StopCheckCtx?
  }

  /** The public runner is over. */
  predicate RunnerOver(pc: StartedPc) {
    pc.RunnerReturned? || pc.StartDefer? || pc.StartOnce? || pc.StartSend? || pc.Ended?
  }

  /** The started callback has set the leader flag. */
  predicate LeaderSet(pc: StartedPc) { !pc.NotSpawned? && !pc.StartSetLeader? }

  predicate IsElector(a: Action) {
    a.SetupFails? || a.SetupSucceeds? || a.Acquire? || a.GiveUp? || a.LoseLease? || a.ElectorMoves?
  }
  predicate IsStarted(a: Action) { a.StartedMoves? || a.RunnerSetsReady? || a.RunnerReturns? }
  predicate IsMain(a: Action) { a.MainTakesCtx? || a.MainTakesErr? || a.MainTakesElection? || a.MainMoves? }
  predicate IsProbe(a: Action) { a.ProbeStarts? || a.ProbeLoadsLeader? || a.ProbeEnds? }

  /** leader.Run up to the loss of the lease; the contract of the election library. */
  function StepElection(s: State, a: Action): Option<State> {
    if a.SetupFails? && s.elector.Setup? then
      Some(s.(elector := Returning(Some(a.e)), chans := s.chans.(electorError := Some(a.e))))
    else if a.SetupSucceeds? && s.elector.Setup? then Some(s.(elector := Acquiring))
    else if a.Acquire? && s.elector.Acquiring? then Some(s.(elector := Leading, started := StartSetLeader))
    else if a.GiveUp? && s.elector.Acquiring? && s.flags.ctxDone then Some(s.(elector := StopClearLeader))
    else if a.LoseLease? && s.elector.Leading? then
      Some(s.(elector := StopClearLeader, flags := s.flags.(runCancelled := true)))
    else None
  }

  /** The stopped callback, up to the decision to report the loss. */
  function StepStopped(s: State): Option<State> {
    if s.elector.StopClearLeader? then Some(s.(elector := StopClearReady, flags := s.flags.(leader := false)))
    else if s.elector.StopClearReady? then
      Some(s.(elector := StopCheckShutdown, flags := s.flags.(publicReady := false)))
    else if s.elector.StopCheckShutdown? then
      Some(s.(elector := if s.flags.shuttingDown then Returning(None) else StopCheckCtx))
    else if s.elector.StopCheckCtx? then Some(s.(elector := if s.flags.ctxDone then Returning(None) else StopDefer))
    else None
  }

  /** The elector reports the loss, or returns. */
  predicate StopReporting(pc: ElectorPc) { pc.StopDefer? || pc.StopOnce? || pc.StopSend? || pc.Returning? }

  /** The stopped callback's sendErr, and the return of leader.Run. */
  function StepStopReport(s: State): Option<State> {
    if s.elector.StopDefer? then Some(s.(elector := StopOnce, chans := s.chans.Defer(Stopper, LeadershipLost)))
    else if s.elector.StopOnce? && s.chans.once.Unused? then
      Some(s.(elector := StopSend, chans := s.chans.Claim(Stopper)))
    else if s.elector.StopOnce? && s.chans.once.Done? then Some(s.(elector := Returning(None)))
    else if s.elector.StopSend? && s.chans.errCh.None? then
      Some(s.(elector := Returning(None), chans := s.chans.Send(LeadershipLost)))
    else if s.elector.Returning? && s.chans.electionCh.None? then
      Some(s.(elector := Finished(s.elector.result), chans := s.chans.(electionCh := Some(s.elector.result))))
    else None
  }

  /** The public runner may raise and lower the signal at will, but it begins only with a live
      context, and it has lowered the signal when it returns (see RunnerLaws). */
  function StepRunner(s: State, a: Action): Option<State> {
    if a.RunnerSetsReady? && s.started.RunnerActive? then
      Some(s.(started := RunnerActive(a.up), flags := s.flags.(publicReady := a.up),
              hist := s.hist.(raisedLate := a.up && ReadyCleared(s.elector))))
    else if a.RunnerReturns? && s.started == RunnerActive(false) then
      Some(s.(started := RunnerReturned(a.err), hist := s.hist.(runnerErr := a.err)))
    else None
  }

  /** The started callback around the public runner. */
  function StepStarted(s: State): Option<State> {
    if s.started.StartSetLeader? then
      Some(s.(started := RunnerCheck, flags := s.flags.(leader := true),
              hist := s.hist.(setLate := Cleared(s.elector))))
    else if s.started.RunnerCheck? then
      if s.flags.RunDone() then Some(s.(started := RunnerReturned(None)))
      else Some(s.(started := RunnerActive(false), hist := s.hist.(ran := true)))
    else if s.started.RunnerReturned? then
      var err := s.started.err;
      var silent := err.None? || err.value.ContextCanceled? || s.flags.RunDone();
      Some(s.(started := if silent then Ended else StartDefer(err.value)))
    else None
  }

  predicate StartReporting(pc: StartedPc) { pc.StartDefer? || pc.StartOnce? || pc.StartSend? }

  /** The started callback's sendErr. */
  function StepStartReport(s: State): Option<State> {
    if s.started.StartDefer? then
      Some(s.(started := StartOnce(s.started.e), chans := s.chans.Defer(Starter, s.started.e)))
    else if s.started.StartOnce? && s.chans.once.Unused? then
      Some(s.(started := StartSend(s.started.e), chans := s.chans.Claim(Starter)))
    else if s.started.StartOnce? && s.chans.once.Done? then Some(s.(started := Ended))
    else if s.started.StartSend? && s.chans.errCh.None? then
      Some(s.(started := Ended, chans := s.chans.Send(s.started.e)))
    else None
  }

  function StepMain(s: State, a: Action): Option<State> {
    if a.MainTakesCtx? && s.main.Selecting? && s.flags.ctxDone then
      Some(s.(main := Returned(None), hist := s.hist.(via := Some(ViaCtx))))
    else if a.MainTakesErr? && s.main.Selecting? && s.chans.errCh.Some? then
      Some(s.(main := Returned(s.chans.errCh), chans := s.chans.(errCh := None),
              hist := s.hist.(via := Some(ViaErrCh))))
    else if a.MainTakesElection? && s.main.Selecting? && s.chans.electionCh.Some? then
      var result := s.chans.electionCh.value;
      Some(s.(main := if result.None? then ElectionNil else Returned(result),
              chans := s.chans.(electionCh := None),
              hist := s.hist.(via := Some(ViaElection), ctxThen := s.flags.ctxDone)))
    else if a.MainMoves? && s.main.ElectionNil? then
      Some(s.(main := if s.flags.ctxDone then Returned(None) else ReadDeferred))
    else if a.MainMoves? && s.main.ReadDeferred? then Some(s.(main := Returned(s.chans.deferred)))
    else None
  }

  /** LeaderReady with leader election enabled; its caller has already asked the JWKS cache. */
  function StepProbe(s: State, a: Action): Option<State> {
    if a.ProbeStarts? && s.probe.ProbeIdle? then
      var saw := Witness(a.jwksReady, s.flags.publicReady, s.flags.leader, s.flags.leader);
      Some(s.(probe := if !a.jwksReady || !s.flags.publicReady then Answered(false, saw) else LoadedReady(saw)))
    else if a.ProbeLoadsLeader? && s.probe.LoadedReady? then
      Some(s.(probe := Answered(s.flags.leader, s.probe.saw.(leaderLast := s.flags.leader))))
    else if a.ProbeEnds? && s.probe.Answered? then Some(s.(probe := ProbeIdle))
    else None
  }

  function StepContext(s: State, a: Action): Option<State> {
    if a.CancelCtx? then Some(s.(flags := s.flags.(ctxDone := true)))
    else if s.flags.ctxDone then Some(s.(flags := s.flags.(shuttingDown := true)))
    else None
  }

  function Step(s: State, a: Action): Option<State> {
    if a.CancelCtx? || a.MarkShuttingDown? then StepContext(s, a)
    else if a.ElectorMoves? then if StopReporting(s.elector) then StepStopReport(s) else StepStopped(s)
    else if IsElector(a) then StepElection(s, a)
    else if a.StartedMoves? then if StartReporting(s.started) then StepStartReport(s) else StepStarted(s)
    else if IsStarted(a) then StepRunner(s, a)
    else if IsMain(a) then StepMain(s, a)
    else StepProbe(s, a)
  }

  /** The state a schedule leads to, or None if it asks for a step that is not enabled. */
  function Exec(schedule: seq<Action>): Option<State> {
    if schedule == [] then Some(INITIAL)
    else match Exec(schedule[..|schedule| - 1])
      case None => None
      case Some(s) => Step(s, schedule[|schedule| - 1])
  }

  ghost predicate Reachable(s: State) { exists schedule :: Exec(schedule) == Some(s) }

  // ----- Invariants -----

  /** The callback is spawned by the election, and only by it; an election that failed ran none. */
  ghost predicate ShapeInv(s: State) {
    && (s.elector.Setup? || s.elector.Acquiring? || s.chans.electorError.Some? ==> s.started.NotSpawned?)
    && (s.elector.Leading? ==> !s.started.NotSpawned?)
    && (s.chans.electorError.Some? <==> (s.elector.Returning? || s.elector.Finished?) && s.elector.result.Some?)
    && (s.chans.electorError.Some? ==> s.elector.result == s.chans.electorError)
  }

  /** The error channel is used at most once, by whoever holds the once. */
  ghost predicate ChannelInv(s: State) {
    && s.chans.sends == (if s.chans.once.Done? then 1 else 0)
    && (s.chans.errCh.Some? ==> s.chans.once.Done?)
    && (s.elector.StopSend? <==> s.chans.once == Busy(Stopper))
    && (s.started.StartSend? <==> s.chans.once == Busy(Starter))
    && (s.chans.electionCh.Some? ==> s.elector.Finished? && s.elector.result == s.chans.electionCh.value)
    && (s.elector.Finished? ==> s.chans.electionCh.Some? || !s.main.Selecting?)
  }

  /** A nil from the elector means cancellation or a deferred error. */
  ghost predicate NilInv(s: State) {
    && (s.flags.shuttingDown ==> s.flags.ctxDone)
    && (s.elector.StopOnce? || s.elector.StopSend? || s.main.ReadDeferred? ==> s.chans.deferred.Some?)
    && (s.elector == Returning(None) || s.elector == Finished(None) ==> s.flags.ctxDone || s.chans.deferred.Some?)
    && (s.main.ElectionNil? ==> s.elector == Finished(None))
    && (s.main == Returned(None) ==> s.flags.ctxDone)
  }

  /** Every error in flight was reported to sendErr or is the elector's own. */
  ghost predicate GenuineInv(s: State) {
    && (s.chans.errCh.Some? ==> s.chans.errCh.value in s.chans.reported)
    && (s.chans.deferred.Some? ==> s.chans.deferred.value in s.chans.reported)
    && (s.started.StartOnce? || s.started.StartSend? ==> s.started.e in s.chans.reported)
    && (s.elector.StopOnce? || s.elector.StopSend? ==> LeadershipLost in s.chans.reported)
    && (s.main.Returned? && s.main.err.Some? ==>
          s.main.err.value in s.chans.reported || s.main.err == s.chans.electorError)
  }

  /** The flags: who set and cleared each of them last. */
  ghost predicate FlagInv(s: State) {
    && (StopBegun(s.elector) ==> s.started.NotSpawned? || s.flags.runCancelled)
    && (s.hist.setLate ==> LeaderSet(s.started) && Cleared(s.elector) && !s.started.RunnerActive?)
    && (s.flags.leader <==> LeaderSet(s.started) && (!Cleared(s.elector) || s.hist.setLate))
    && (s.hist.raisedLate ==> ReadyCleared(s.elector))
    && (s.flags.publicReady <==>
          s.started == RunnerActive(true) && (ReadyCleared(s.elector) ==> s.hist.raisedLate))
  }

  /** One evaluation of LeaderReady, in progress or answered. */
  ghost predicate ProbeInv(s: State) {
    && (s.probe.LoadedReady? ==>
          && LeaderSet(s.started) && !s.hist.setLate && s.probe.saw.jwksReady && s.probe.saw.readyThen
          && (s.probe.saw.leaderThen || Cleared(s.elector)))
    && (s.probe.Answered? ==>
          var saw := s.probe.saw;
          && (s.probe.ok ==> saw.leaderThen)
          && (s.probe.ok <==> saw.jwksReady && saw.readyThen && saw.leaderLast))
  }

  /** What became of the public runner and of its error. */
  ghost predicate RunnerInv(s: State) {
    && (s.hist.runnerErr.Some? ==> s.hist.ran && RunnerOver(s.started))
    && (s.started.RunnerActive? ==> s.hist.ran)
    && (RunnerOver(s.started) ==> s.hist.ran || s.flags.RunDone())
    && (s.started.RunnerReturned? ==> s.started.err == s.hist.runnerErr)
    && (s.started.StartDefer? ==> s.hist.runnerErr == Some(s.started.e) && !s.started.e.ContextCanceled?)
    && (s.started.StartOnce? || s.started.StartSend? ==> s.chans.startErr == Some(s.started.e))
    && (s.chans.startErr.Some? ==>
          && (s.started.StartOnce? || s.started.StartSend? || s.started.Ended?)
          && s.chans.startErr == s.hist.runnerErr && s.chans.startErr != Some(ContextCanceled)
          && s.chans.startErr.value in s.chans.reported)
    && (s.started.Ended? ==>
          s.chans.startErr == s.hist.runnerErr || s.hist.runnerErr == Some(ContextCanceled) || s.flags.RunDone())
  }

  /** Who reported first, whom the once let through, and whose report is where. */
  ghost predicate OrderInv(s: State) {
    && s.chans.deferred == s.chans.ReportOf(s.chans.first)
    && (s.chans.first.None? <==> s.chans.deferred.None?)
    && (s.chans.first.None? <==> s.chans.reported == {})
    && (s.chans.startErr.Some? ==> s.chans.first.Some?)
    && (s.chans.winner.None? <==> s.chans.once.Unused?)
    && (s.chans.once.Busy? ==> s.chans.winner == Some(s.chans.once.holder))
    && (s.chans.winner.Some? ==> s.chans.first.Some? && s.chans.ReportOf(s.chans.winner).Some?)
    && (s.chans.errCh.Some? ==> s.chans.errCh == s.chans.ReportOf(s.chans.winner))
    && (s.elector.Setup? || s.elector.Acquiring? || s.chans.electorError.Some? ==> s.chans.first.None?)
    && (s.chans.first == Some(Stopper) || s.chans.winner == Some(Stopper) ==> s.chans.stopReported)
    && (s.chans.stopReported ==>
          || s.elector.StopOnce? || s.elector.StopSend?
          || ((s.elector == Returning(None) || s.elector == Finished(None)) && s.chans.once.Done?))
    && (s.elector.StopOnce? || s.elector.StopSend? ==> s.chans.stopReported)
    && (s.chans.startErr.Some? && s.started.Ended? ==> s.chans.once.Done?)
    && (LeadershipLost in s.chans.reported ==>
          s.chans.stopReported || s.chans.startErr == Some(LeadershipLost))
    && (s.started.NotSpawned? ==> s.chans.first.None?)
    && (s.started.NotSpawned? && StopBegun(s.elector) ==>
          s.flags.ctxDone && !s.elector.StopDefer? && !s.elector.StopOnce? && !s.elector.StopSend?)
  }

  /** What main returns follows from the case it took: nothing, the winner's report, or the elector's
      own failure or else the first report. */
  ghost predicate ReturnInv(s: State) {
    && (s.main.Selecting? ==> s.hist.via.None?)
    && (s.main.ElectionNil? || s.main.ReadDeferred? ==> s.hist.via == Some(ViaElection))
    && (s.main.ElectionNil? && s.hist.ctxThen ==> s.flags.ctxDone)
    && (s.main.ReadDeferred? ==> !s.hist.ctxThen)
    && (s.hist.via == Some(ViaElection) ==> s.chans.electionCh.None?)
    && (s.hist.via == Some(ViaErrCh) ==> s.chans.errCh.None? && s.chans.once.Done?)
    && (s.hist.via == Some(ViaElection) ==> s.elector.Finished?)
    && (s.main.Returned? ==> match s.hist.via
          case None => false
          case Some(ViaCtx) => s.main.err.None?
          case Some(ViaErrCh) => s.main.err.Some? && s.main.err == s.chans.ReportOf(s.chans.winner)
          case Some(ViaElection) =>
            if s.chans.electorError.Some? then s.main.err == s.chans.electorError
            else s.main.err.Some? ==> s.main.err == s.chans.deferred && !s.hist.ctxThen)
  }

  ghost predicate BaseInv(s: State) { ShapeInv(s) && ChannelInv(s) && NilInv(s) && GenuineInv(s) && FlagInv(s) }

  ghost predicate Inv(s: State) { BaseInv(s) && ProbeInv(s) && RunnerInv(s) && OrderInv(s) && ReturnInv(s) }

  lemma ElectionKeeps(s: State, a: Action)
    requires BaseInv(s) && StepElection(s, a).Some?
    ensures BaseInv(StepElection(s, a).value)
  {
  }

  lemma StoppedKeeps(s: State)
    requires BaseInv(s) && StepStopped(s).Some?
    ensures BaseInv(StepStopped(s).value)
  {
  }

  lemma StopReportKeeps(s: State)
    requires BaseInv(s) && StepStopReport(s).Some? && (s.elector.StopDefer? || s.elector.StopOnce?)
    ensures BaseInv(StepStopReport(s).value)
  {
  }

  lemma StopReturnKeeps(s: State)
    requires BaseInv(s) && StepStopReport(s).Some? && (s.elector.StopSend? || s.elector.Returning?)
    ensures BaseInv(StepStopReport(s).value)
  {
  }

  lemma StopReportKeepsOrder(s: State)
    requires Inv(s) && StepStopReport(s).Some? && (s.elector.StopDefer? || s.elector.StopOnce?)
    ensures OrderInv(StepStopReport(s).value)
  {
  }

  lemma StopReturnKeepsOrder(s: State)
    requires Inv(s) && StepStopReport(s).Some? && (s.elector.StopSend? || s.elector.Returning?)
    ensures OrderInv(StepStopReport(s).value)
  {
  }

  lemma StartReportKeeps(s: State)
    requires BaseInv(s) && StepStartReport(s).Some? && !s.started.StartSend?
    ensures BaseInv(StepStartReport(s).value)
  {
  }

  lemma StartSendKeeps(s: State)
    requires BaseInv(s) && StepStartReport(s).Some? && s.started.StartSend?
    ensures BaseInv(StepStartReport(s).value)
  {
  }

  lemma StartReportKeepsOrder(s: State)
    requires Inv(s) && StepStartReport(s).Some?
    ensures OrderInv(StepStartReport(s).value)
  {
  }

  lemma SetLeaderKeeps(s: State)
    requires BaseInv(s) && StepStarted(s).Some? && s.started.StartSetLeader?
    ensures BaseInv(StepStarted(s).value)
  {
  }

  lemma StartedKeeps(s: State)
    requires BaseInv(s) && StepStarted(s).Some? && !s.started.StartSetLeader?
    ensures BaseInv(StepStarted(s).value)
  {
  }

  lemma RunnerKeeps(s: State, a: Action)
    requires BaseInv(s) && StepRunner(s, a).Some?
    ensures BaseInv(StepRunner(s, a).value)
  {
  }

  lemma MainReceiveKeeps(s: State, a: Action)
    requires BaseInv(s) && StepMain(s, a).Some? && s.main.Selecting?
    ensures BaseInv(StepMain(s, a).value)
  {
  }

  lemma MainMoveKeeps(s: State, a: Action)
    requires BaseInv(s) && StepMain(s, a).Some? && !s.main.Selecting?
    ensures BaseInv(StepMain(s, a).value)
  {
  }

  lemma MainKeepsOrder(s: State, a: Action)
    requires Inv(s) && StepMain(s, a).Some?
    ensures OrderInv(StepMain(s, a).value)
  {
  }

  lemma ContextKeeps(s: State, a: Action)
    requires BaseInv(s) && StepContext(s, a).Some?
    ensures BaseInv(StepContext(s, a).value)
  {
  }

  /** A probe touches nothing but its own progress. */
  lemma ProbeKeeps(s: State, a: Action)
    requires BaseInv(s) && StepProbe(s, a).Some?
    ensures BaseInv(StepProbe(s, a).value)
  {
    assert StepProbe(s, a).value == s.(probe := StepProbe(s, a).value.probe);
  }

  lemma ElectorKeepsBase(s: State, a: Action)
    requires BaseInv(s) && Step(s, a).Some? && IsElector(a)
    ensures BaseInv(Step(s, a).value)
  {
    hide BaseInv;
    if !a.ElectorMoves? {
      ElectionKeeps(s, a);
    } else if !StopReporting(s.elector) {
      StoppedKeeps(s);
    } else if s.elector.StopDefer? || s.elector.StopOnce? {
      StopReportKeeps(s);
    } else {
      StopReturnKeeps(s);
    }
  }

  lemma StartedKeepsBase(s: State, a: Action)
    requires BaseInv(s) && Step(s, a).Some? && IsStarted(a)
    ensures BaseInv(Step(s, a).value)
  {
    hide BaseInv;
    if !a.StartedMoves? {
      RunnerKeeps(s, a);
    } else if !StartReporting(s.started) {
      if s.started.StartSetLeader? { SetLeaderKeeps(s); } else { StartedKeeps(s); }
    } else if s.started.StartSend? {
      StartSendKeeps(s);
    } else {
      StartReportKeeps(s);
    }
  }

  lemma StepKeepsBase(s: State, a: Action)
    requires BaseInv(s) && Step(s, a).Some?
    ensures BaseInv(Step(s, a).value)
  {
    hide BaseInv;
    if IsElector(a) {
      ElectorKeepsBase(s, a);
    } else if IsStarted(a) {
      StartedKeepsBase(s, a);
    } else if IsMain(a) {
      if s.main.Selecting? { MainReceiveKeeps(s, a); } else { MainMoveKeeps(s, a); }
    } else if IsProbe(a) {
      ProbeKeeps(s, a);
    } else {
      ContextKeeps(s, a);
    }
  }

  // The steps in which nothing is reported, sent or received.
  lemma QuietElectorKeepsOrder(s: State, a: Action)
    requires Inv(s) && Step(s, a).Some? && IsElector(a) && (a.ElectorMoves? ==> !StopReporting(s.elector))
    ensures OrderInv(Step(s, a).value)
  {
    hide ProbeInv, ReturnInv, RunnerInv, GenuineInv;
  }

  lemma QuietKeepsOrder(s: State, a: Action)
    requires Inv(s) && Step(s, a).Some? && !IsMain(a) && !IsElector(a)
    requires a.StartedMoves? ==> !StartReporting(s.started)
    ensures OrderInv(Step(s, a).value)
  {
    hide ProbeInv, ReturnInv, GenuineInv;
  }

  lemma StepKeepsOrder(s: State, a: Action)
    requires Inv(s) && Step(s, a).Some?
    ensures OrderInv(Step(s, a).value)
  {
    if IsMain(a) {
      MainKeepsOrder(s, a);
    } else if a.ElectorMoves? && StopReporting(s.elector) {
      if s.elector.StopDefer? || s.elector.StopOnce? { StopReportKeepsOrder(s); } else { StopReturnKeepsOrder(s); }
    } else if IsElector(a) {
      QuietElectorKeepsOrder(s, a);
    } else if a.StartedMoves? && StartReporting(s.started) {
      StartReportKeepsOrder(s);
    } else {
      QuietKeepsOrder(s, a);
    }
  }

  lemma ProbeKeepsProbe(s: State, a: Action)
    requires FlagInv(s) && ProbeInv(s) && Step(s, a).Some? && IsProbe(a)
    ensures ProbeInv(Step(s, a).value)
  {
  }

  lemma OthersKeepProbe(s: State, a: Action)
    requires ShapeInv(s) && FlagInv(s) && ProbeInv(s) && Step(s, a).Some? && !IsProbe(a)
    ensures ProbeInv(Step(s, a).value)
  {
  }

  lemma StepKeepsProbe(s: State, a: Action)
    requires Inv(s) && Step(s, a).Some?
    ensures ProbeInv(Step(s, a).value)
  {
    hide Step, ProbeInv;
    if IsProbe(a) { ProbeKeepsProbe(s, a); } else { OthersKeepProbe(s, a); }
  }

  lemma StartedKeepsRunner(s: State, a: Action)
    requires Inv(s) && Step(s, a).Some? && IsStarted(a)
    ensures RunnerInv(Step(s, a).value)
  {
    hide OrderInv, ProbeInv, ReturnInv, GenuineInv, ChannelInv, NilInv;
  }

  lemma OthersKeepRunner(s: State, a: Action)
    requires Inv(s) && Step(s, a).Some? && !IsStarted(a)
    ensures RunnerInv(Step(s, a).value)
  {
    hide OrderInv, ProbeInv, ReturnInv, GenuineInv, ChannelInv, NilInv, FlagInv;
  }

  lemma StepKeepsRunner(s: State, a: Action)
    requires Inv(s) && Step(s, a).Some?
    ensures RunnerInv(Step(s, a).value)
  {
    if IsStarted(a) { StartedKeepsRunner(s, a); } else { OthersKeepRunner(s, a); }
  }

  lemma MainKeepsReturn(s: State, a: Action)
    requires Inv(s) && Step(s, a).Some? && IsMain(a)
    ensures ReturnInv(Step(s, a).value)
  {
    hide ProbeInv, RunnerInv, GenuineInv, FlagInv;
  }

  lemma ElectorKeepsReturn(s: State, a: Action)
    requires Inv(s) && Step(s, a).Some? && IsElector(a)
    ensures ReturnInv(Step(s, a).value)
  {
    hide ProbeInv, GenuineInv, FlagInv, RunnerInv;
  }

  lemma StartedKeepsReturn(s: State, a: Action)
    requires Inv(s) && Step(s, a).Some? && IsStarted(a)
    ensures ReturnInv(Step(s, a).value)
  {
    hide ProbeInv, GenuineInv, FlagInv, ShapeInv;
  }

  lemma OthersKeepReturn(s: State, a: Action)
    requires ReturnInv(s) && Step(s, a).Some? && !IsMain(a) && !IsElector(a) && !IsStarted(a)
    ensures ReturnInv(Step(s, a).value)
  {
  }

  lemma StepKeepsReturn(s: State, a: Action)
    requires Inv(s) && Step(s, a).Some?
    ensures ReturnInv(Step(s, a).value)
  {
    hide Step, ReturnInv;
    if IsMain(a) {
      MainKeepsReturn(s, a);
    } else if IsElector(a) {
      ElectorKeepsReturn(s, a);
    } else if IsStarted(a) {
      StartedKeepsReturn(s, a);
    } else {
      OthersKeepReturn(s, a);
    }
  }

  lemma StepKeeps(s: State, a: Action)
    requires Inv(s) && Step(s, a).Some?
    ensures Inv(Step(s, a).value)
  {
    hide Step, BaseInv, ProbeInv, RunnerInv, OrderInv, ReturnInv;
    StepKeepsBase(s, a);
    StepKeepsProbe(s, a);
    StepKeepsRunner(s, a);
    StepKeepsOrder(s, a);
    StepKeepsReturn(s, a);
  }

  /** Every schedule keeps the invariants. */
  lemma {:induction false} ScheduleKeeps(schedule: seq<Action>)
    requires Exec(schedule).Some?
    ensures Inv(Exec(schedule).value)
  {
    if schedule != [] {
      ScheduleKeeps(schedule[..|schedule| - 1]);
      StepKeeps(Exec(schedule[..|schedule| - 1]).value, schedule[|schedule| - 1]);
    }
  }

  lemma ReachableKeeps(s: State)
    requires Reachable(s)
    ensures Inv(s)
  {
    var schedule :| Exec(schedule) == Some(s);
    ScheduleKeeps(schedule);
  }

  // ----- Leadership is never lost silently -----

  /** nil is returned only after cancellation; any other result was reported by a callback or is the
      elector's own failure. */
  lemma NilOnlyWhenCancelled(s: State)
    requires Reachable(s) && s.main.Returned?
    ensures s.main.err.None? ==> s.flags.ctxDone
    ensures s.main.err.Some? ==> s.main.err.value in s.chans.reported || s.main.err == s.chans.electorError
  {
    ReachableKeeps(s);
  }

  /** How many steps main can still take. */
  function Distance(pc: MainPc): nat {
    match pc
    case Selecting => 3
    case ElectionNil => 2
    case ReadDeferred => 1
    case Returned(_) => 0
  }

  /** Once the elector has returned without failing, the lease is gone. Unless the context was
      cancelled, main has returned an error or can move; each of its moves brings it closer to its
      return, and the return carries an error. */
  lemma LostLeadershipIsReported(s: State)
    requires Reachable(s) && s.elector == Finished(None) && !s.flags.ctxDone
    ensures s.chans.deferred.Some?
    ensures s.main.Returned? ==> s.main.err.Some?
    ensures !s.main.Returned? ==> exists a :: IsMain(a) && Step(s, a).Some?
    ensures forall a {:trigger Step(s, a)} :: IsMain(a) && Step(s, a).Some? ==>
              var s' := Step(s, a).value;
              Distance(s'.main) < Distance(s.main) && (s'.main.Returned? ==> s'.main.err.Some?)
  {
    ReachableKeeps(s);
    assert s.main.Selecting? ==> Step(s, MainTakesElection).Some?;
    assert s.main.ElectionNil? || s.main.ReadDeferred? ==> Step(s, MainMoves).Some?;
  }

  /** Main is never stuck: it can take every case of its select that is ready, the context's above all,
      and it can go on from every later state. */
  lemma MainCanMove(s: State)
    requires !s.main.Returned?
    ensures s.main.Selecting? ==>
              && (s.flags.ctxDone ==> Step(s, MainTakesCtx).Some?)
              && (s.chans.errCh.Some? ==> Step(s, MainTakesErr).Some?)
              && (s.chans.electionCh.Some? ==> Step(s, MainTakesElection).Some?)
    ensures !s.main.Selecting? ==> Step(s, MainMoves).Some?
  {
  }

  /** What main returns is settled by the case it took. The context: nil. The error channel: the
      winner's report. The elector: its own failure, if it failed; otherwise nil if the context was
      done by then, and else the first report, unless the context ended in that very moment. */
  lemma AnswerFollowsCase(s: State)
    requires Reachable(s) && s.main.Returned?
    ensures s.hist.via.Some?
    ensures s.hist.via == Some(ViaCtx) ==> s.main.err.None?
    ensures s.hist.via == Some(ViaErrCh) ==>
              s.chans.errCh.None? && s.main.err.Some? && s.main.err == s.chans.ReportOf(s.chans.winner)
    ensures s.hist.via == Some(ViaElection) ==> s.chans.electionCh.None?
    ensures s.hist.via == Some(ViaElection) && s.chans.electorError.Some? ==> s.main.err == s.chans.electorError
    ensures s.hist.via == Some(ViaElection) && s.chans.electorError.None? ==>
              if s.hist.ctxThen then s.main.err.None?
              else if s.main.err.Some? then s.main.err == s.chans.ReportOf(s.chans.first)
              else s.flags.ctxDone
  {
    ReachableKeeps(s);
  }

  /** The public runner runs unless its context was done; and when it fails while its context is live,
      with an error other than the cancellation, exactly that error is reported. */
  lemma RunnerFailureIsReported(s: State)
    requires Reachable(s)
    ensures RunnerOver(s.started) && !s.flags.RunDone() ==> s.hist.ran
    ensures s.chans.startErr.Some? ==>
              && s.chans.startErr == s.hist.runnerErr && s.hist.runnerErr != Some(ContextCanceled)
              && s.chans.startErr.value in s.chans.reported
    ensures s.started.Ended? && !s.flags.RunDone() ==>
              (s.chans.startErr == s.hist.runnerErr || s.hist.runnerErr == Some(ContextCanceled))
  {
    ReachableKeeps(s);
  }

  // ----- Silence: who must not report -----

  lemma {:induction false} PrefixRuns(schedule: seq<Action>, n: nat)
    requires Exec(schedule).Some? && n <= |schedule|
    ensures Exec(schedule[..n]).Some?
  {
    if n == |schedule| {
      assert schedule[..n] == schedule;
    } else {
      PrefixRuns(schedule[..|schedule| - 1], n);
      assert schedule[..|schedule| - 1][..n] == schedule[..n];
    }
  }

  /** Nothing was reported to sendErr by the stopped callback, and nothing will be. */
  ghost predicate StopSilent(s: State) {
    && s.flags.ctxDone && !s.elector.StopDefer? && !s.elector.StopOnce? && !s.elector.StopSend?
    && !s.chans.stopReported && s.chans.first != Some(Stopper) && s.chans.winner != Some(Stopper)
    && (LeadershipLost in s.chans.reported ==> s.chans.startErr == Some(LeadershipLost))
  }

  lemma StartedKeepsStopSilent(s: State, a: Action)
    requires RunnerInv(s) && StopSilent(s) && Step(s, a).Some? && IsStarted(a)
    ensures StopSilent(Step(s, a).value)
  {
  }

  lemma OthersKeepStopSilent(s: State, a: Action)
    requires StopSilent(s) && Step(s, a).Some? && !IsStarted(a)
    ensures StopSilent(Step(s, a).value)
  {
  }

  lemma StopSilentStays(s: State, a: Action)
    requires Inv(s) && StopSilent(s) && Step(s, a).Some?
    ensures StopSilent(Step(s, a).value)
  {
    hide StopSilent, Step;
    if IsStarted(a) { StartedKeepsStopSilent(s, a); } else { OthersKeepStopSilent(s, a); }
  }

  lemma {:induction false} StopStaysSilent(schedule: seq<Action>, n: nat)
    requires Exec(schedule).Some? && n <= |schedule| && Exec(schedule[..n]).Some?
    requires StopSilent(Exec(schedule[..n]).value)
    ensures StopSilent(Exec(schedule).value)
  {
    hide StopSilent, Inv, Step;
    if n == |schedule| {
      assert schedule[..n] == schedule;
    } else {
      var before, last := schedule[..|schedule| - 1], schedule[|schedule| - 1];
      assert before[..n] == schedule[..n];
      StopStaysSilent(before, n);
      ScheduleKeeps(before);
      StopSilentStays(Exec(before).value, last);
    }
  }

  /** A graceful stop is silent: once the context is done before the stopped callback has looked at it,
      that callback never reports a loss, whatever happens next; the loss is reported only if it is
      what the public runner itself returned. */
  lemma GracefulStopIsSilent(schedule: seq<Action>, n: nat)
    requires Exec(schedule).Some? && n <= |schedule| && Exec(schedule[..n]).Some?
    requires var s := Exec(schedule[..n]).value; s.flags.ctxDone && BeforeStopCheck(s.elector)
    ensures var s := Exec(schedule).value;
      && !s.chans.stopReported && s.chans.first != Some(Stopper) && s.chans.winner != Some(Stopper)
      && (LeadershipLost in s.chans.reported ==> s.chans.startErr == Some(LeadershipLost))
  {
    ScheduleKeeps(schedule[..n]);
    StopStaysSilent(schedule, n);
  }

  /** A replica that never led reports nothing. */
  lemma StandbyReportsNothing(s: State)
    requires Reachable(s) && s.started.NotSpawned?
    ensures s.chans.reported == {} && s.chans.errCh.None? && s.chans.deferred.None?
    ensures s.main.Returned? ==> s.main.err.None? || s.main.err == s.chans.electorError
  {
    ReachableKeeps(s);
  }

  /** Nothing was reported by the started callback, and nothing will be. */
  ghost predicate StartSilent(s: State) {
    s.flags.RunDone() && s.chans.startErr.None? && !StartReporting(s.started)
  }

  lemma StartSilentStays(s: State, a: Action)
    requires StartSilent(s) && Step(s, a).Some?
    ensures StartSilent(Step(s, a).value)
  {
  }

  lemma {:induction false} StartStaysSilent(schedule: seq<Action>, n: nat)
    requires Exec(schedule).Some? && n <= |schedule| && Exec(schedule[..n]).Some?
    requires StartSilent(Exec(schedule[..n]).value)
    ensures StartSilent(Exec(schedule).value)
  {
    hide StartSilent, Step;
    if n == |schedule| {
      assert schedule[..n] == schedule;
    } else {
      var before, last := schedule[..|schedule| - 1], schedule[|schedule| - 1];
      assert before[..n] == schedule[..n];
      StartStaysSilent(before, n);
      StartSilentStays(Exec(before).value, last);
    }
  }

  /** A runner that is still going when its context ends is not reported, whatever it returns. */
  lemma StoppedRunnerIsSilent(schedule: seq<Action>, n: nat)
    requires Exec(schedule).Some? && n <= |schedule| && Exec(schedule[..n]).Some?
    requires var s := Exec(schedule[..n]).value;
      s.flags.RunDone() && !StartReporting(s.started) && !s.started.Ended?
    ensures Exec(schedule).value.chans.startErr.None?
  {
    ScheduleKeeps(schedule[..n]);
    StartStaysSilent(schedule, n);
  }

  /** errCh is sent to at most once, and no caller of sendErr blocks for good: it can move itself, or
      it waits for the other, who is about to send and can. Whoever is
      through with sendErr leaves it used. No other step of theirs blocks. */
  lemma SendersNeverBlock(s: State)
    requires Reachable(s)
    ensures s.chans.sends <= 1
    ensures s.started.Ended? && s.chans.startErr.Some? ==> s.chans.sends == 1
    ensures (s.elector.Returning? || s.elector.Finished?) && s.chans.stopReported ==> s.chans.sends == 1
    ensures s.elector.StopSend? ==> Step(s, ElectorMoves).Some?
    ensures s.started.StartSend? ==> Step(s, StartedMoves).Some?
    ensures StopBegun(s.elector) && !s.elector.StopOnce? && !s.elector.Finished? ==> Step(s, ElectorMoves).Some?
    ensures LeaderSet(s.started) && !s.started.RunnerActive? && !s.started.StartOnce? && !s.started.Ended? ==>
              Step(s, StartedMoves).Some?
    ensures s.started.StartSetLeader? ==> Step(s, StartedMoves).Some?
    ensures s.elector.StopOnce? ==> Step(s, ElectorMoves).Some? || (s.started.StartSend? && Step(s, StartedMoves).Some?)
    ensures s.started.StartOnce? ==> Step(s, StartedMoves).Some? || (s.elector.StopSend? && Step(s, ElectorMoves).Some?)
  {
    ReachableKeeps(s);
    match s.chans.once
    case Busy(Starter) => assert s.started.StartSend?;
    case Busy(Stopper) => assert s.elector.StopSend?;
    case _ =>
  }

  /** The sender that the once let through is not the one that reported first, and main took what it
      sent, and the two reports differ. */
  ghost predicate Overtaken(s: State) {
    s.hist.via == Some(ViaErrCh) && s.chans.winner != s.chans.first && s.chans.startErr != Some(LeadershipLost)
  }

  /** Exactly when the error that main returns is the first one reported: unless the elector itself
      failed, or the channel was won by a caller that another had overtaken at the mutex. */
  lemma ReturnedErrorIsFirstExactly(s: State)
    requires Reachable(s) && s.main.Returned? && s.main.err.Some?
    ensures s.main.err == s.chans.deferred <==> s.chans.electorError.None? && !Overtaken(s)
    ensures s.chans.electorError.Some? ==> s.main.err == s.chans.electorError && s.chans.reported == {}
    ensures s.chans.electorError.None? ==>
              s.main.err == s.chans.ReportOf(if s.hist.via == Some(ViaErrCh) then s.chans.winner else s.chans.first)
  {
    ReachableKeeps(s);
  }

  // ----- Readiness -----

  /** When LeaderReady says yes, the key set was ready and both flags were true at the instant it
      loaded publicReady; and it says no only if one of the three was down when it looked. */
  lemma LeaderReadyIsAtomic(s: State)
    requires Reachable(s) && s.probe.Answered?
    ensures var saw := s.probe.saw;
      && (s.probe.ok ==> saw.jwksReady && saw.readyThen && saw.leaderThen && saw.leaderLast)
      && (!s.probe.ok ==> !saw.jwksReady || !saw.readyThen || !saw.leaderLast)
  {
    ReachableKeeps(s);
  }

  /** Once the stopped callback has cleared the leader flag, no LeaderReady evaluation says yes any
      more, in any interleaving, even if a runner still shutting down raises publicReady again. */
  lemma NeverLeaderReadyAfterStop(s: State, a: Action)
    requires Reachable(s) && Cleared(s.elector) && IsProbe(a) && Step(s, a).Some?
    ensures !(Step(s, a).value.probe.Answered? && Step(s, a).value.probe.ok)
  {
    ReachableKeeps(s);
  }

  /** publicReady is up exactly when the public runner's last word was to raise it, and the stopped
      callback has not cleared it since; so it is down whenever the runner is not running. The leader
      flag is up exactly when it was set and not cleared, or set only after having been cleared. */
  lemma FlagsOutsideRunner(s: State)
    requires Reachable(s)
    ensures !s.started.RunnerActive? ==> !s.flags.publicReady
    ensures s.flags.publicReady <==>
              s.started == RunnerActive(true) && (ReadyCleared(s.elector) ==> s.hist.raisedLate)
    ensures s.flags.leader <==> LeaderSet(s.started) && (!Cleared(s.elector) || s.hist.setLate)
  {
    ReachableKeeps(s);
  }

  // ----- Two schedules that break stronger claims -----

  lemma Reach(s: State, a: Action) returns (s': State)
    requires Reachable(s) && Step(s, a).Some?
    ensures Step(s, a) == Some(s') && Reachable(s')
  {
    s' := Step(s, a).value;
    var schedule :| Exec(schedule) == Some(s);
    assert (schedule + [a])[..|schedule + [a]| - 1] == schedule;
    assert Exec(schedule + [a]) == Some(s');
  }

  lemma InitialReachable()
    ensures Reachable(INITIAL)
  {
    assert Exec([]) == Some(INITIAL);
  }

  /** A lease won and lost with nothing else happening: the stopped callback reports the loss, and the
      elector returns nil. The started callback may have run or not. */
  lemma ReportLoss(s0: State) returns (s: State)
    requires Reachable(s0) && s0.elector.StopClearReady? && !s0.flags.shuttingDown && !s0.flags.ctxDone
    requires s0.chans.once.Unused? && s0.chans.errCh.None? && s0.chans.electionCh.None?
    ensures Reachable(s) && s.elector == Finished(None) && s.started == s0.started && s.main == s0.main
    ensures s.flags == s0.flags.(publicReady := false)
    ensures s.chans.errCh == Some(LeadershipLost) && (s0.chans.deferred.Some? ==> s.chans.deferred == s0.chans.deferred)
  {
    s := Reach(s0, ElectorMoves);
    s := Reach(s, ElectorMoves);
    s := Reach(s, ElectorMoves);
    assert s.elector.StopDefer?;
    s := Reach(s, ElectorMoves);
    s := Reach(s, ElectorMoves);
    assert s.elector.StopSend?;
    s := Reach(s, ElectorMoves);
    s := Reach(s, ElectorMoves);
  }

  lemma WinLease() returns (s: State)
    ensures Reachable(s) && s == INITIAL.(elector := Leading, started := StartSetLeader)
  {
    InitialReachable();
    s := Reach(INITIAL, SetupSucceeds);
    s := Reach(s, Acquire);
  }

  /** The leader flag can outlive both callbacks: the lease is lost before the started callback's
      goroutine gets to run. */
  lemma LeaderFlagCanOutliveBoth() returns (s: State)
    ensures Reachable(s) && s.started.Ended? && s.elector == Finished(None) && s.flags.leader && !s.flags.publicReady
  {
    s := WinLease();
    s := Reach(s, LoseLease);
    s := Reach(s, ElectorMoves);
    s := Reach(s, StartedMoves);
    assert s.flags.leader && s.started.RunnerCheck?;
    s := Reach(s, StartedMoves);
    s := Reach(s, StartedMoves);
    assert s.started.Ended? && s.flags.leader;
    s := ReportLoss(s);
  }

  /** The public runner fails while the lease is held; its error is deferred but not yet sent. */
  lemma RunnerFails(e: Error) returns (s: State)
    requires e.Failure?
    ensures Reachable(s) && s.elector.Leading? && s.started == StartOnce(e) && s.main.Selecting?
    ensures s.flags == INITIAL.flags.(leader := true)
    ensures s.chans == INITIAL.chans.(deferred := Some(e), reported := {e}, first := Some(Starter), startErr := Some(e))
  {
    s := WinLease();
    s := Reach(s, StartedMoves);
    s := Reach(s, StartedMoves);
    s := Reach(s, RunnerReturns(Some(e)));
    s := Reach(s, StartedMoves);
    s := Reach(s, StartedMoves);
  }

  /** The error main returns need not be the first one reported: the callbacks race between the
      mutex and the once. */
  lemma ReturnedErrorCanDifferFromFirst(e: Error) returns (s: State)
    requires e.Failure?
    ensures Reachable(s) && s.main == Returned(Some(LeadershipLost)) && s.chans.deferred == Some(e)
  {
    s := RunnerFails(e);
    s := Reach(s, LoseLease);
    s := Reach(s, ElectorMoves);
    s := ReportLoss(s);
    s := Reach(s, MainTakesErr);
  }
}
