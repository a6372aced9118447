/** runProcessWithHealthServer (cmd/oidc-proxy/main.go): the process runner and the health server, each
    sending its result once on a one-slot channel, and the main goroutine that joins them. */
module ProcessJoin {
  import opened Wrappers

  type Error = string

  /** The first error of a list, or none. */
  function First(errs: seq<Option<Error>>): Option<Error> {
    if errs == [] then None else if errs[0].Some? then errs[0] else First(errs[1..])
  }

  /** Walks the list until it meets an error. */
  method FirstErr(errs: seq<Option<Error>>) returns (r: Option<Error>)
    ensures r == First(errs)
  {
    for i := 0 to |errs|
      invariant First(errs) == First(errs[i..])
    {
      if errs[i].Some? {
        return errs[i];
      }
      assert errs[i..][1..] == errs[i + 1..];
    }
    return None;
  }

  lemma {:induction false} FirstOfConcat(a: seq<Option<Error>>, b: seq<Option<Error>>)
    ensures First(a + b) == if First(a).Some? then First(a) else First(b)
  {
    if a == [] {
      assert a + b == b;
    } else {
      assert (a + b)[1..] == a[1..] + b;
      FirstOfConcat(a[1..], b);
    }
  }

  /** No error exactly when every one of them is nil; otherwise the earliest error. */
  lemma {:induction false} FirstMeaning(errs: seq<Option<Error>>)
    ensures First(errs).None? <==> forall i :: 0 <= i < |errs| ==> errs[i].None?
    ensures First(errs).Some? ==>
              exists i :: 0 <= i < |errs| && errs[i] == First(errs) && forall j :: 0 <= j < i ==> errs[j].None?
  {
    if errs != [] && errs[0].None? {
      FirstMeaning(errs[1..]);
      assert forall i :: 1 <= i < |errs| ==> errs[i] == errs[1..][i - 1];
      if First(errs).Some? {
        var i :| 0 <= i < |errs[1..]| && errs[1..][i] == First(errs) && forall j :: 0 <= j < i ==> errs[1..][j].None?;
        assert errs[i + 1] == First(errs);
      }
    }
  }

  datatype Source = FromRunner | FromHealth | FromShutdown

  /** A result that entered the combined error. */
  datatype Item = Item(source: Source, err: Option<Error>)

  function Errors(items: seq<Item>): (errs: seq<Option<Error>>)
    ensures |errs| == |items|
  {
    seq(|items|, i requires 0 <= i < |items| => items[i].err)
  }

  datatype Task = Running | Sent(err: Option<Error>)

  datatype MainPc =
    | Selecting      // the first select
    | AwaitRunner    // the health server ended first; stop was called
    | Stopping       // about to call stop
    | ShuttingDown   // about to shut the health server down
    | AwaitHealth
    | Returned

  datatype State = State(
    runner: Task, health: Task,
    runCh: Option<Option<Error>>, healthCh: Option<Option<Error>>,
    runnerToldToStop: bool, healthToldToStop: bool,
    main: MainPc, runErr: Option<Error>, healthErrConsumed: bool,
    consumed: seq<Item>)   // the results combined so far, in order

  const INITIAL := State(Running, Running, None, None, false, false, Selecting, None, false, [])

  datatype Action =
    | RunnerEnds(err: Option<Error>) | HealthEnds(err: Option<Error>)
    | TakeRunner | TakeHealth | Stop | Shutdown(failure: Option<Error>)

  /** Folds one more result into the combined error, which keeps the first. */
  function Combine(s: State, source: Source, err: Option<Error>): State {
    s.(runErr := First([s.runErr, err]), consumed := s.consumed + [Item(source, err)])
  }

  function Step(s: State, a: Action): Option<State> {
    match a
    case RunnerEnds(err) => if s.runner.Running? then Some(s.(runner := Sent(err), runCh := Some(err))) else None
    case HealthEnds(err) => if s.health.Running? then Some(s.(health := Sent(err), healthCh := Some(err))) else None
    case TakeRunner =>
      if s.runCh.Some? && (s.main.Selecting? || s.main.AwaitRunner?) then
        Some(Combine(s, FromRunner, s.runCh.value).(runCh := None, main := Stopping))
      else None
    case TakeHealth =>
      if s.healthCh.Some? && s.main.Selecting? then
        Some(Combine(s, FromHealth, s.healthCh.value).(healthCh := None, healthErrConsumed := true,
                                                       runnerToldToStop := true, main := AwaitRunner))
      else if s.healthCh.Some? && s.main.AwaitHealth? then
        Some(Combine(s, FromHealth, s.healthCh.value).(healthCh := None, main := Returned))
      else None
    case Stop => if s.main.Stopping? then Some(s.(runnerToldToStop := true, main := ShuttingDown)) else None
    case Shutdown(failure) =>
      if s.main.ShuttingDown? then
        Some((if failure.Some? then Combine(s, FromShutdown, failure) else s)
             .(healthToldToStop := true, main := if s.healthErrConsumed then Returned else AwaitHealth))
      else None
  }

  function Exec(schedule: seq<Action>): Option<State> {
    if schedule == [] then Some(INITIAL)
    else match Exec(schedule[..|schedule| - 1])
      case None => None
      case Some(s) => Step(s, schedule[|schedule| - 1])
  }

  // ----- What a schedule says, without running it -----

  /** What the runner's goroutine, or the health server's, sent in the course of a schedule. */
  ghost function SentBy(schedule: seq<Action>, source: Source): Option<Error> {
    if schedule == [] then None
    else
      var last := schedule[|schedule| - 1];
      if source.FromRunner? && last.RunnerEnds? then last.err
      else if source.FromHealth? && last.HealthEnds? then last.err
      else SentBy(schedule[..|schedule| - 1], source)
  }

  /** The results that count, in the order in which the schedule takes them: each result received,
      and the failure of a shutdown. */
  ghost function Taken(schedule: seq<Action>): seq<Item> {
    if schedule == [] then []
    else
      var before, last := schedule[..|schedule| - 1], schedule[|schedule| - 1];
      Taken(before) +
      match last
      case TakeRunner => [Item(FromRunner, SentBy(before, FromRunner))]
      case TakeHealth => [Item(FromHealth, SentBy(before, FromHealth))]
      case Shutdown(failure) => if failure.Some? then [Item(FromShutdown, failure)] else []
      case _ => []
  }

  ghost predicate ShutDownWith(schedule: seq<Action>, failure: Option<Error>) {
    exists i :: 0 <= i < |schedule| && schedule[i] == Shutdown(failure)
  }

  function RunnerItem(s: State): Item
    requires s.runner.Sent?
  {
    Item(FromRunner, s.runner.err)
  }

  function HealthItem(s: State): Item
    requires s.health.Sent?
  {
    Item(FromHealth, s.health.err)
  }

  ghost predicate ShutdownItems(items: seq<Item>) {
    items == [] || (|items| == 1 && items[0].source.FromShutdown? && items[0].err.Some?)
  }

  /** What has been consumed at each point of main; `mid` is a failed shutdown, if there was one. */
  ghost predicate ConsumedSoFar(s: State, mid: seq<Item>) {
    && (s.main.Selecting? ==> s.consumed == [] && mid == [] && !s.healthErrConsumed)
    && (s.main.AwaitRunner? ==> s.healthErrConsumed && mid == [] && s.health.Sent? && s.consumed == [HealthItem(s)])
    && (s.main.Stopping? || s.main.ShuttingDown? || s.main.AwaitHealth? || s.main.Returned? ==> s.runner.Sent?)
    && (s.healthErrConsumed ==> s.health.Sent? && !s.main.AwaitHealth?)
    && (s.main.Stopping? || s.main.ShuttingDown? ==>
          mid == [] && s.consumed == if s.healthErrConsumed then [HealthItem(s), RunnerItem(s)] else [RunnerItem(s)])
    && (s.main.AwaitHealth? ==> s.consumed == [RunnerItem(s)] + mid)
    && (s.main.Returned? ==> s.health.Sent?)
    && (s.main.Returned? ==>
          s.consumed == if s.healthErrConsumed then [HealthItem(s), RunnerItem(s)] + mid
                        else [RunnerItem(s)] + mid + [HealthItem(s)])
  }

  ghost predicate ChannelInv(s: State) {
    && (s.runCh.Some? <==> s.runner.Sent? && (s.main.Selecting? || s.main.AwaitRunner?))
    && (s.runCh.Some? ==> s.runCh.value == s.runner.err)
    && (s.healthCh.Some? <==> s.health.Sent? && !s.healthErrConsumed && !s.main.Returned?)
    && (s.healthCh.Some? ==> s.healthCh.value == s.health.err)
    && (!s.main.Selecting? && !s.main.Stopping? ==> s.runnerToldToStop)
    && (s.main.AwaitHealth? || s.main.Returned? ==> s.healthToldToStop)
  }

  ghost predicate Inv(s: State, mid: seq<Item>) {
    ChannelInv(s) && ConsumedSoFar(s, mid) && ShutdownItems(mid) && s.runErr == First(Errors(s.consumed))
  }

  /** How the state reflects the schedule that led to it. */
  ghost predicate Follows(schedule: seq<Action>, s: State, mid: seq<Item>) {
    && s.consumed == Taken(schedule)
    && (s.runner.Sent? ==> s.runner.err == SentBy(schedule, FromRunner))
    && (s.health.Sent? ==> s.health.err == SentBy(schedule, FromHealth))
    && (s.main.AwaitHealth? || s.main.Returned? <==> exists failure :: ShutDownWith(schedule, failure))
    && (forall failure :: ShutDownWith(schedule, failure) ==>
          mid == if failure.Some? then [Item(FromShutdown, failure)] else [])
  }

  lemma CombineKeeps(s: State, source: Source, err: Option<Error>)
    requires s.runErr == First(Errors(s.consumed))
    ensures Combine(s, source, err).runErr == First(Errors(Combine(s, source, err).consumed))
  {
    var item := Item(source, err);
    assert Errors(s.consumed + [item]) == Errors(s.consumed) + [err];
    FirstOfConcat(Errors(s.consumed), [err]);
  }

  lemma StepKeeps(s: State, mid: seq<Item>, a: Action) returns (mid': seq<Item>)
    requires Inv(s, mid) && Step(s, a).Some?
    ensures Inv(Step(s, a).value, mid')
    ensures mid' == if a.Shutdown? && a.failure.Some? then [Item(FromShutdown, a.failure)] else mid
    ensures a.Shutdown? ==> s.main.ShuttingDown? && mid == []
  {
    mid' := mid;
    match a
    case RunnerEnds(_) =>
    case HealthEnds(_) =>
    case TakeRunner => CombineKeeps(s, FromRunner, s.runCh.value);
    case TakeHealth => CombineKeeps(s, FromHealth, s.healthCh.value);
    case Stop =>
    case Shutdown(failure) =>
      if failure.Some? {
        mid' := [Item(FromShutdown, failure)];
        CombineKeeps(s, FromShutdown, failure);
      }
  }

  lemma StepFollows(before: seq<Action>, s: State, mid: seq<Item>, a: Action, mid': seq<Item>)
    requires Inv(s, mid) && Follows(before, s, mid) && Step(s, a).Some?
    requires mid' == if a.Shutdown? && a.failure.Some? then [Item(FromShutdown, a.failure)] else mid
    requires a.Shutdown? ==> s.main.ShuttingDown? && mid == []
    ensures Follows(before + [a], Step(s, a).value, mid')
  {
    var schedule, s' := before + [a], Step(s, a).value;
    assert schedule[..|schedule| - 1] == before;
    forall failure
      ensures ShutDownWith(schedule, failure) <==> ShutDownWith(before, failure) || a == Shutdown(failure)
    {
      if a == Shutdown(failure) {
        assert schedule[|before|] == Shutdown(failure);
      }
      if i :| 0 <= i < |before| && before[i] == Shutdown(failure) {
        assert schedule[i] == Shutdown(failure);
      }
    }
  }

  /** Steps still possible. */
  function Rank(s: State): nat {
    (if s.runner.Running? then 1 else 0) + (if s.health.Running? then 1 else 0) +
    match s.main
    case Selecting => 5
    case AwaitRunner => 4
    case Stopping => 3
    case ShuttingDown => 2
    case AwaitHealth => 1
    case Returned => 0
  }

  lemma StepDescends(s: State, mid: seq<Item>, a: Action)
    requires Inv(s, mid) && Step(s, a).Some?
    ensures Rank(Step(s, a).value) < Rank(s)
  {
  }

  lemma InitialHolds()
    ensures Inv(INITIAL, []) && Follows([], INITIAL, [])
  {
  }

  lemma {:induction false} ScheduleKeeps(schedule: seq<Action>) returns (mid: seq<Item>)
    requires Exec(schedule).Some?
    ensures Inv(Exec(schedule).value, mid) && Follows(schedule, Exec(schedule).value, mid)
    ensures |schedule| + Rank(Exec(schedule).value) <= Rank(INITIAL)
  {
    hide Inv, Follows, Rank, Step;
    if schedule == [] {
      mid := [];
      InitialHolds();
    } else {
      var before, last := schedule[..|schedule| - 1], schedule[|schedule| - 1];
      var s := Exec(before).value;
      var was := ScheduleKeeps(before);
      mid := StepKeeps(s, was, last);
      StepFollows(before, s, was, last, mid);
      StepDescends(s, was, last);
      assert before + [last] == schedule;
    }
  }

  /** At every point, the combined error is the first one among the results that the schedule has
      taken so far, in the order in which it took them. */
  lemma FirstTakenWins(schedule: seq<Action>, s: State)
    requires Exec(schedule) == Some(s)
    ensures s.runErr == First(Errors(Taken(schedule)))
    ensures s.runErr.None? <==> forall i :: 0 <= i < |Taken(schedule)| ==> Taken(schedule)[i].err.None?
  {
    var mid := ScheduleKeeps(schedule);
    FirstMeaning(Errors(Taken(schedule)));
    assert forall i :: 0 <= i < |Taken(schedule)| ==> Errors(Taken(schedule))[i] == Taken(schedule)[i].err;
  }

  /** When main returns, in whatever order the results arrived, what the runner sent and what the
      health server sent have each been taken exactly once, besides the failure of the one shutdown,
      if it failed; and the result is the first error in that order. */
  lemma JoinedExactlyOnce(schedule: seq<Action>, s: State) returns (mid: seq<Item>)
    requires Exec(schedule) == Some(s) && s.main.Returned?
    ensures s.runner.Sent? && s.runner.err == SentBy(schedule, FromRunner)
    ensures s.health.Sent? && s.health.err == SentBy(schedule, FromHealth)
    ensures exists failure :: ShutDownWith(schedule, failure)
    ensures forall failure :: ShutDownWith(schedule, failure) ==>
              mid == if failure.Some? then [Item(FromShutdown, failure)] else []
    ensures s.consumed == Taken(schedule)
    ensures s.consumed == [HealthItem(s), RunnerItem(s)] + mid || s.consumed == [RunnerItem(s)] + mid + [HealthItem(s)]
    ensures s.runErr == First(Errors(s.consumed))
    ensures s.runErr.None? <==> s.runner.err.None? && s.health.err.None? && mid == []
  {
    mid := ScheduleKeeps(schedule);
    FirstMeaning(Errors(s.consumed));
    assert forall i :: 0 <= i < |s.consumed| ==> Errors(s.consumed)[i] == s.consumed[i].err;
    var r := if s.healthErrConsumed then 1 else 0;
    var h := if s.healthErrConsumed then 0 else |s.consumed| - 1;
    assert Errors(s.consumed)[r] == s.runner.err && Errors(s.consumed)[h] == s.health.err;
    if mid != [] {
      var d := if s.healthErrConsumed then 2 else 1;
      assert Errors(s.consumed)[d] == mid[0].err;
    }
  }

  /** What main is waiting for has been told to stop. */
  predicate WaitsRightly(s: State) {
    match s.main
    case Selecting => s.runner.Running? && s.health.Running?
    case AwaitRunner => s.runner.Running? && s.runnerToldToStop
    case AwaitHealth => s.health.Running? && s.healthToldToStop
    case _ => false
  }

  lemma MainCanMove(s: State, mid: seq<Item>)
    requires Inv(s, mid) && !s.main.Returned? && !WaitsRightly(s)
    ensures Step(s, TakeRunner).Some? || Step(s, TakeHealth).Some?
            || Step(s, Stop).Some? || forall failure :: Step(s, Shutdown(failure)).Some?
  {
  }

  lemma StuckMeansReturned(s: State, mid: seq<Item>)
    requires Inv(s, mid) && forall a :: Step(s, a).None?
    ensures s.main.Returned?
  {
    assert Step(s, RunnerEnds(None)).None? && Step(s, HealthEnds(None)).None?;
    assert Step(s, Shutdown(None)).None?;
    if !s.main.Returned? {
      MainCanMove(s, mid);
    }
  }

  /** No deadlock: at most seven steps are ever taken; main can move unless it has returned or waits for
      a task that is still running, for both of them or for one that was told to stop; and a schedule
      that cannot be extended has returned, with everything told to stop. */
  lemma NeverStuck(schedule: seq<Action>, s: State)
    requires Exec(schedule) == Some(s)
    ensures |schedule| <= 7
    ensures (forall a :: Step(s, a).None?) ==> s.main.Returned?
    ensures s.main.Returned? || WaitsRightly(s)
            || Step(s, TakeRunner).Some? || Step(s, TakeHealth).Some?
            || Step(s, Stop).Some? || forall failure :: Step(s, Shutdown(failure)).Some?
    ensures s.main.Selecting? ==>
              && (s.runner.Sent? ==> Step(s, TakeRunner).Some?) && (s.health.Sent? ==> Step(s, TakeHealth).Some?)
    ensures s.main.Returned? ==> s.runnerToldToStop && s.healthToldToStop
  {
    hide Follows, ConsumedSoFar;
    var mid := ScheduleKeeps(schedule);
    if forall a :: Step(s, a).None? {
      StuckMeansReturned(s, mid);
    }
    if !s.main.Returned? && !WaitsRightly(s) {
      MainCanMove(s, mid);
    }
  }
}
