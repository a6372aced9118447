/** What a history that keeps the discipline satisfies as a whole. Each law is stated with positions
    in the history only; the `MeaningOf...` lemmas say what the summaries stand for, and the
    `Theorem...` lemmas derive the laws. */
module RunnerLaws {
  import opened Wrappers
  import opened RunnerTrace

  // ----- Servers: built once, used while open, closed once -----

  ghost predicate OpenIn(p: seq<Event>, id: nat) { Built(id) in p && Closed(id) !in p }

  ghost predicate ServersConserved(t: seq<Event>) {
    && (forall n, a, b :: 0 <= n <= |t| && OpenIn(t[..n], a) && OpenIn(t[..n], b) ==> a == b)
    && (forall i :: 0 <= i < |t| && OnServer(t[i]) ==> OpenIn(t[..i], t[i].id))
    && (forall i, j :: 0 <= i < j < |t| && (t[i].Built? || t[i].Closed?) ==> t[i] != t[j])
    && (forall i, id :: 0 <= i < |t| && t[i].Exited? ==> !OpenIn(t[..i], id) && i == |t| - 1)
  }

  lemma {:induction false} MeaningOfOpen(t: seq<Event>)
    requires LifeOk(t)
    ensures forall id: nat :: Built(id) in t <==> id < LifeOf(t).built
    ensures forall id: nat :: Closed(id) in t <==> id < LifeOf(t).built && !LifeOf(t).Newest(id)
    ensures LifeOf(t).open ==> LifeOf(t).built > 0
    ensures LifeOf(t).exited <==> t != [] && t[|t| - 1].Exited?
  {
    if t != [] {
      var p, e := t[..|t| - 1], t[|t| - 1];
      MeaningOfOpen(p);
      assert t == p + [e];
    }
  }

  lemma TheoremServersConserved(t: seq<Event>)
    requires LifeOk(t)
    ensures ServersConserved(t)
  {
    forall n, a, b | 0 <= n <= |t| && OpenIn(t[..n], a) && OpenIn(t[..n], b)
      ensures a == b
    {
      if n < |t| { LifeAt(t, n); } else { assert t[..n] == t; }
      MeaningOfOpen(t[..n]);
    }
    forall i | 0 <= i < |t| && OnServer(t[i])
      ensures OpenIn(t[..i], t[i].id)
    {
      LifeAt(t, i);
      MeaningOfOpen(t[..i]);
    }
    forall i, j | 0 <= i < j < |t| && (t[i].Built? || t[i].Closed?)
      ensures t[i] != t[j]
    {
      LifeAt(t, j);
      MeaningOfOpen(t[..j]);
      assert t[..j][i] in t[..j];
    }
    forall i, id | 0 <= i < |t| && t[i].Exited?
      ensures !OpenIn(t[..i], id) && i == |t| - 1
    {
      LifeAt(t, i);
      MeaningOfOpen(t[..i]);
      if i < |t| - 1 {
        LifeAt(t, i + 1);
        MeaningOfOpen(t[..i + 1]);
      }
    }
  }

  /** What conservation means at the end: a run that has returned built each server once and
      closed each exactly once, after building it. */
  lemma ReturnedMeansAllClosed(t: seq<Event>, b: nat)
    requires ServersConserved(t) && t != [] && t[|t| - 1].Exited?
    requires b < |t| && t[b].Built?
    ensures exists c :: b < c < |t| && t[c] == Closed(t[b].id)
                        && forall k :: 0 <= k < |t| && t[k] == Closed(t[b].id) ==> k == c
  {
    var id, n := t[b].id, |t| - 1;
    assert t[..n][b] == Built(id);
    assert !OpenIn(t[..n], id);
    var c :| 0 <= c < n && t[..n][c] == Closed(id);
    assert OnServer(t[c]) && OpenIn(t[..c], id);
    var b' :| 0 <= b' < c && t[..c][b'] == Built(id);
    assert b' == b;
  }

  // ----- Serving: only what was started, is running and shows the expected host -----

  /** Position i lies in the iteration that is current at the end of p. */
  ghost predicate Now(p: seq<Event>, i: int) {
    0 <= i < |p| && forall k :: i < k < |p| ==> p[k] != Iteration
  }

  ghost predicate RunningNow(p: seq<Event>, id: nat, s: int, r: int) {
    Now(p, s) && s < r < |p| && p[s] == StartCalled(id, true) && p[r] == Probed(id, RUNNING)
  }

  ghost predicate HostNow(host: string, p: seq<Event>, id: nat, r: int, c: int) {
    0 <= r < c < |p| && p[c].CertsRead? && p[c].ok && p[c].id == id && host in p[c].domains
  }

  /** In this iteration the server was started, then probed Running, then shown to own the host. */
  ghost predicate VerifiedNow(host: string, p: seq<Event>, id: nat) {
    exists s, r :: RunningNow(p, id, s, r) && (host == "" || exists c :: HostNow(host, p, id, r, c))
  }

  ghost predicate NoUnverifiedServing(host: string, t: seq<Event>) {
    forall i :: 0 <= i < |t| && t[i].Listened? ==> VerifiedNow(host, t[..i], t[i].id)
  }

  ghost predicate StartedNow(p: seq<Event>, id: int, s: int) {
    Now(p, s) && p[s].StartCalled? && p[s].ok && p[s].id == id
  }

  lemma NowStays(p: seq<Event>, e: Event, i: int)
    requires Now(p, i) && !e.Iteration?
    ensures Now(p + [e], i) && (p + [e])[i] == p[i]
  {
  }

  lemma {:induction false} MeaningOfStarted(host: string, t: seq<Event>) returns (s: int)
    requires LifeOk(t) && ServeOk(host, t) && ServeOf(host, t).started
    ensures LifeOf(t).built > 0 && StartedNow(t, LifeOf(t).built - 1, s)
    ensures forall k :: s < k < |t| ==> !t[k].StartCalled?
  {
    var p, e := t[..|t| - 1], t[|t| - 1];
    assert t == p + [e];
    if e.StartCalled? {
      s := |p|;
    } else {
      s := MeaningOfStarted(host, p);
      NowStays(p, e, s);
    }
  }

  /** The main loop asks for the state only of a server that it has started in the same iteration. */
  ghost predicate ProbesFollowStart(t: seq<Event>) {
    forall i :: 0 <= i < |t| && t[i].Probed? ==> exists s :: TriedNow(t[..i], t[i].id, s)
  }

  ghost predicate TriedNow(p: seq<Event>, id: int, s: int) {
    Now(p, s) && p[s].StartCalled? && p[s].id == id
  }

  lemma {:induction false} MeaningOfTried(host: string, t: seq<Event>) returns (s: int)
    requires LifeOk(t) && ServeOk(host, t) && ServeOf(host, t).tried
    ensures LifeOf(t).built > 0 && TriedNow(t, LifeOf(t).built - 1, s)
  {
    var p, e := t[..|t| - 1], t[|t| - 1];
    assert t == p + [e];
    if e.StartCalled? {
      s := |p|;
    } else {
      s := MeaningOfTried(host, p);
      NowStays(p, e, s);
    }
  }

  lemma TheoremProbesFollowStart(host: string, t: seq<Event>)
    requires LifeOk(t) && ServeOk(host, t)
    ensures ProbesFollowStart(t)
  {
    forall i | 0 <= i < |t| && t[i].Probed?
      ensures exists s :: TriedNow(t[..i], t[i].id, s)
    {
      LifeAt(t, i);
      ServeAt(host, t, i);
      var s := MeaningOfTried(host, t[..i]);
    }
  }

  /** Within an iteration, and on one server, what has been established stays established. */
  lemma RunningStep(host: string, s: Serve, e: Event)
    requires ServeStep(host, s, e).running
    ensures !e.Iteration? && !e.Built? && (s.started ==> ServeStep(host, s, e).started)
    ensures !s.running ==> s.started && e.Probed? && e.state == RUNNING
  {
  }

  lemma {:induction false} MeaningOfRunning(host: string, t: seq<Event>) returns (s: int, r: int)
    requires LifeOk(t) && ServeOk(host, t) && ServeOf(host, t).running
    ensures ServeOf(host, t).started && LifeOf(t).built > 0
    ensures RunningNow(t, LifeOf(t).built - 1, s, r)
  {
    var p, e := t[..|t| - 1], t[|t| - 1];
    RunningStep(host, ServeOf(host, p), e);
    if ServeOf(host, p).running {
      s, r := MeaningOfRunning(host, p);
    } else {
      s := MeaningOfStarted(host, p);
      r := |p|;
    }
    assert t == p + [e];
    NowStays(p, e, s);
  }

  lemma RunningStays(p: seq<Event>, e: Event, id: nat, s: int, r: int)
    requires RunningNow(p, id, s, r) && !e.Iteration?
    ensures RunningNow(p + [e], id, s, r)
  {
  }

  lemma HostStillSeen(host: string, t: seq<Event>)
    requires t != [] && LifeOk(t) && ServeOk(host, t) && ServeOf(host, t).hostSeen
    ensures var p, e := t[..|t| - 1], t[|t| - 1];
            && ServeOf(host, p).running && !e.Iteration? && LifeOf(t).built == LifeOf(p).built
            && (ServeOf(host, p).hostSeen ||
                (e.CertsRead? && e.ok && host in e.domains && LifeOf(p).Newest(e.id)))
  {
    if |t| > 1 && !t[|t| - 1].CertsRead? {
      HostStillSeen(host, t[..|t| - 1]);
    }
  }

  lemma {:induction false} MeaningOfHostSeen(host: string, t: seq<Event>) returns (s: int, r: int, c: int)
    requires LifeOk(t) && ServeOk(host, t) && ServeOf(host, t).hostSeen
    ensures LifeOf(t).built > 0
    ensures RunningNow(t, LifeOf(t).built - 1, s, r) && HostNow(host, t, LifeOf(t).built - 1, r, c)
  {
    var p, e := t[..|t| - 1], t[|t| - 1];
    HostStillSeen(host, t);
    assert t == p + [e];
    if ServeOf(host, p).hostSeen {
      s, r, c := MeaningOfHostSeen(host, p);
    } else {
      s, r := MeaningOfRunning(host, p);
      c := |p|;
    }
    RunningStays(p, e, LifeOf(t).built - 1, s, r);
  }

  lemma VerifiedFromSummary(host: string, t: seq<Event>)
    requires LifeOk(t) && ServeOk(host, t) && ServeOf(host, t).running && (host == "" || ServeOf(host, t).hostSeen)
    ensures LifeOf(t).built > 0 && VerifiedNow(host, t, LifeOf(t).built - 1)
  {
    if host == "" {
      var s, r := MeaningOfRunning(host, t);
    } else {
      var s, r, c := MeaningOfHostSeen(host, t);
    }
  }

  lemma ListenedIsVerified(host: string, t: seq<Event>, i: nat)
    requires LifeOk(t) && ServeOk(host, t) && i < |t| && t[i].Listened?
    ensures VerifiedNow(host, t[..i], t[i].id)
  {
    hide LifeOk, ServeOk, LifeOf, ServeOf;
    LifeAt(t, i);
    ServeAt(host, t, i);
    VerifiedFromSummary(host, t[..i]);
    assert LifeOf(t[..i]).built - 1 == t[i].id;
  }

  lemma TheoremNoUnverifiedServing(host: string, t: seq<Event>)
    requires LifeOk(t) && ServeOk(host, t)
    ensures NoUnverifiedServing(host, t)
  {
    forall i | 0 <= i < |t| && t[i].Listened?
      ensures VerifiedNow(host, t[..i], t[i].id)
    {
      ListenedIsVerified(host, t, i);
    }
  }

  // ----- Keys: each minted key reaches exactly one, never started, server -----

  ghost predicate KeyEvent(e: Event) { (e.Minted? && e.ok) || e.KeySet? }

  /** The key minted at i is the one set at j; no other key is minted or set in between. */
  ghost predicate Applied(t: seq<Event>, i: int, j: int) {
    && 0 <= i < j < |t| && t[i].Minted? && t[i].ok && t[j].KeySet? && t[j].key == t[i].key
    && forall k :: i < k < j ==> !KeyEvent(t[k])
  }

  ghost predicate LastKeyEvent(t: seq<Event>, i: int) {
    0 <= i < |t| && KeyEvent(t[i]) && forall k :: i < k < |t| ==> !KeyEvent(t[k])
  }

  /** Each successful mint is applied, unless the history ends before that; each key set is one
      just minted. */
  ghost predicate KeysApplied(t: seq<Event>) {
    && (forall i :: 0 <= i < |t| && t[i].Minted? && t[i].ok ==> LastKeyEvent(t, i) || exists j :: Applied(t, i, j))
    && (forall j :: 0 <= j < |t| && t[j].KeySet? ==> exists i :: Applied(t, i, j))
    && (t != [] && t[|t| - 1].Exited? ==> AllApplied(t))
  }

  /** A server is given its key before it is ever started. */
  ghost predicate KeysBeforeStart(t: seq<Event>) {
    forall k, j :: 0 <= k < j < |t| && t[j].KeySet? ==> !(t[k].StartCalled? && t[k].id == t[j].id)
  }

  /** A second key is minted only after a serve cycle or a failed Start. */
  ghost predicate MintsSpaced(t: seq<Event>) {
    forall i, j :: 0 <= i < j < |t| && t[i].Minted? && t[i].ok && t[i].key != "" && t[j].Minted? && t[j].ok ==>
      Settled(t[..j], i)
  }

  /** After position i comes a serve cycle or a failed Start. */
  ghost predicate Settled(t: seq<Event>, i: int) {
    exists k :: 0 <= i < k < |t| && (t[k].ServeCycle? || (t[k].StartCalled? && !t[k].ok))
  }

  ghost predicate AllApplied(t: seq<Event>) {
    forall i :: 0 <= i < |t| && t[i].Minted? && t[i].ok ==> exists j :: Applied(t, i, j)
  }

  /** A pending key is the key of a mint that ends the sequence of key events. */
  lemma {:induction false} PendingMint(t: seq<Event>) returns (i: nat)
    requires KeysOk(t) && KeysOf(t).pending.Some?
    ensures LastKeyEvent(t, i) && t[i] == Minted(true, KeysOf(t).pending.value)
  {
    if KeyEvent(t[|t| - 1]) {
      i := |t| - 1;
    } else {
      i := PendingMint(t[..|t| - 1]);
    }
  }

  /** A minted key stays pending until the next key event. */
  lemma {:induction false} PendingStays(t: seq<Event>, i: nat)
    requires LastKeyEvent(t, i) && t[i].Minted?
    ensures KeysOf(t).pending == Some(t[i].key)
  {
    if i < |t| - 1 {
      var p := t[..|t| - 1];
      assert LastKeyEvent(p, i) && !KeyEvent(t[|t| - 1]);
      PendingStays(p, i);
    }
  }

  lemma {:induction false} FirstKeyEventAfter(t: seq<Event>, i: nat, k: nat) returns (j: nat)
    requires i < k < |t| && KeyEvent(t[k])
    ensures i < j < |t| && KeyEvent(t[j]) && LastKeyEventBefore(t, i, j)
    decreases k
  {
    if l :| i < l < k && KeyEvent(t[l]) {
      j := FirstKeyEventAfter(t, i, l);
    } else {
      j := k;
    }
  }

  ghost predicate LastKeyEventBefore(t: seq<Event>, i: int, j: int) {
    0 <= i < j <= |t| && forall k :: i < k < j ==> !KeyEvent(t[k])
  }

  /** If anything key-related follows a mint, then first of all its key is applied. */
  lemma MintIsApplied(t: seq<Event>, i: nat, k: nat) returns (j: nat)
    requires KeysOk(t) && i < k < |t| && KeyEvent(t[k]) && t[i].Minted? && t[i].ok
    ensures Applied(t, i, j)
  {
    j := FirstKeyEventAfter(t, i, k);
    KeysAt(t, j);
    assert LastKeyEvent(t[..j], i);
    PendingStays(t[..j], i);
  }

  lemma {:induction false} MeaningOfStartCalled(t: seq<Event>)
    requires LifeOk(t)
    ensures forall k :: 0 <= k < |t| && t[k].StartCalled? ==> t[k].id < LifeOf(t).built
    ensures !LifeOf(t).startCalled ==>
              forall k :: 0 <= k < |t| && t[k].StartCalled? ==> t[k].id + 1 != LifeOf(t).built
  {
    if t != [] {
      var p, e := t[..|t| - 1], t[|t| - 1];
      MeaningOfStartCalled(p);
      forall k | 0 <= k < |t| && t[k].StartCalled?
        ensures t[k].id < LifeOf(t).built
        ensures !LifeOf(t).startCalled ==> t[k].id + 1 != LifeOf(t).built
      {
        if k < |p| {
          assert p[k] == t[k];
        }
      }
    }
  }

  lemma {:induction false} MeaningOfOwed(t: seq<Event>)
    requires KeysOk(t) && !KeysOf(t).owed
    ensures forall i :: 0 <= i < |t| && t[i].Minted? && t[i].ok && t[i].key != "" ==> Settled(t, i)
  {
    if t != [] {
      var p, e := t[..|t| - 1], t[|t| - 1];
      if !KeysOf(p).owed {
        MeaningOfOwed(p);
      }
      forall i | 0 <= i < |t| && t[i].Minted? && t[i].ok && t[i].key != ""
        ensures Settled(t, i)
      {
        assert i < |p| && p[i] == t[i];
        if KeysOf(p).owed {
          assert i < |p| < |t| && (t[|p|].ServeCycle? || (t[|p|].StartCalled? && !t[|p|].ok));
        } else {
          var k :| i < k < |p| && (p[k].ServeCycle? || (p[k].StartCalled? && !p[k].ok));
          assert t[k] == p[k];
        }
      }
    }
  }

  lemma MintsApplied(t: seq<Event>, i: nat)
    requires KeysOk(t) && i < |t| && t[i].Minted? && t[i].ok
    ensures LastKeyEvent(t, i) || exists j :: Applied(t, i, j)
    ensures t[|t| - 1].Exited? ==> !LastKeyEvent(t, i)
  {
    if k :| i < k < |t| && KeyEvent(t[k]) {
      var j := MintIsApplied(t, i, k);
    } else {
      PendingStays(t, i);
    }
  }

  lemma KeySetWasMinted(t: seq<Event>, j: nat)
    requires KeysOk(t) && j < |t| && t[j].KeySet?
    ensures exists i :: Applied(t, i, j)
  {
    KeysAt(t, j);
    var i := PendingMint(t[..j]);
    assert Applied(t, i, j);
  }

  lemma TheoremKeysApplied(t: seq<Event>)
    requires KeysOk(t)
    ensures KeysApplied(t)
  {
    forall i | 0 <= i < |t| && t[i].Minted? && t[i].ok
      ensures LastKeyEvent(t, i) || exists j :: Applied(t, i, j)
      ensures t[|t| - 1].Exited? ==> exists j :: Applied(t, i, j)
    {
      MintsApplied(t, i);
    }
    forall j | 0 <= j < |t| && t[j].KeySet?
      ensures exists i :: Applied(t, i, j)
    {
      KeySetWasMinted(t, j);
    }
  }

  lemma TheoremKeysBeforeStart(t: seq<Event>)
    requires LifeOk(t)
    ensures KeysBeforeStart(t)
  {
    forall k, j | 0 <= k < j < |t| && t[j].KeySet?
      ensures !(t[k].StartCalled? && t[k].id == t[j].id)
    {
      LifeAt(t, j);
      MeaningOfStartCalled(t[..j]);
      assert t[..j][k] == t[k];
    }
  }

  lemma TheoremMintsSpaced(t: seq<Event>)
    requires KeysOk(t)
    ensures MintsSpaced(t)
  {
    forall i, j | 0 <= i < j < |t| && t[i].Minted? && t[i].ok && t[i].key != "" && t[j].Minted? && t[j].ok
      ensures Settled(t[..j], i)
    {
      KeysAt(t, j);
      MeaningOfOwed(t[..j]);
      assert t[..j][i] == t[i];
    }
  }

  /** The minter is called only in an iteration in which a probe said NeedsLogin, and none said
      Running after a Start that succeeded. */
  ghost predicate MintsForLogin(t: seq<Event>) {
    forall i :: 0 <= i < |t| && t[i].Minted? ==>
      (exists k :: AskedNow(t[..i], k)) && (forall id, s, r :: !UpNow(t[..i], id, s, r))
  }

  ghost predicate AskedNow(p: seq<Event>, k: int) {
    Now(p, k) && p[k].Probed? && p[k].state == NEEDS_LOGIN
  }

  lemma {:induction false} MeaningOfAsked(t: seq<Event>)
    requires PaceOk(t)
    ensures PaceOf(t).asked <==> exists k :: AskedNow(t, k)
  {
    if t != [] {
      var p, e := t[..|t| - 1], t[|t| - 1];
      MeaningOfAsked(p);
      assert t == p + [e];
      if k :| AskedNow(t, k) && k < |p| {
        assert AskedNow(p, k);
      }
      if PaceOf(t).asked {
        if e.Probed? && e.state == NEEDS_LOGIN {
          assert AskedNow(t, |p|);
        } else {
          var k :| AskedNow(p, k);
          NowStays(p, e, k);
          assert AskedNow(t, k);
        }
      }
    }
  }

  lemma TheoremMintsForLogin(t: seq<Event>)
    requires PaceOk(t)
    ensures MintsForLogin(t)
  {
    forall i | 0 <= i < |t| && t[i].Minted?
      ensures (exists k :: AskedNow(t[..i], k)) && (forall id, s, r :: !UpNow(t[..i], id, s, r))
    {
      PaceAt(t, i);
      MeaningOfAsked(t[..i]);
      NotUp(t[..i]);
    }
  }

  // ----- The public-ready signal -----

  /** The value of the signal after the history p. */
  ghost function ReadyAfter(p: seq<Event>): bool {
    if p == [] then false
    else if p[|p| - 1].Ready? then p[|p| - 1].up
    else ReadyAfter(p[..|p| - 1])
  }

  ghost predicate ReadyDiscipline(host: string, t: seq<Event>) {
    && (forall n :: 0 <= n <= |t| && ReadyAfter(t[..n]) ==>
          exists id :: OpenIn(t[..n], id) && VerifiedNow(host, t[..n], id))
    && (forall i :: 0 <= i < |t| && NeverWhileReady(t[i]) ==> !ReadyAfter(t[..i]))
  }

  lemma {:induction false} MeaningOfReady(host: string, t: seq<Event>)
    requires LifeOk(t) && ServeOk(host, t)
    ensures ServeOf(host, t).ready == ReadyAfter(t)
    ensures var s := ServeOf(host, t);
            s.ready || s.Serving() ==> LifeOf(t).open && s.running && (host == "" || s.hostSeen)
  {
    if t != [] {
      MeaningOfReady(host, t[..|t| - 1]);
    }
  }

  lemma TheoremReadyDiscipline(host: string, t: seq<Event>)
    requires LifeOk(t) && ServeOk(host, t)
    ensures ReadyDiscipline(host, t)
  {
    forall n | 0 <= n <= |t| && ReadyAfter(t[..n])
      ensures exists id :: OpenIn(t[..n], id) && VerifiedNow(host, t[..n], id)
    {
      if n < |t| { LifeAt(t, n); ServeAt(host, t, n); } else { assert t[..n] == t; }
      MeaningOfReady(host, t[..n]);
      VerifiedFromSummary(host, t[..n]);
      MeaningOfOpen(t[..n]);
      assert OpenIn(t[..n], LifeOf(t[..n]).built - 1);
    }
    forall i | 0 <= i < |t| && NeverWhileReady(t[i])
      ensures !ReadyAfter(t[..i])
    {
      LifeAt(t, i);
      ServeAt(host, t, i);
      MeaningOfReady(host, t[..i]);
    }
  }

  /** No two goroutines serve on one server; each result is received exactly once, after the signal
      was raised and the watcher started, and before the server is closed; and exactly when the loop
      found a reason to stop, it shut the HTTP server down, and the result is received for that reason. */
  ghost predicate ServeResultsReceived(t: seq<Event>) {
    && (forall i, j :: 0 <= i < j < |t| && t[i].ServeSpawned? && t[j].ServeSpawned? ==> t[i].id != t[j].id)
    && (forall i, j :: 0 <= i < j < |t| && t[i].ServeReceived? && t[j].ServeReceived? ==> t[i].id != t[j].id)
    && (forall j :: 0 <= j < |t| && t[j].ServeReceived? ==> CycleComplete(t[..j], t[j].id, t[j].how))
    && (forall i :: 0 <= i < |t| && t[i].Closed? && ServeSpawned(t[i].id) in t[..i] ==> Received(t[..i], t[i].id))
    && (forall i :: 0 <= i < |t| && (t[i].FlipSeen? || t[i].DoneSeen?) ==> Underway(t[..i], t[i].id))
  }

  /** A goroutine serves that was not told to stop. */
  ghost predicate Underway(p: seq<Event>, id: nat) {
    ServeSpawned(id) in p && !Received(p, id) && ShutdownCalled(id) !in p
  }

  ghost predicate Received(p: seq<Event>, id: nat) { exists how :: ServeReceived(id, how) in p }

  /** The goroutine was spawned at s and announced at r. */
  ghost predicate AnnouncedAt(p: seq<Event>, id: nat, s: int, r: int) {
    0 <= s < r < |p| && p[s] == ServeSpawned(id) && p[r] == Ready(true)
  }

  ghost predicate WatchedAfter(p: seq<Event>, id: nat, r: int) {
    exists w :: 0 <= r < w < |p| && p[w] == WatchStarted(id)
  }

  ghost predicate StoppedAfter(p: seq<Event>, id: nat, r: int) {
    exists d :: StoppedAt(p, id, r, d)
  }

  ghost predicate StoppedAt(p: seq<Event>, id: nat, r: int, d: int) {
    0 <= r < d < |p| && p[d] == ShutdownCalled(id) && StopSeen(p[..d], id)
  }

  /** A reason to stop serving was found. */
  ghost predicate StopSeen(p: seq<Event>, id: nat) { FlipSeen(id) in p || DoneSeen(id) in p }

  ghost predicate CycleComplete(p: seq<Event>, id: nat, how: Receipt) {
    exists s, r :: AnnouncedAt(p, id, s, r) && WatchedAfter(p, id, r)
      && if how == Drained then StoppedAfter(p, id, r) else ShutdownCalled(id) !in p && !StopSeen(p, id)
  }

  lemma {:induction false} MeaningOfSpawned(host: string, t: seq<Event>)
    requires LifeOk(t) && ServeOk(host, t)
    ensures forall id: nat :: ServeSpawned(id) in t ==>
              id < LifeOf(t).built && (id + 1 == LifeOf(t).built ==> LifeOf(t).spawned)
    ensures forall id: nat :: Received(t, id) <==>
              ServeSpawned(id) in t && !(ServeOf(host, t).Serving() && id + 1 == LifeOf(t).built)
    ensures ServeOf(host, t).Serving() ==> LifeOf(t).built > 0 && ServeSpawned(LifeOf(t).built - 1) in t
  {
    if t != [] {
      var p, e := t[..|t| - 1], t[|t| - 1];
      MeaningOfSpawned(host, p);
      assert t == p + [e];
      forall id: nat
        ensures Received(t, id) <==> Received(p, id) || (e.ServeReceived? && e.id == id)
      {
        if e.ServeReceived? && e.id == id {
          assert ServeReceived(id, e.how) in t;
        }
        if how :| ServeReceived(id, how) in p {
          assert ServeReceived(id, how) in t;
        }
      }
    }
  }

  /** A goroutine that is to stop is past the phase in which its result may be looked at, and one that
      is past that phase is to stop. */
  lemma {:induction false} MeaningOfStopped(host: string, t: seq<Event>)
    requires LifeOk(t) && ServeOk(host, t)
    ensures forall id: nat :: ShutdownCalled(id) in t || StopSeen(t, id) ==>
              && id < LifeOf(t).built
              && (id + 1 == LifeOf(t).built ==>
                    LifeOf(t).spawned && !(ServeOf(host, t).phase in {Spawned, Announced, Watched}))
    ensures ServeOf(host, t).phase == Stopping ==> LifeOf(t).built > 0 && StopSeen(t, LifeOf(t).built - 1)
  {
    if t != [] {
      var p, e := t[..|t| - 1], t[|t| - 1];
      MeaningOfStopped(host, p);
      MeaningOfSpawned(host, p);
      assert t == p + [e];
    }
  }

  /** What a prefix held at or after r is still there. */
  lemma ServingStays(p: seq<Event>, e: Event, id: nat, r: int)
    ensures WatchedAfter(p, id, r) ==> WatchedAfter(p + [e], id, r)
    ensures StoppedAfter(p, id, r) ==> StoppedAfter(p + [e], id, r)
  {
    if w :| 0 <= r < w < |p| && p[w] == WatchStarted(id) {
      assert (p + [e])[w] == WatchStarted(id);
    }
    if d :| StoppedAt(p, id, r, d) {
      assert (p + [e])[..d] == p[..d];
      assert StoppedAt(p + [e], id, r, d);
    }
  }

  /** How a goroutine that is announced, watched or to be stopped came to be so. */
  lemma PhaseBefore(host: string, t: seq<Event>)
    requires LifeOk(t) && ServeOk(host, t) && ServeOf(host, t).phase in {Announced, Watched, Stopping, ShutDown}
    ensures t != []
    ensures var p, e := t[..|t| - 1], t[|t| - 1];
      var was, now, id := ServeOf(host, p).phase, ServeOf(host, t).phase, LifeOf(t).built - 1;
      && LifeOk(p) && ServeOk(host, p) && LifeOf(p).built == LifeOf(t).built
      && (e == Ready(true) ==> was == Spawned && now == Announced)
      && (e != Ready(true) ==> was in {Announced, Watched, Stopping, ShutDown})
      && (e != Ready(true) && now != Announced && was == Announced ==> e == WatchStarted(id))
      && (now == ShutDown && was != ShutDown ==> was == Stopping && e == ShutdownCalled(id))
  {
  }

  /** What the last event makes of a goroutine announced at r. */
  lemma AnnouncedStays(host: string, t: seq<Event>, s: int, r: int)
    requires LifeOk(t) && ServeOk(host, t) && ServeOf(host, t).phase in {Announced, Watched, Stopping, ShutDown}
    requires t != [] && t[|t| - 1] != Ready(true) && LifeOf(t).built > 0
    requires var p, id := t[..|t| - 1], LifeOf(t).built - 1;
      && AnnouncedAt(p, id, s, r)
      && (ServeOf(host, p).phase != Announced ==> WatchedAfter(p, id, r))
      && (ServeOf(host, p).phase == ShutDown ==> StoppedAfter(p, id, r))
    ensures AnnouncedAt(t, LifeOf(t).built - 1, s, r)
    ensures ServeOf(host, t).phase != Announced ==> WatchedAfter(t, LifeOf(t).built - 1, r)
    ensures ServeOf(host, t).phase == ShutDown ==> StoppedAfter(t, LifeOf(t).built - 1, r)
  {
    hide LifeOk, ServeOk, LifeOf, ServeOf;
    var p, e, id := t[..|t| - 1], t[|t| - 1], LifeOf(t).built - 1;
    assert t == p + [e];
    PhaseBefore(host, t);
    ServingStays(p, e, id, r);
    assert t[|p|] == e && t[..|p|] == p;
    if ServeOf(host, t).phase == ShutDown && ServeOf(host, p).phase == Stopping {
      MeaningOfStopped(host, p);
      assert StoppedAt(t, id, r, |p|);
    }
  }

  lemma SpawnedAt(host: string, p: seq<Event>) returns (s: int)
    requires LifeOk(p) && ServeOk(host, p) && ServeOf(host, p).Serving()
    ensures LifeOf(p).built > 0 && 0 <= s < |p| && p[s] == ServeSpawned(LifeOf(p).built - 1)
  {
    hide LifeOk, ServeOk, LifeOf, ServeOf;
    MeaningOfSpawned(host, p);
    s :| 0 <= s < |p| && p[s] == ServeSpawned(LifeOf(p).built - 1);
  }

  lemma {:induction false} MeaningOfAnnounced(host: string, t: seq<Event>) returns (s: int, r: int)
    requires LifeOk(t) && ServeOk(host, t) && ServeOf(host, t).phase in {Announced, Watched, Stopping, ShutDown}
    ensures LifeOf(t).built > 0 && AnnouncedAt(t, LifeOf(t).built - 1, s, r)
    ensures ServeOf(host, t).phase != Announced ==> WatchedAfter(t, LifeOf(t).built - 1, r)
    ensures ServeOf(host, t).phase == ShutDown ==> StoppedAfter(t, LifeOf(t).built - 1, r)
  {
    hide LifeOk, ServeOk, LifeOf, ServeOf, WatchedAfter, StoppedAfter;
    PhaseBefore(host, t);
    var p := t[..|t| - 1];
    if t[|t| - 1] == Ready(true) {
      s := SpawnedAt(host, p);
      r := |p|;
    } else {
      s, r := MeaningOfAnnounced(host, p);
      AnnouncedStays(host, t, s, r);
    }
  }

  lemma CycleIsComplete(host: string, t: seq<Event>, j: nat)
    requires LifeOk(t) && ServeOk(host, t) && j < |t| && t[j].ServeReceived?
    ensures CycleComplete(t[..j], t[j].id, t[j].how)
  {
    hide LifeOk, ServeOk, LifeOf, ServeOf;
    LifeAt(t, j);
    ServeAt(host, t, j);
    MeaningOfStopped(host, t[..j]);
    var s, r := MeaningOfAnnounced(host, t[..j]);
  }

  lemma OneGoroutine(host: string, t: seq<Event>, j: nat)
    requires LifeOk(t) && ServeOk(host, t) && j < |t|
    ensures t[j].ServeSpawned? ==> ServeSpawned(t[j].id) !in t[..j]
    ensures t[j].ServeReceived? ==> !Received(t[..j], t[j].id)
    ensures t[j].FlipSeen? || t[j].DoneSeen? ==> Underway(t[..j], t[j].id)
    ensures t[j].Closed? && ServeSpawned(t[j].id) in t[..j] ==> Received(t[..j], t[j].id)
  {
    LifeAt(t, j);
    ServeAt(host, t, j);
    MeaningOfSpawned(host, t[..j]);
    MeaningOfStopped(host, t[..j]);
  }

  lemma TheoremServeResultsReceived(host: string, t: seq<Event>)
    requires LifeOk(t) && ServeOk(host, t)
    ensures ServeResultsReceived(t)
  {
    forall i, j | 0 <= i < j < |t|
      ensures t[i].ServeSpawned? && t[j].ServeSpawned? ==> t[i].id != t[j].id
      ensures t[i].ServeReceived? && t[j].ServeReceived? ==> t[i].id != t[j].id
    {
      OneGoroutine(host, t, j);
      assert t[..j][i] in t[..j];
      if t[i].ServeReceived? {
        assert ServeReceived(t[i].id, t[i].how) in t[..j];
      }
    }
    forall j | 0 <= j < |t|
      ensures t[j].ServeReceived? ==> CycleComplete(t[..j], t[j].id, t[j].how)
      ensures t[j].Closed? && ServeSpawned(t[j].id) in t[..j] ==> Received(t[..j], t[j].id)
      ensures t[j].FlipSeen? || t[j].DoneSeen? ==> Underway(t[..j], t[j].id)
    {
      OneGoroutine(host, t, j);
      if t[j].ServeReceived? {
        CycleIsComplete(host, t, j);
      }
    }
  }

  // ----- What was begun is carried out -----

  /** An open listener is served: before the server is closed, its goroutine is spawned, announced and
      received. */
  ghost predicate ListenersAreServed(t: seq<Event>) {
    forall i, j :: 0 <= i < j < |t| && t[i].Listened? && t[i].ok && t[j] == Closed(t[i].id) ==>
      exists s, r, k :: ServedBetween(t, i, s, r, k, j)
  }

  ghost predicate ServedBetween(t: seq<Event>, i: int, s: int, r: int, k: int, j: int) {
    && 0 <= i < s < r < k < j < |t| && t[i].Listened?
    && t[s] == ServeSpawned(t[i].id) && t[r] == Ready(true) && t[k].ServeReceived? && t[k].id == t[i].id
  }

  /** A serve cycle is carried out: before the server is closed, a listener is asked for, or the
      domains could not be read, or they lacked the expected host. */
  ghost predicate CyclesListen(host: string, t: seq<Event>) {
    forall i, j :: 0 <= i < j < |t| && t[i].ServeCycle? && t[j] == Closed(t[i].id) ==>
      exists k :: i < k < j && ListenedOrRefused(host, t[k], t[i].id)
  }

  ghost predicate ListenedOrRefused(host: string, e: Event, id: nat) {
    (e.Listened? && e.id == id) || (e.CertsRead? && e.id == id && (!e.ok || host !in e.domains))
  }

  /** A reason to stop serving is acted on: before the server is closed, the HTTP server is shut down,
      and the result received after that. */
  ghost predicate StopsAreCarriedOut(t: seq<Event>) {
    forall i, j :: 0 <= i < j < |t| && (t[i].FlipSeen? || t[i].DoneSeen?) && t[j] == Closed(t[i].id) ==>
      exists d, k :: i < d < k < j && t[d] == ShutdownCalled(t[i].id) && t[k] == ServeReceived(t[i].id, Drained)
  }

  /** After a listener was opened at i, it is still waiting, or a goroutine serves on it. */
  lemma {:induction false} ListenedThenSpawned(host: string, t: seq<Event>, i: nat)
    requires LifeOk(t) && ServeOk(host, t) && i < |t| && t[i].Listened? && t[i].ok
    ensures (ServeOf(host, t).listened && LifeOf(t).Newest(t[i].id))
            || exists s :: i < s < |t| && t[s] == ServeSpawned(t[i].id)
  {
    if i < |t| - 1 {
      var p, e := t[..|t| - 1], t[|t| - 1];
      assert p[i] == t[i];
      ListenedThenSpawned(host, p, i);
      if ServeOf(host, p).listened && LifeOf(p).Newest(t[i].id) {
        if e.ServeSpawned? {
          assert t[|p|] == ServeSpawned(t[i].id);
        }
      } else {
        var s :| i < s < |p| && p[s] == ServeSpawned(t[i].id);
        assert t[s] == p[s];
      }
    }
  }

  lemma SpawnThenReceived(t: seq<Event>, id: nat, s: nat, k: nat)
    requires ServeResultsReceived(t) && s < |t| && k < |t|
    requires t[s] == ServeSpawned(id) && t[k].ServeReceived? && t[k].id == id
    ensures s < k && exists r :: s < r < k && t[r] == Ready(true)
  {
    var p := t[..k];
    assert CycleComplete(p, id, t[k].how);
    var s', r :| AnnouncedAt(p, id, s', r);
    assert t[s'] == p[s'] && t[r] == p[r];
    assert s' == s;
  }

  lemma ListenerIsServed(host: string, t: seq<Event>, i: nat, j: nat)
    requires LifeOk(t) && ServeOk(host, t) && ServeResultsReceived(t)
    requires i < j < |t| && t[i].Listened? && t[i].ok && t[j] == Closed(t[i].id)
    ensures exists s, r, k :: ServedBetween(t, i, s, r, k, j)
  {
    var id, p := t[i].id, t[..j];
    LifeAt(t, j);
    ServeAt(host, t, j);
    assert p[i] == t[i];
    ListenedThenSpawned(host, p, i);
    var s :| i < s < |p| && p[s] == ServeSpawned(id);
    assert p[s] == t[s];
    var k := ReceivedAt(p, id);
    assert t[k] == p[k];
    SpawnThenReceived(t, id, s, k);
    var r :| s < r < k && t[r] == Ready(true);
    assert ServedBetween(t, i, s, r, k, j);
  }

  /** After a serve cycle was entered at i, it is still due, or was carried out. */
  lemma {:induction false} DueThenListened(host: string, t: seq<Event>, i: nat)
    requires LifeOk(t) && ServeOk(host, t) && i < |t| && t[i].ServeCycle?
    ensures (ServeOf(host, t).due && LifeOf(t).Newest(t[i].id))
            || exists k :: i < k < |t| && ListenedOrRefused(host, t[k], t[i].id)
  {
    if i == |t| - 1 {
      LifeAt(t, i);
    } else {
      var p, e := t[..|t| - 1], t[|t| - 1];
      assert p[i] == t[i];
      DueThenListened(host, p, i);
      if ServeOf(host, p).due && LifeOf(p).Newest(t[i].id) {
        if !ServeOf(host, t).due {
          assert ListenedOrRefused(host, t[|p|], t[i].id);
        }
      } else {
        var k :| i < k < |p| && ListenedOrRefused(host, p[k], t[i].id);
        assert t[k] == p[k];
      }
    }
  }

  lemma CycleListens(host: string, t: seq<Event>, i: nat, j: nat)
    requires LifeOk(t) && ServeOk(host, t) && i < j < |t| && t[i].ServeCycle? && t[j] == Closed(t[i].id)
    ensures exists k :: i < k < j && ListenedOrRefused(host, t[k], t[i].id)
  {
    LifeAt(t, j);
    ServeAt(host, t, j);
    assert t[..j][i] == t[i];
    DueThenListened(host, t[..j], i);
    var k :| i < k < j && ListenedOrRefused(host, t[..j][k], t[i].id);
    assert t[k] == t[..j][k];
  }

  /** A result received after a reason to stop was found was received after a shutdown. */
  lemma StopThenDrained(t: seq<Event>, i: nat, k: nat)
    requires i < k < |t| && (t[i].FlipSeen? || t[i].DoneSeen?) && t[k].ServeReceived? && t[k].id == t[i].id
    requires Underway(t[..i], t[i].id) && CycleComplete(t[..k], t[k].id, t[k].how)
    ensures t[k].how == Drained && exists d :: i < d < k && t[d] == ShutdownCalled(t[i].id)
  {
    var id, p := t[i].id, t[..k];
    assert p[i] == t[i] && StopSeen(p, id);
    assert t[k].how == Drained;
    var r :| StoppedAfter(p, id, r);
    assert StoppedAfter(p, id, r);
    var d :| StoppedAt(p, id, r, d);
    assert forall x :: 0 <= x < i ==> t[..i][x] == t[x];
    assert t[d] == p[d] && d > i;
  }

  lemma StopIsCarriedOut(t: seq<Event>, i: nat, j: nat)
    requires ServeResultsReceived(t)
    requires i < j < |t| && (t[i].FlipSeen? || t[i].DoneSeen?) && t[j] == Closed(t[i].id)
    ensures exists d, k :: i < d < k < j && t[d] == ShutdownCalled(t[i].id) && t[k] == ServeReceived(t[i].id, Drained)
  {
    var id := t[i].id;
    assert Underway(t[..i], id);
    var s :| 0 <= s < i && t[..i][s] == ServeSpawned(id);
    assert t[..j][s] == ServeSpawned(id);
    var k := ReceivedAt(t[..j], id);
    assert t[k] == t[..j][k];
    assert forall how :: ServeReceived(id, how) !in t[..i];
    StopThenDrained(t, i, k);
  }

  lemma ReceivedAt(p: seq<Event>, id: nat) returns (k: int)
    requires Received(p, id)
    ensures 0 <= k < |p| && p[k].ServeReceived? && p[k].id == id
  {
    var how :| ServeReceived(id, how) in p;
    k :| 0 <= k < |p| && p[k] == ServeReceived(id, how);
  }

  lemma TheoremCarriedOut(host: string, t: seq<Event>)
    requires LifeOk(t) && ServeOk(host, t)
    ensures ListenersAreServed(t) && CyclesListen(host, t) && StopsAreCarriedOut(t)
  {
    TheoremServeResultsReceived(host, t);
    forall i, j | 0 <= i < j < |t| && t[i].Listened? && t[i].ok && t[j] == Closed(t[i].id)
      ensures exists s, r, k :: ServedBetween(t, i, s, r, k, j)
    {
      ListenerIsServed(host, t, i, j);
    }
    forall i, j | 0 <= i < j < |t| && t[i].ServeCycle? && t[j] == Closed(t[i].id)
      ensures exists k :: i < k < j && ListenedOrRefused(host, t[k], t[i].id)
    {
      CycleListens(host, t, i, j);
    }
    forall i, j | 0 <= i < j < |t| && (t[i].FlipSeen? || t[i].DoneSeen?) && t[j] == Closed(t[i].id)
      ensures exists d, k :: i < d < k < j && t[d] == ShutdownCalled(t[i].id) && t[k] == ServeReceived(t[i].id, Drained)
    {
      StopIsCarriedOut(t, i, j);
    }
  }

  /** The signal is raised only by a runner that has passed the check at the top of its loop, before
      cancellation: a runner started with a cancelled context never raises it. */
  ghost predicate ReadyOnlyIfBegun(t: seq<Event>) {
    forall i :: 0 <= i < |t| && t[i] == Ready(true) ==>
      exists k :: 0 <= k < i && t[k].Iteration? && Cancelled !in t[..k]
  }

  lemma {:induction false} MeaningOfBegun(t: seq<Event>) returns (k: int)
    requires StopOk(t) && StopOf(t).iterations > 0
    ensures 0 <= k < |t| && t[k].Iteration? && Cancelled !in t[..k]
  {
    var p, e := t[..|t| - 1], t[|t| - 1];
    if e.Iteration? {
      k := |p|;
      MeaningOfStop(p);
    } else {
      k := MeaningOfBegun(p);
      assert t[..k] == p[..k];
    }
  }

  /** Iterations begun. */
  ghost function Iterations(t: seq<Event>): nat {
    if t == [] then 0 else Iterations(t[..|t| - 1]) + if t[|t| - 1].Iteration? then 1 else 0
  }

  lemma {:induction false} MeaningOfIterations(t: seq<Event>)
    ensures StopOf(t).iterations == Iterations(t)
  {
    if t != [] {
      MeaningOfIterations(t[..|t| - 1]);
    }
  }

  lemma {:induction false} BuiltMeansBegun(t: seq<Event>)
    requires LifeOk(t) && StopOk(t) && LifeOf(t).built > 0
    ensures StopOf(t).iterations > 0
  {
    if !t[|t| - 1].Built? {
      BuiltMeansBegun(t[..|t| - 1]);
    }
  }

  lemma TheoremReadyOnlyIfBegun(host: string, t: seq<Event>)
    requires LifeOk(t) && ServeOk(host, t) && StopOk(t)
    ensures ReadyOnlyIfBegun(t)
  {
    forall i | 0 <= i < |t| && t[i] == Ready(true)
      ensures exists k :: 0 <= k < i && t[k].Iteration? && Cancelled !in t[..k]
    {
      LifeAt(t, i);
      ServeAt(host, t, i);
      StopAt(t, i);
      MeaningOfReady(host, t[..i]);
      MeaningOfOpen(t[..i]);
      BuiltMeansBegun(t[..i]);
      var k := MeaningOfBegun(t[..i]);
      assert t[..i][..k] == t[..k];
    }
  }

  // ----- Cancellation and exit -----

  /** After cancellation at most one more server is built, one more key minted and one more
      listener opened, and no iteration begins. */
  ghost predicate StopsPromptly(t: seq<Event>) {
    && (forall i, j :: 0 <= i < j < |t| && t[i].Built? && t[j].Built? ==> Cancelled !in t[..i])
    && (forall i, j :: 0 <= i < j < |t| && t[i].Minted? && t[j].Minted? ==> Cancelled !in t[..i])
    && (forall i, j :: 0 <= i < j < |t| && t[i].Listened? && t[j].Listened? ==> Cancelled !in t[..i])
    && (forall i :: 0 <= i < |t| && t[i].Iteration? ==> Cancelled !in t[..i])
  }

  lemma {:induction false} MeaningOfStop(t: seq<Event>)
    requires StopOk(t)
    ensures StopOf(t).cancelled <==> Cancelled in t
    ensures forall i :: 0 <= i < |t| && t[i].Built? && Cancelled in t[..i] ==> StopOf(t).lateBuilt
    ensures forall i :: 0 <= i < |t| && t[i].Minted? && Cancelled in t[..i] ==> StopOf(t).lateMint
    ensures forall i :: 0 <= i < |t| && t[i].Listened? && Cancelled in t[..i] ==> StopOf(t).lateListen
  {
    if t != [] {
      var p, e := t[..|t| - 1], t[|t| - 1];
      MeaningOfStop(p);
      assert t == p + [e];
      forall i | 0 <= i < |p|
        ensures t[..i] == p[..i]
      {
      }
    }
  }

  lemma TheoremStopsPromptly(t: seq<Event>)
    requires StopOk(t)
    ensures StopsPromptly(t)
  {
    forall i, j | 0 <= i < j < |t| && (t[j].Built? || t[j].Minted? || t[j].Listened?)
      ensures t[i].Built? && t[j].Built? ==> Cancelled !in t[..i]
      ensures t[i].Minted? && t[j].Minted? ==> Cancelled !in t[..i]
      ensures t[i].Listened? && t[j].Listened? ==> Cancelled !in t[..i]
    {
      StopAt(t, j);
      MeaningOfStop(t[..j]);
      assert t[..j][i] == t[i] && t[..j][..i] == t[..i];
    }
    forall i | 0 <= i < |t| && t[i].Iteration?
      ensures Cancelled !in t[..i]
    {
      StopAt(t, i);
      MeaningOfStop(t[..i]);
    }
  }

  /** Run returns nil only after cancellation, and an error only after reading, from the newest
      server, certificate domains that lack the expected host. */
  ghost predicate ExitsForAReason(host: string, t: seq<Event>) {
    forall i :: 0 <= i < |t| && t[i].Exited? ==>
      if t[i].fatal then host != "" && exists c :: LastRefusal(host, t[..i], c) else Cancelled in t[..i]
  }

  /** The last domains read before the end of p, at c, lacked the host. */
  ghost predicate LastRefusal(host: string, p: seq<Event>, c: int) {
    0 <= c < |p| && LacksHost(host, p[c]) && forall k :: c < k < |p| ==> !p[k].CertsRead?
  }

  /** Domains that lack the expected host are fatal: all that the loop still does is to close the server
      and to return the error, whether or not the context is cancelled meanwhile. */
  ghost predicate MismatchIsFatal(host: string, t: seq<Event>) {
    forall i, j :: 0 <= i < j < |t| && LacksHost(host, t[i]) ==> AfterMismatch(t[j])
  }

  lemma {:induction false} MismatchStays(host: string, t: seq<Event>, i: nat)
    requires ServeOk(host, t) && i < |t| && LacksHost(host, t[i])
    ensures ServeOf(host, t).mismatch
  {
    if i < |t| - 1 {
      MismatchStays(host, t[..|t| - 1], i);
    }
  }

  lemma TheoremMismatchIsFatal(host: string, t: seq<Event>)
    requires ServeOk(host, t)
    ensures MismatchIsFatal(host, t)
  {
    forall i, j | 0 <= i < j < |t| && LacksHost(host, t[i])
      ensures AfterMismatch(t[j])
    {
      ServeAt(host, t, j);
      assert t[..j][i] == t[i];
      MismatchStays(host, t[..j], i);
    }
  }

  lemma {:induction false} MeaningOfMismatch(host: string, t: seq<Event>) returns (c: int)
    requires ServeOk(host, t) && ServeOf(host, t).mismatch
    ensures host != "" && LastRefusal(host, t, c)
  {
    if t[|t| - 1].CertsRead? {
      c := |t| - 1;
    } else {
      c := MeaningOfMismatch(host, t[..|t| - 1]);
    }
  }

  lemma TheoremExitsForAReason(host: string, t: seq<Event>)
    requires ServeOk(host, t) && StopOk(t)
    ensures ExitsForAReason(host, t)
  {
    forall i | 0 <= i < |t| && t[i].Exited?
      ensures if t[i].fatal then host != "" && exists c :: LastRefusal(host, t[..i], c) else Cancelled in t[..i]
    {
      ServeAt(host, t, i);
      StopAt(t, i);
      MeaningOfStop(t[..i]);
      if t[i].fatal {
        var c := MeaningOfMismatch(host, t[..i]);
      }
    }
  }

  /** The closed watcher channel is acted on only after NeedsLogin on that server, or cancellation; and
      the context is found done only after cancellation. */
  ghost predicate FlipsForAReason(t: seq<Event>) {
    && (forall i :: 0 <= i < |t| && t[i].FlipSeen? ==>
          Cancelled in t[..i] || WatchPolled(t[i].id, NEEDS_LOGIN) in t[..i])
    && (forall i :: 0 <= i < |t| && t[i].DoneSeen? ==> Cancelled in t[..i])
  }

  lemma {:induction false} MeaningOfLogins(t: seq<Event>)
    requires StopOk(t)
    ensures forall id :: id in StopOf(t).logins ==> WatchPolled(id, NEEDS_LOGIN) in t
  {
    if t != [] {
      MeaningOfLogins(t[..|t| - 1]);
      assert t == t[..|t| - 1] + [t[|t| - 1]];
    }
  }

  lemma TheoremFlipsForAReason(t: seq<Event>)
    requires StopOk(t)
    ensures FlipsForAReason(t)
  {
    forall i | 0 <= i < |t| && (t[i].FlipSeen? || t[i].DoneSeen?)
      ensures Cancelled in t[..i] || (t[i].FlipSeen? && WatchPolled(t[i].id, NEEDS_LOGIN) in t[..i])
    {
      StopAt(t, i);
      MeaningOfStop(t[..i]);
      MeaningOfLogins(t[..i]);
    }
  }

  // ----- Pacing -----

  /** The loop sleeps once for each failure that it survives, and otherwise only if its probes called
      for nothing else: it did probe, no probe said NeedsLogin, and none said Running after a Start
      that succeeded. No iteration begins before the failures of the last one were slept on. */
  ghost predicate SleepsForAReason(t: seq<Event>) {
    && (forall i :: 0 <= i < |t| && t[i].Slept? ==> (exists k :: FailedNow(t[..i], k)) || GaveUpWaiting(t[..i]))
    && (forall i, j :: 0 <= i < j < |t| && Failure(t[i]) && t[j].Iteration? ==> !Unslept(t[..j], i))
  }

  /** No sleep follows position k. */
  ghost predicate Unslept(p: seq<Event>, k: int) {
    0 <= k < |p| && forall l :: k < l < |p| ==> !p[l].Slept?
  }

  ghost predicate FailedNow(p: seq<Event>, k: int) { Unslept(p, k) && Now(p, k) && Failure(p[k]) }

  ghost predicate GaveUpWaiting(p: seq<Event>) {
    (exists k :: ProbedNow(p, k)) && (forall k :: !AskedNow(p, k)) && (forall id, s, r :: !UpNow(p, id, s, r))
  }

  /** In this iteration, and since the last Start and the last sleep, the server was probed. */
  ghost predicate ProbedNow(p: seq<Event>, k: int) {
    Now(p, k) && Unslept(p, k) && p[k].Probed? && forall l :: k < l < |p| ==> !p[l].StartCalled?
  }

  /** A probe at r said Running, after the last Start of this iteration, at s, succeeded. */
  ghost predicate UpNow(p: seq<Event>, id: nat, s: int, r: int) {
    RunningNow(p, id, s, r) && forall k :: s < k < |p| ==> !p[k].StartCalled?
  }

  lemma {:induction false} MeaningOfFailed(t: seq<Event>) returns (k: int)
    requires PaceOk(t) && PaceOf(t).failed
    ensures FailedNow(t, k)
  {
    var p, e := t[..|t| - 1], t[|t| - 1];
    if Failure(e) {
      k := |p|;
    } else {
      k := MeaningOfFailed(p);
    }
  }

  lemma {:induction false} MeaningOfSettled(t: seq<Event>, i: int)
    requires PaceOk(t) && Unslept(t, i) && Failure(t[i])
    ensures PaceOf(t).failed
  {
    if i < |t| - 1 {
      assert Unslept(t[..|t| - 1], i);
      MeaningOfSettled(t[..|t| - 1], i);
    }
  }

  lemma {:induction false} MeaningOfProbed(t: seq<Event>) returns (k: int)
    requires PaceOk(t) && PaceOf(t).probed
    ensures ProbedNow(t, k)
  {
    var p, e := t[..|t| - 1], t[|t| - 1];
    if e.Probed? {
      k := |p|;
    } else {
      k := MeaningOfProbed(p);
    }
  }

  lemma {:induction false} StartOkStays(t: seq<Event>, s: int)
    requires PaceOk(t) && Now(t, s) && t[s].StartCalled? && t[s].ok && forall k :: s < k < |t| ==> !t[k].StartCalled?
    ensures PaceOf(t).startOk
  {
    if s < |t| - 1 {
      assert Now(t[..|t| - 1], s);
      StartOkStays(t[..|t| - 1], s);
    }
  }

  lemma {:induction false} UpStays(t: seq<Event>, id: nat, s: int, r: int)
    requires PaceOk(t) && UpNow(t, id, s, r)
    ensures PaceOf(t).up
  {
    var p := t[..|t| - 1];
    if r < |p| {
      assert UpNow(p, id, s, r);
      UpStays(p, id, s, r);
    } else {
      StartOkStays(p, s);
    }
  }

  lemma NotUp(t: seq<Event>)
    requires PaceOk(t) && !PaceOf(t).up
    ensures forall id, s, r :: !UpNow(t, id, s, r)
  {
    forall id, s, r | UpNow(t, id, s, r)
      ensures false
    {
      UpStays(t, id, s, r);
    }
  }

  lemma MeaningOfWaiting(t: seq<Event>)
    requires PaceOk(t) && PaceOf(t).probed && !PaceOf(t).asked && !PaceOf(t).up
    ensures GaveUpWaiting(t)
  {
    var k := MeaningOfProbed(t);
    MeaningOfAsked(t);
    NotUp(t);
  }

  lemma {:induction false} TheoremSleepsForAReason(t: seq<Event>)
    requires PaceOk(t)
    ensures SleepsForAReason(t)
  {
    forall i | 0 <= i < |t| && t[i].Slept?
      ensures (exists k :: FailedNow(t[..i], k)) || GaveUpWaiting(t[..i])
    {
      PaceAt(t, i);
      if PaceOf(t[..i]).failed {
        var k := MeaningOfFailed(t[..i]);
      } else {
        MeaningOfWaiting(t[..i]);
      }
    }
    forall i, j | 0 <= i < j < |t| && Failure(t[i]) && t[j].Iteration?
      ensures !Unslept(t[..j], i)
    {
      PaceAt(t, j);
      if Unslept(t[..j], i) {
        MeaningOfSettled(t[..j], i);
      }
    }
  }

  /** Sleeps since the last backoff reset. */
  ghost function SleepsSinceReset(p: seq<Event>): nat {
    if p == [] || p[|p| - 1].BackoffReset? then 0
    else SleepsSinceReset(p[..|p| - 1]) + if p[|p| - 1].Slept? then 1 else 0
  }

  predicate Productive(e: Event) { e.ServeCycle? || (e.Minted? && e.ok) || e.Slept? }

  ghost predicate SomethingHappened(t: seq<Event>, i: int, j: int) {
    exists k :: 0 <= i < k < j <= |t| && Productive(t[k])
  }

  ghost predicate BackoffLaw(t: seq<Event>) {
    // the n-th sleep since the last reset lasts min(100ms * 2^n, 30s)
    && (forall i :: 0 <= i < |t| && t[i].Slept? ==> t[i].delay == Delay(SleepsSinceReset(t[..i])))
    // the sleep that follows a failed serve cycle lasts exactly the base
    && (forall i, j :: 0 <= i < j < |t| && t[i].ServeCycle? && Now(t[..j], i) && t[j].Slept? ==>
          t[j].delay == BACKOFF_BASE)
    // the count starts afresh with every minted key and every serve cycle, and only then
    && (forall i :: 0 <= i < |t| && (t[i].KeySet? || t[i].CertsRead? || t[i].Listened?) ==>
          SleepsSinceReset(t[..i]) == 0)
    && (forall i :: 0 <= i < |t| && t[i].BackoffReset? ==> exists k :: SucceededNow(t[..i], k))
    // the loop never spins: between two iterations it served, minted a key or slept
    && (forall i, j :: 0 <= i < j < |t| && t[i].Iteration? && t[j].Iteration? ==> SomethingHappened(t, i, j))
  }

  ghost predicate SucceededNow(p: seq<Event>, k: int) {
    Now(p, k) && (p[k].ServeCycle? || (p[k].Minted? && p[k].ok))
  }

  lemma {:induction false} MeaningOfSucceeded(t: seq<Event>) returns (k: int)
    requires PaceOk(t) && (PaceOf(t).served || PaceOf(t).minted)
    ensures SucceededNow(t, k)
  {
    var p, e := t[..|t| - 1], t[|t| - 1];
    if e.ServeCycle? || (e.Minted? && e.ok) {
      k := |p|;
    } else {
      k := MeaningOfSucceeded(p);
    }
  }

  lemma {:induction false} MeaningOfPace(t: seq<Event>)
    requires PaceOk(t)
    ensures PaceOf(t).sleeps == SleepsSinceReset(t)
    ensures forall i :: Now(t, i) && t[i].ServeCycle? ==> PaceOf(t).served
  {
    if t != [] {
      var p := t[..|t| - 1];
      MeaningOfPace(p);
      forall i | Now(t, i) && t[i].ServeCycle?
        ensures PaceOf(t).served
      {
        if i < |p| {
          assert Now(p, i) && p[i] == t[i];
        }
      }
    }
  }

  lemma {:induction false} MeaningOfProgress(t: seq<Event>)
    requires PaceOk(t) && PaceOf(t).progressed
    ensures forall i :: 0 <= i < |t| && t[i].Iteration? ==> SomethingHappened(t, i, |t|)
  {
    if t != [] {
      var p, e := t[..|t| - 1], t[|t| - 1];
      if PaceOf(p).progressed {
        MeaningOfProgress(p);
      }
      forall i | 0 <= i < |t| && t[i].Iteration?
        ensures SomethingHappened(t, i, |t|)
      {
        assert p[i] == t[i];
        if PaceOf(p).progressed {
          assert SomethingHappened(p, i, |p|);
          var k :| 0 <= i < k < |p| && Productive(p[k]);
          assert t[k] == p[k];
        } else {
          assert t[|p|] == e;
        }
      }
    }
  }

  /** The last Start succeeded, in this iteration, and nothing has come of it yet: no probe since said
      Running, and none of this iteration said NeedsLogin unless the server has a key. */
  ghost predicate StillProbing(t: seq<Event>) {
    exists id, s :: WaitingSince(t, id, s)
  }

  ghost predicate WaitingSince(t: seq<Event>, id: nat, s: int) {
    && StartedNow(t, id, s) && (forall k :: s < k < |t| ==> !t[k].StartCalled?)
    && !SomethingHappened(t, s, |t|)
    && (forall r :: s < r < |t| ==> t[r] != Probed(id, RUNNING))
    && ((exists k :: AskedNow(t, k)) ==> GivenKey(t, id))
  }

  ghost predicate GivenKey(t: seq<Event>, id: nat) { exists key :: key != "" && KeySet(id, key) in t }

  lemma {:induction false} MeaningOfKeyed(t: seq<Event>)
    requires LifeOk(t) && LifeOf(t).keyed
    ensures LifeOf(t).built > 0 && GivenKey(t, LifeOf(t).built - 1)
  {
    var p, e := t[..|t| - 1], t[|t| - 1];
    assert t == p + [e];
    if e.KeySet? {
      assert KeySet(LifeOf(t).built - 1, e.key) in t;
    } else {
      MeaningOfKeyed(p);
      var key :| key != "" && KeySet(LifeOf(p).built - 1, key) in p;
      assert KeySet(LifeOf(t).built - 1, key) in t;
    }
  }

  lemma {:induction false} NothingYet(t: seq<Event>, i: int)
    requires !PaceOf(t).progressed && Now(t, i)
    ensures !SomethingHappened(t, i, |t|)
  {
    if i < |t| - 1 {
      var p, e := t[..|t| - 1], t[|t| - 1];
      assert Now(p, i) && !e.Iteration?;
      NothingYet(p, i);
      forall k | i < k < |t|
        ensures !Productive(t[k])
      {
        if k < |p| {
          assert t[k] == p[k];
        }
      }
    }
  }

  lemma ProbingFromSummary(host: string, t: seq<Event>)
    requires LifeOk(t) && ServeOk(host, t) && PaceOk(t)
    requires ServeOf(host, t).started && !PaceOf(t).progressed && !PaceOf(t).up && (PaceOf(t).asked ==> LifeOf(t).keyed)
    ensures StillProbing(t)
  {
    hide LifeOk, ServeOk, PaceOk, LifeOf, ServeOf, PaceOf;
    var s := MeaningOfStarted(host, t);
    var id := LifeOf(t).built - 1;
    NothingYet(t, s);
    NotUp(t);
    MeaningOfAsked(t);
    if PaceOf(t).asked {
      MeaningOfKeyed(t);
    }
    forall r | s < r < |t|
      ensures t[r] != Probed(id, RUNNING)
    {
      assert !UpNow(t, id, s, r);
    }
    assert WaitingSince(t, id, s);
  }

  lemma {:induction false} TheoremBackoffLaw(t: seq<Event>)
    requires PaceOk(t)
    ensures BackoffLaw(t)
  {
    forall i | 0 <= i < |t| && (t[i].Slept? || t[i].KeySet? || t[i].CertsRead? || t[i].Listened?)
      ensures if t[i].Slept? then t[i].delay == Delay(SleepsSinceReset(t[..i])) else SleepsSinceReset(t[..i]) == 0
    {
      PaceAt(t, i);
      MeaningOfPace(t[..i]);
    }
    forall i | 0 <= i < |t| && t[i].BackoffReset?
      ensures exists k :: SucceededNow(t[..i], k)
    {
      PaceAt(t, i);
      var k := MeaningOfSucceeded(t[..i]);
    }
    forall i, j | 0 <= i < j < |t| && t[i].ServeCycle? && Now(t[..j], i) && t[j].Slept?
      ensures t[j].delay == BACKOFF_BASE
    {
      PaceAt(t, j);
      MeaningOfPace(t[..j]);
      assert t[..j][i] == t[i];
    }
    forall i, j | 0 <= i < j < |t| && t[i].Iteration? && t[j].Iteration?
      ensures SomethingHappened(t, i, j)
    {
      PaceAt(t, j);
      MeaningOfProgress(t[..j]);
      assert t[..j][i] == t[i];
      var k :| 0 <= i < k < j && Productive(t[..j][k]);
      assert t[k] == t[..j][k];
    }
  }
}
