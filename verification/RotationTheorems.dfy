/** What coalesced refreshes guarantee in every interleaving. */
module RotationTheorems {
  import opened Common
  import opened Vkid
  import opened Rotation
  import opened RotationInvariant

  lemma ReachableInv(cfg: Config, init: Session, s: State)
    requires Valid(init) && Reachable(cfg, init, s)
    ensures Inv(cfg, init, s)
  {
    hide Inv, Runnable, After, Init;
    var acts :| Runnable(cfg, Init(init), acts) && After(cfg, Init(init), acts) == s;
    InitInv(cfg, init);
    Reached(cfg, init, Init(init), acts);
  }

  // Rotation (section 6 of RFC 6749)

  /** Refresh requests never overlap, and each one carries the refresh token of the
      latest successful response before it, or the initial one. */
  lemma RequestsRotate(cfg: Config, init: Session, s: State)
    requires Valid(init) && Reachable(cfg, init, s)
    ensures forall j :: 0 <= j < |s.requests| - 1 ==> !s.requests[j].outcome.Pending?
    ensures forall j :: 0 <= j < |s.requests| ==> s.requests[j].token == Current(init.refresh, s.requests[..j])
  {
    hide Reachable, Current;
    ReachableInv(cfg, init, s);
  }

  /** The server never issues a refresh token twice, nor the initial one. */
  predicate FreshTokens(init: string, reqs: seq<Request>) {
    && (forall j :: 0 <= j < |reqs| && reqs[j].outcome.Succeeded? ==> reqs[j].outcome.reply.refresh != init)
    && (forall i, j | 0 <= i < j < |reqs| && reqs[i].outcome.Succeeded? && reqs[j].outcome.Succeeded? ::
          reqs[i].outcome.reply.refresh != reqs[j].outcome.reply.refresh)
  }

  /** Where the current token comes from: the last success before n, or -1 for init. */
  lemma {:induction false} Source(init: string, reqs: seq<Request>, n: nat) returns (k: int)
    requires n <= |reqs|
    ensures -1 <= k < n
    ensures k == -1 ==> Current(init, reqs[..n]) == init
    ensures k >= 0 ==> reqs[k].outcome.Succeeded? && Current(init, reqs[..n]) == reqs[k].outcome.reply.refresh
    ensures forall i :: k < i < n ==> !reqs[i].outcome.Succeeded?
  {
    if n == 0 {
      k := -1;
    } else if reqs[n - 1].outcome.Succeeded? {
      k := n - 1;
    } else {
      assert reqs[..n][..n - 1] == reqs[..n - 1];
      k := Source(init, reqs, n - 1);
    }
  }

  /** A token whose success response was received is never sent again, not even by a
      caller that decided to refresh from a stale read. */
  lemma TokensAreSentOnce(cfg: Config, init: Session, s: State)
    requires Valid(init) && Reachable(cfg, init, s) && FreshTokens(init.refresh, s.requests)
    ensures forall i, j | 0 <= i < j < |s.requests| && s.requests[i].outcome.Succeeded? ::
              s.requests[j].token != s.requests[i].token
  {
    hide Reachable, Current;
    RequestsRotate(cfg, init, s);
    forall i, j | 0 <= i < j < |s.requests| && s.requests[i].outcome.Succeeded?
      ensures s.requests[j].token != s.requests[i].token
    {
      var before := Source(init.refresh, s.requests, i);
      var after := Source(init.refresh, s.requests, j);
      assert before < i <= after;
    }
  }

  // Singleflight

  /** At most one goroutine is between taking the lead and publishing its result. */
  lemma OneLeader(cfg: Config, init: Session, s: State, t: int, u: int)
    requires Valid(init) && Reachable(cfg, init, s) && LeadingAt(s, t) && LeadingAt(s, u)
    ensures t == u
  {
    hide Reachable, StageOk;
    ReachableInv(cfg, init, s);
    assert PcOk(s, t, s.procs[t]) && PcOk(s, u, s.procs[u]);
  }

  /** What a caller is told is the result of a flight that completed after its call
      began; told nil, a refresh request of that flight did succeed. */
  lemma ResultsAreRecent(cfg: Config, init: Session, s: State, t: int)
    requires Valid(init) && Reachable(cfg, init, s) && t in s.procs && s.procs[t].Reported?
    ensures var pc := s.procs[t];
      && pc.caller.began <= pc.seen < |s.results| && s.results[pc.seen] == pc.ok
      && (pc.ok <==> Won(s.requests, pc.seen))
  {
    hide Reachable, LeaderOk;
    ReachableInv(cfg, init, s);
    assert PcOk(s, t, s.procs[t]);
  }

  /** A follower is told the result of the last completed flight, which is the one it
      joined or a later one; the leader is told its own. */
  lemma FollowersSeeNoEarlierFlight(cfg: Config, init: Session, s: State, a: Action)
    requires Valid(init) && Reachable(cfg, init, s) && Enabled(s, a) && (a.ReadErr? || a.Release?)
    ensures var pc := Next(cfg, s, a).procs[a.t];
      && pc.Reported? && pc.seen < |s.results| && pc.ok == s.results[pc.seen]
      && (if a.Release? then pc.seen == s.procs[a.t].flight
          else s.procs[a.t].flight <= pc.seen == |s.results| - 1)
  {
    hide Reachable, LeaderOk, Requests;
    ReachableInv(cfg, init, s);
    assert PcOk(s, a.t, s.procs[a.t]);
  }

  /** So a follower is told the result of the flight it joined exactly if no later one
      has completed when it reads err. */
  lemma FollowerSeesItsFlightIff(cfg: Config, init: Session, s: State, a: Action)
    requires Valid(init) && Reachable(cfg, init, s) && Enabled(s, a) && a.ReadErr?
    ensures var pc := Next(cfg, s, a).procs[a.t];
      && pc.Reported? && pc.seen < |s.results| && pc.ok == s.results[pc.seen]
      && (pc.seen == s.procs[a.t].flight <==> |s.results| == s.procs[a.t].flight + 1)
  {
    hide Reachable;
    FollowersSeeNoEarlierFlight(cfg, init, s, a);
  }

  // The session

  /** The session stays usable and on the same device, and is refreshable exactly
      while the responses carry a refresh token. While a reply is on its way to be
      published the client still holds the old session. */
  lemma SessionInvariant(cfg: Config, init: Session, s: State)
    requires Valid(init) && Reachable(cfg, init, s)
    ensures Valid(s.sess) && s.sess.device == init.device
    ensures (forall t :: LeadingAt(s, t) ==> !s.procs[t].stage.Publishing?) ==>
      s.sess.refresh == Current(init.refresh, s.requests)
    ensures Refreshable(init) ==> (Refreshable(s.sess) <==> s.sess.refresh != "")
  {
    hide Reachable, Requests, Pcs, Current;
    ReachableInv(cfg, init, s);
  }

  /** Nothing but publishing a successful reply changes the session, a user id that
      Connect fills in where there is none apart; so a failed refresh changes nothing. */
  lemma OnlySuccessPublishes(cfg: Config, init: Session, s: State, a: Action)
    requires Valid(init) && Reachable(cfg, init, s) && Enabled(s, a)
    ensures !a.Publish? ==> SameButUser(s.sess, Next(cfg, s, a).sess)
    ensures a.Publish? ==> Won(s.requests, s.procs[a.t].flight)
    ensures !a.Publish? && s.sess.userID != 0 ==> Next(cfg, s, a).sess == s.sess
    ensures !a.Publish? && !a.SetUser? ==> Next(cfg, s, a).sess == s.sess
    ensures a.SetUser? && s.sess.userID == 0 ==> Next(cfg, s, a).sess == s.sess.(userID := a.id)
  {
    hide Reachable, Requests, Current;
    ReachableInv(cfg, init, s);
    if a.Publish? {
      LeaderIs(cfg, init, s, a.t);
      assert s.requests[|s.requests| - 1].flight == s.procs[a.t].flight;
    }
  }

  /** With a storage, the session of each TokenRefreshed was offered to it before, and
      passed validation; only a user id can have been filled in in between. */
  lemma RefreshedWasSaved(cfg: Config, init: Session, s: State)
    requires Valid(init) && Reachable(cfg, init, s) && cfg.storage
    ensures |s.events| <= |s.saves| <= |s.events| + 1
    ensures forall i :: 0 <= i < |s.saves| ==> Valid(s.saves[i])
    ensures forall i :: 0 <= i < |s.events| ==> SameButUser(s.saves[i], s.events[i])
  {
    hide Reachable, Requests, Pcs, Current;
    ReachableInv(cfg, init, s);
  }

  /** Token never returns an empty token. */
  lemma TokenIsNeverEmpty(cfg: Config, init: Session, s: State, t: int)
    requires Valid(init) && Reachable(cfg, init, s) && t in s.procs && s.procs[t].TokenReturned?
    ensures s.procs[t].token != ""
  {
    hide Reachable, Requests, LeaderOk;
    ReachableInv(cfg, init, s);
    assert PcOk(s, t, s.procs[t]);
  }

  // A follower need not be told the result of the flight it joined

  lemma {:induction false} Snoc(cfg: Config, s: State, acts: seq<Action>, a: Action)
    requires Runnable(cfg, s, acts) && Enabled(After(cfg, s, acts), a)
    ensures Runnable(cfg, s, acts + [a]) && After(cfg, s, acts + [a]) == Next(cfg, After(cfg, s, acts), a)
    decreases |acts|
  {
    hide Enabled, Next;
    if acts == [] {
      assert (acts + [a])[1..] == [];
    } else {
      Snoc(cfg, Next(cfg, s, acts[0]), acts[1..], a);
      assert (acts + [a])[1..] == acts[1..] + [a];
    }
  }

  lemma Reach(cfg: Config, init: Session, s: State, a: Action) returns (s': State)
    requires Reachable(cfg, init, s) && Enabled(s, a)
    ensures s' == Next(cfg, s, a) && Reachable(cfg, init, s')
  {
    hide Enabled, Next, Runnable, After;
    var acts :| Runnable(cfg, Init(init), acts) && After(cfg, Init(init), acts) == s;
    Snoc(cfg, Init(init), acts, a);
    s' := Next(cfg, s, a);
  }

  lemma Started(cfg: Config, init: Session)
    ensures Reachable(cfg, init, Init(init))
  {
    assert Runnable(cfg, Init(init), []) && After(cfg, Init(init), []) == Init(init);
  }

  const OldSession := Session(1, "a", "r", "", "d", "c", "", 0)
  const NewReply: Reply := Ok(Response("b", "q", "", 0, 1, ""))

  /** Goroutine 0 leads flight 0, goroutine 1 joins it, and the flight fails. */
  lemma FirstFlightFails(cfg: Config) returns (s: State)
    ensures Reachable(cfg, OldSession, s)
    ensures s.procs.Keys == {0, 1} && s.procs[1] == Following(Caller(None, 0), 0)
    ensures s.wait.None? && s.flights == 1 && s.done == {0} && s.results == [false] && s.requests == [] && s.sess == OldSession
  {
    hide Reachable;
    Started(cfg, OldSession);
    s := Reach(cfg, OldSession, Init(OldSession), RunCalls(0));
    s := Reach(cfg, OldSession, s, Enter(0));
    s := Reach(cfg, OldSession, s, RunCalls(1));
    s := Reach(cfg, OldSession, s, Enter(1));
    s := Reach(cfg, OldSession, s, Clone(0));
    s := Reach(cfg, OldSession, s, GiveUp(0));
    s := Reach(cfg, OldSession, s, Finish(0));
    s := Reach(cfg, OldSession, s, Release(0));
  }

  /** Then goroutine 2 leads flight 1 and gets a usable reply. */
  lemma SecondFlightSends(cfg: Config) returns (s: State)
    ensures Reachable(cfg, OldSession, s)
    ensures s.procs.Keys == {0, 1, 2} && s.procs[1] == Following(Caller(None, 0), 0)
    ensures s.procs[2] == Leading(Caller(None, 1), 1, Awaiting(OldSession))
    ensures s.done == {0} && s.results == [false]
  {
    hide Reachable;
    s := FirstFlightFails(cfg);
    s := Reach(cfg, OldSession, s, RunCalls(2));
    s := Reach(cfg, OldSession, s, Enter(2));
    s := Reach(cfg, OldSession, s, Clone(2));
    assert s.procs[2].stage == Sending(OldSession);
    s := Reach(cfg, OldSession, s, Send(2));
  }

  lemma NewReplyWorks(client: string)
    ensures Refreshed(OldSession, client, NewReply, 0).Ok?
  {
  }

  /** It is saved if there is a storage, ... */
  lemma SecondFlightSaves(cfg: Config) returns (s: State)
    ensures Reachable(cfg, OldSession, s)
    ensures s.procs.Keys == {0, 1, 2} && s.procs[1] == Following(Caller(None, 0), 0)
    ensures s.procs[2] == Leading(Caller(None, 1), 1, Emitting)
    ensures s.done == {0} && s.results == [false]
  {
    hide Reachable;
    s := SecondFlightSends(cfg);
    NewReplyWorks(cfg.client);
    hide Refreshed;
    s := Reach(cfg, OldSession, s, Receive(2, NewReply, 0));
    s := Reach(cfg, OldSession, s, Publish(2));
    if cfg.storage { s := Reach(cfg, OldSession, s, SaveSession(2)); }
  }

  /** ... and completes before goroutine 1 reads err. */
  lemma SecondFlightWins(cfg: Config) returns (s: State)
    ensures Reachable(cfg, OldSession, s)
    ensures 1 in s.procs && s.procs[1] == Following(Caller(None, 0), 0)
    ensures s.done == {0} && s.results == [false, true] && s.err
  {
    hide Reachable;
    s := SecondFlightSaves(cfg);
    s := Reach(cfg, OldSession, s, Emit(2));
    s := Reach(cfg, OldSession, s, Finish(2));
  }

  /** So a caller that joined a failed flight can be told nil: err was overwritten. */
  lemma FollowerMayMissItsFlight(cfg: Config)
    ensures exists s :: Reachable(cfg, OldSession, s) && 1 in s.procs && s.procs[1].Woken? && s.procs[1].flight == 0
                     && 0 < |s.results| && !s.results[0] && Next(cfg, s, ReadErr(1)).procs[1] == Reported(Caller(None, 0), true, 1)
  {
    hide Reachable;
    var s := SecondFlightWins(cfg);
    s := Reach(cfg, OldSession, s, Wake(1));
    assert s.procs[1].Woken? && !s.results[0];
  }
}
