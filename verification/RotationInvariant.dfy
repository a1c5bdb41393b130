/** The inductive invariant of the refresh protocol. */
module RotationInvariant {
  import opened Common
  import opened Vkid
  import opened Rotation

  /** The refresh token of the latest successful response, or the initial one. */
  function Current(init: string, reqs: seq<Request>): string
    decreases |reqs|
  {
    if reqs == [] then init
    else
      var last := reqs[|reqs| - 1];
      if last.outcome.Succeeded? then last.outcome.reply.refresh else Current(init, reqs[..|reqs| - 1])
  }

  /** Every request carries the token that was current when it was sent. */
  ghost predicate Chain(init: string, reqs: seq<Request>) {
    forall j :: 0 <= j < |reqs| ==> reqs[j].token == Current(init, reqs[..j])
  }

  predicate Ordered(reqs: seq<Request>, flights: nat) {
    && (forall j :: 0 <= j < |reqs| ==> reqs[j].flight < flights)
    && (forall i, j :: 0 <= i < j < |reqs| ==> reqs[i].flight < reqs[j].flight)
  }

  predicate Won(reqs: seq<Request>, k: nat) {
    exists j :: 0 <= j < |reqs| && reqs[j].flight == k && reqs[j].outcome.Succeeded?
  }

  /** b is a with a user id filled in, if at all. */
  predicate SameButUser(a: Session, b: Session) {
    b == a || (a.userID == 0 && b == a.(userID := b.userID))
  }

  predicate LastRequest(s: State, flight: nat) {
    |s.requests| > 0 && s.requests[|s.requests| - 1].flight == flight
  }

  predicate Settled(s: State) {
    forall j :: 0 <= j < |s.requests| ==> !s.requests[j].outcome.Pending?
  }

  predicate NotSent(s: State, flight: nat) {
    Settled(s) && forall j :: 0 <= j < |s.requests| ==> s.requests[j].flight < flight
  }

  predicate SentAndWon(s: State, flight: nat) {
    Settled(s) && LastRequest(s, flight) && s.requests[|s.requests| - 1].outcome.Succeeded?
  }

  /** The session is usable, holds the current refresh token, and has been reported. */
  ghost predicate Steady(cfg: Config, init: Session, s: State, pending: nat) {
    SessOk(init, s.sess) && s.sess.refresh == Current(init.refresh, s.requests) && Told(cfg, s, pending)
  }

  /** What is known of the session and the requests while the leader is at a stage. */
  ghost predicate StageOk(cfg: Config, init: Session, s: State, flight: nat, stage: Stage) {
    match stage
    case Cloning => NotSent(s, flight) && Steady(cfg, init, s, 0)
    case Sending(c) =>
      NotSent(s, flight) && Steady(cfg, init, s, 0) && Refreshable(c) && SameButUser(c, s.sess)
    case Awaiting(c) =>
      && LastRequest(s, flight) && s.requests[|s.requests| - 1].outcome.Pending?
      && (forall j :: 0 <= j < |s.requests| - 1 ==> !s.requests[j].outcome.Pending?)
      && Steady(cfg, init, s, 0) && Refreshable(c) && SameButUser(c, s.sess)
    case Publishing(n) =>
      && SentAndWon(s, flight) && SessOk(init, s.sess) && SessOk(init, n)
      && n.refresh == Current(init.refresh, s.requests) && Told(cfg, s, 0)
    case Saving => SentAndWon(s, flight) && Steady(cfg, init, s, 0) && cfg.storage
    case Emitting =>
      && SentAndWon(s, flight) && Steady(cfg, init, s, if cfg.storage then 1 else 0)
      && (cfg.storage ==> SameButUser(s.saves[|s.saves| - 1], s.sess))
    case Finishing(ok) =>
      && Settled(s) && Steady(cfg, init, s, 0) && (ok <==> Won(s.requests, flight))
  }

  predicate SessOk(init: Session, s: Session) {
    Valid(s) && s.device == init.device && (s.client == "" ==> init.client == "")
  }

  /** Saves and TokenRefreshed events go in step; pending says how many saves are ahead. */
  predicate Told(cfg: Config, s: State, pending: nat) {
    cfg.storage ==>
      && |s.saves| == |s.events| + pending
      && (forall i :: 0 <= i < |s.saves| ==> Valid(s.saves[i]))
      && (forall i :: 0 <= i < |s.events| ==> SameButUser(s.saves[i], s.events[i]))
  }

  predicate CallerOk(s: State, c: Caller) {
    c.began <= |s.results| && (c.fallback.Some? ==> c.fallback.value != "")
  }

  predicate PcOk(s: State, t: int, pc: Pc) {
    match pc
    case Calling(c) => CallerOk(s, c)
    case Following(c, f) => CallerOk(s, c) && c.began <= f < s.flights
    case Woken(c, f) => CallerOk(s, c) && c.began <= f < |s.results|
    case Leading(c, f, _) => CallerOk(s, c) && s.leader == Some(t) && s.wait == Some(f) && f == |s.results|
    case Releasing(c, f, ok) => CallerOk(s, c) && c.began <= f < |s.results| && s.results[f] == ok
    case Reported(c, ok, k) => CallerOk(s, c) && c.began <= k < |s.results| && s.results[k] == ok
    case TokenReturned(token) => token != ""
  }

  /** The flight in progress is the next to complete. */
  predicate Flights(s: State) {
    && (s.leader.Some? <==> s.wait.Some?)
    && (s.wait.Some? ==> s.wait.value == |s.results| && s.flights == |s.results| + 1)
    && (s.wait.None? ==> s.flights == |s.results|)
    && (|s.results| > 0 ==> s.err == s.results[|s.results| - 1])
    && (forall f :: f in s.done ==> f < |s.results|)
    && (s.leader.Some? ==> LeadingAt(s, s.leader.value))
  }

  ghost predicate Requests(init: Session, s: State) {
    && Ordered(s.requests, s.flights) && Chain(init.refresh, s.requests)
    && (forall k :: 0 <= k < |s.results| ==> (s.results[k] <==> Won(s.requests, k)))
  }

  ghost predicate LeaderOk(cfg: Config, init: Session, s: State) {
    if s.leader.Some? && LeadingAt(s, s.leader.value)
    then StageOk(cfg, init, s, s.procs[s.leader.value].flight, s.procs[s.leader.value].stage)
    else Settled(s) && Steady(cfg, init, s, 0)
  }

  predicate Pcs(s: State) {
    forall t :: t in s.procs ==> PcOk(s, t, s.procs[t])
  }

  ghost predicate Inv(cfg: Config, init: Session, s: State) {
    Flights(s) && Pcs(s) && Requests(init, s) && LeaderOk(cfg, init, s)
  }

  lemma InitInv(cfg: Config, init: Session)
    requires Valid(init)
    ensures Inv(cfg, init, Init(init))
  {
  }

  // Request histories

  lemma Append(init: string, reqs: seq<Request>, r: Request)
    requires Chain(init, reqs) && r.token == Current(init, reqs) && r.outcome.Pending?
    ensures Chain(init, reqs + [r]) && Current(init, reqs + [r]) == Current(init, reqs)
    ensures forall k :: Won(reqs + [r], k) <==> Won(reqs, k)
  {
    var reqs' := reqs + [r];
    assert reqs'[..|reqs|] == reqs;
    forall j | 0 <= j < |reqs'| ensures reqs'[j].token == Current(init, reqs'[..j]) {
      assert reqs'[..j] == reqs[..j];
    }
    forall k | Won(reqs, k) ensures Won(reqs', k) {
      var j :| 0 <= j < |reqs| && reqs[j].flight == k && reqs[j].outcome.Succeeded?;
      assert reqs'[j] == reqs[j];
    }
  }

  function Settle(reqs: seq<Request>, o: Outcome): seq<Request>
    requires |reqs| > 0
  {
    reqs[|reqs| - 1 := reqs[|reqs| - 1].(outcome := o)]
  }

  lemma Settles(init: string, reqs: seq<Request>, o: Outcome)
    requires Chain(init, reqs) && |reqs| > 0 && reqs[|reqs| - 1].outcome.Pending? && !o.Pending?
    ensures Chain(init, Settle(reqs, o))
    ensures Current(init, Settle(reqs, o)) == if o.Succeeded? then o.reply.refresh else Current(init, reqs)
  {
    var reqs' := Settle(reqs, o);
    assert reqs'[..|reqs| - 1] == reqs[..|reqs| - 1];
    forall j | 0 <= j < |reqs'| ensures reqs'[j].token == Current(init, reqs'[..j]) {
      assert reqs'[..j] == reqs[..j];
    }
  }

  lemma SettledWins(reqs: seq<Request>, flights: nat, o: Outcome)
    requires Ordered(reqs, flights) && |reqs| > 0 && reqs[|reqs| - 1].outcome.Pending? && !o.Pending?
    ensures Ordered(Settle(reqs, o), flights)
    ensures forall k: nat ::
      Won(Settle(reqs, o), k) <==> if k == reqs[|reqs| - 1].flight then o.Succeeded? else Won(reqs, k)
  {
    var reqs' := Settle(reqs, o);
    var last := |reqs| - 1;
    forall k: nat ensures Won(reqs', k) <==> if k == reqs[last].flight then o.Succeeded? else Won(reqs, k) {
      if k == reqs[last].flight {
        assert reqs'[last].flight == k;
      } else if Won(reqs, k) {
        var j :| 0 <= j < |reqs| && reqs[j].flight == k && reqs[j].outcome.Succeeded?;
        assert reqs'[j] == reqs[j];
      }
    }
  }

  // Steps

  lemma StepFlights(cfg: Config, init: Session, s: State, a: Action)
    requires Flights(s) && Pcs(s) && Enabled(s, a)
    ensures Flights(Next(cfg, s, a))
  {
    hide Refreshed, Refreshable, Valid, StageOk;
    if !a.SetUser? { assert a.t in s.procs ==> PcOk(s, a.t, s.procs[a.t]); }
  }

  predicate Grows(s: State, s': State) {
    && |s.results| <= |s'.results| && s'.results[..|s.results|] == s.results && s.flights <= s'.flights
  }

  lemma StepGrows(cfg: Config, s: State, a: Action)
    requires Enabled(s, a)
    ensures Grows(s, Next(cfg, s, a))
  {
  }

  lemma StepOthers(cfg: Config, s: State, a: Action, t: int)
    requires Enabled(s, a) && t in Next(cfg, s, a).procs && (a.SetUser? || a.t != t)
    ensures t in s.procs && Next(cfg, s, a).procs[t] == s.procs[t]
  {
  }

  lemma PcStays(s: State, s': State, t: int, pc: Pc)
    requires PcOk(s, t, pc) && Grows(s, s')
    requires pc.Leading? ==> s'.leader == s.leader && s'.wait == s.wait && |s'.results| == |s.results|
    ensures PcOk(s', t, pc)
  {
    assert forall k :: 0 <= k < |s.results| ==> s'.results[k] == s.results[k];
  }

  /** Only the leader changes the leader, the wait group or the results. */
  lemma OnlyLeader(cfg: Config, s: State, a: Action, t: int)
    requires Flights(s) && Pcs(s) && Enabled(s, a) && (a.SetUser? || a.t != t) && LeadingAt(s, t)
    ensures var s' := Next(cfg, s, a);
      s'.leader == s.leader && s'.wait == s.wait && |s'.results| == |s.results|
  {
    assert PcOk(s, t, s.procs[t]);
    assert !a.SetUser? && a.t in s.procs ==> PcOk(s, a.t, s.procs[a.t]);
  }

  lemma StepActor(cfg: Config, init: Session, s: State, a: Action)
    requires Inv(cfg, init, s) && Enabled(s, a) && !a.SetUser?
    ensures a.t in Next(cfg, s, a).procs && PcOk(Next(cfg, s, a), a.t, Next(cfg, s, a).procs[a.t])
  {
    assert a.t in s.procs ==> PcOk(s, a.t, s.procs[a.t]);
    assert SessOk(init, s.sess);
  }

  lemma StepPcs(cfg: Config, init: Session, s: State, a: Action)
    requires Inv(cfg, init, s) && Enabled(s, a)
    ensures Pcs(Next(cfg, s, a))
  {
    hide Next, Requests, LeaderOk, Enabled, Flights;
    var s' := Next(cfg, s, a);
    StepGrows(cfg, s, a);
    forall t | t in s'.procs ensures PcOk(s', t, s'.procs[t]) {
      if !a.SetUser? && t == a.t {
        StepActor(cfg, init, s, a);
      } else {
        StepOthers(cfg, s, a, t);
        if LeadingAt(s, t) { OnlyLeader(cfg, s, a, t); }
        PcStays(s, s', t, s.procs[t]);
      }
    }
  }

  // Requests

  lemma StepRequests(cfg: Config, init: Session, s: State, a: Action)
    requires Inv(cfg, init, s) && Enabled(s, a) && !a.Send? && !a.Receive? && !a.Finish?
    ensures Requests(init, Next(cfg, s, a))
  {
    var s' := Next(cfg, s, a);
    assert s'.requests == s.requests && s'.results == s.results && s.flights <= s'.flights;
  }

  lemma SendRequests(cfg: Config, init: Session, s: State, a: Action)
    requires Inv(cfg, init, s) && Enabled(s, a) && a.Send?
    ensures Requests(init, Next(cfg, s, a))
    ensures Current(init.refresh, Next(cfg, s, a).requests) == Current(init.refresh, s.requests)
  {
    var r := Request(s.procs[a.t].flight, s.procs[a.t].stage.clone.refresh, Pending);
    assert PcOk(s, a.t, s.procs[a.t]);
    assert Next(cfg, s, a).requests == s.requests + [r];
    Append(init.refresh, s.requests, r);
  }

  lemma ReceiveRequests(cfg: Config, init: Session, s: State, a: Action)
    requires Inv(cfg, init, s) && Enabled(s, a) && a.Receive?
    ensures var r := Refreshed(s.procs[a.t].stage.clone, cfg.client, a.reply, a.now);
      var o := if r.Ok? then Succeeded(a.reply.value, a.now) else Failed;
      var s' := Next(cfg, s, a);
      && |s.requests| > 0 && s.requests[|s.requests| - 1].outcome.Pending?
      && s'.requests == Settle(s.requests, o)
      && Current(init.refresh, s'.requests) == (if r.Ok? then r.value.refresh else Current(init.refresh, s.requests))
      && (Won(s'.requests, s.procs[a.t].flight) <==> r.Ok?)
    ensures Requests(init, Next(cfg, s, a))
  {
    var r := Refreshed(s.procs[a.t].stage.clone, cfg.client, a.reply, a.now);
    var o := if r.Ok? then Succeeded(a.reply.value, a.now) else Failed;
    assert PcOk(s, a.t, s.procs[a.t]);
    Settles(init.refresh, s.requests, o);
    SettledWins(s.requests, s.flights, o);
    var s' := Next(cfg, s, a);
    assert s'.results == s.results && s'.flights == s.flights;
  }

  lemma FinishRequests(cfg: Config, init: Session, s: State, a: Action)
    requires Inv(cfg, init, s) && Enabled(s, a) && a.Finish?
    ensures Requests(init, Next(cfg, s, a))
  {
    var s' := Next(cfg, s, a);
    assert PcOk(s, a.t, s.procs[a.t]);
    forall k | 0 <= k < |s'.results| ensures s'.results[k] <==> Won(s'.requests, k) {
      if k < |s.results| { assert s'.results[k] == s.results[k]; }
    }
  }

  // The leader

  predicate SameLedger(s: State, s': State) {
    s'.sess == s.sess && s'.requests == s.requests && s'.saves == s.saves && s'.events == s.events
  }

  lemma StageStays(cfg: Config, init: Session, s: State, s': State, flight: nat, stage: Stage)
    requires StageOk(cfg, init, s, flight, stage) && SameLedger(s, s')
    ensures StageOk(cfg, init, s', flight, stage)
  {
  }

  /** Actions of goroutines other than the leader. */
  lemma BystanderKeeps(cfg: Config, init: Session, s: State, a: Action)
    requires Inv(cfg, init, s) && Enabled(s, a) && !a.SetUser? && !LeadingAt(s, a.t) && (a.Enter? ==> s.wait.Some?)
    ensures LeaderOk(cfg, init, Next(cfg, s, a))
  {
    hide StageOk, Chain, Requests;
    var s' := Next(cfg, s, a);
    assert SameLedger(s, s') && s'.leader == s.leader;
    if s.leader.Some? {
      assert s'.procs[s.leader.value] == s.procs[s.leader.value];
      StageStays(cfg, init, s, s', s.procs[s.leader.value].flight, s.procs[s.leader.value].stage);
    }
  }

  lemma NewLeaderKeeps(cfg: Config, init: Session, s: State, a: Action)
    requires Inv(cfg, init, s) && Enabled(s, a) && a.Enter? && s.wait.None?
    ensures LeaderOk(cfg, init, Next(cfg, s, a))
  {
    var s' := Next(cfg, s, a);
    assert s'.leader == Some(a.t) && s'.procs[a.t].stage.Cloning? && SameLedger(s, s');
  }

  lemma StageUser(cfg: Config, init: Session, s: State, s': State, flight: nat, stage: Stage)
    requires StageOk(cfg, init, s, flight, stage) && SameButUser(s.sess, s'.sess)
    requires s'.requests == s.requests && s'.saves == s.saves && s'.events == s.events
    ensures StageOk(cfg, init, s', flight, stage)
  {
    hide Current;
  }

  lemma SetUserKeeps(cfg: Config, init: Session, s: State, a: Action)
    requires Inv(cfg, init, s) && a.SetUser?
    ensures LeaderOk(cfg, init, Next(cfg, s, a))
  {
    hide StageOk, Chain, Requests, Flights;
    var s' := Next(cfg, s, a);
    assert SameButUser(s.sess, s'.sess) && s'.leader == s.leader && s'.procs == s.procs;
    if s.leader.Some? && LeadingAt(s, s.leader.value) {
      StageUser(cfg, init, s, s', s.procs[s.leader.value].flight, s.procs[s.leader.value].stage);
    }
  }

  lemma LeaderIs(cfg: Config, init: Session, s: State, t: int)
    requires Inv(cfg, init, s) && LeadingAt(s, t)
    ensures s.leader == Some(t) && StageOk(cfg, init, s, s.procs[t].flight, s.procs[t].stage)
  {
    assert PcOk(s, t, s.procs[t]);
  }

  /** The leader moves on to another stage of its flight. */
  lemma LeaderMoves(cfg: Config, init: Session, s': State, t: int)
    requires s'.leader == Some(t) && LeadingAt(s', t) && StageOk(cfg, init, s', s'.procs[t].flight, s'.procs[t].stage)
    ensures LeaderOk(cfg, init, s')
  {
  }

  lemma SendKeeps(cfg: Config, init: Session, s: State, a: Action)
    requires Inv(cfg, init, s) && Enabled(s, a) && a.Send?
    ensures LeaderOk(cfg, init, Next(cfg, s, a))
  {
    hide Chain, Requests, Pcs, Flights, Ordered, Current;
    LeaderIs(cfg, init, s, a.t);
    SendRequests(cfg, init, s, a);
    LeaderMoves(cfg, init, Next(cfg, s, a), a.t);
  }

  lemma ReceiveKeeps(cfg: Config, init: Session, s: State, a: Action)
    requires Inv(cfg, init, s) && Enabled(s, a) && a.Receive?
    ensures LeaderOk(cfg, init, Next(cfg, s, a))
  {
    hide Chain, Requests, Pcs, Flights, Ordered, Current;
    LeaderIs(cfg, init, s, a.t);
    ReceiveRequests(cfg, init, s, a);
    LeaderMoves(cfg, init, Next(cfg, s, a), a.t);
  }

  lemma StageKeeps(cfg: Config, init: Session, s: State, a: Action)
    requires Inv(cfg, init, s) && Enabled(s, a) && (a.Clone? || a.GiveUp? || a.Publish?)
    ensures LeaderOk(cfg, init, Next(cfg, s, a))
  {
    hide Chain, Requests, Pcs, Flights, Ordered, Current;
    LeaderIs(cfg, init, s, a.t);
    var s' := Next(cfg, s, a);
    assert s'.requests == s.requests && s'.saves == s.saves && s'.events == s.events;
    assert s'.leader == s.leader && s'.procs[a.t].flight == s.procs[a.t].flight;
    LeaderMoves(cfg, init, s', a.t);
  }

  lemma ReportKeeps(cfg: Config, init: Session, s: State, a: Action)
    requires Inv(cfg, init, s) && Enabled(s, a) && (a.SaveSession? || a.Emit?)
    ensures LeaderOk(cfg, init, Next(cfg, s, a))
  {
    hide Chain, Requests, Pcs, Flights, Ordered, Current;
    LeaderIs(cfg, init, s, a.t);
    var s' := Next(cfg, s, a);
    assert s'.requests == s.requests && s'.sess == s.sess;
    LeaderMoves(cfg, init, s', a.t);
  }

  lemma FinishKeeps(cfg: Config, init: Session, s: State, a: Action)
    requires Inv(cfg, init, s) && Enabled(s, a) && a.Finish?
    ensures LeaderOk(cfg, init, Next(cfg, s, a))
  {
    LeaderIs(cfg, init, s, a.t);
    assert SameLedger(s, Next(cfg, s, a));
  }

  lemma KeepRequests(cfg: Config, init: Session, s: State, a: Action)
    requires Inv(cfg, init, s) && Enabled(s, a)
    ensures Requests(init, Next(cfg, s, a))
  {
    hide *;
    match a
    case Send(_) => SendRequests(cfg, init, s, a);
    case Receive(_, _, _) => ReceiveRequests(cfg, init, s, a);
    case Finish(_) => FinishRequests(cfg, init, s, a);
    case _ => StepRequests(cfg, init, s, a);
  }

  lemma KeepLeader(cfg: Config, init: Session, s: State, a: Action)
    requires Inv(cfg, init, s) && Enabled(s, a)
    ensures LeaderOk(cfg, init, Next(cfg, s, a))
  {
    hide Inv, Next, LeaderOk;
    match a
    case SetUser(_) => SetUserKeeps(cfg, init, s, a);
    case Send(_) => SendKeeps(cfg, init, s, a);
    case Receive(_, _, _) => ReceiveKeeps(cfg, init, s, a);
    case Clone(_) => StageKeeps(cfg, init, s, a);
    case GiveUp(_) => StageKeeps(cfg, init, s, a);
    case Publish(_) => StageKeeps(cfg, init, s, a);
    case SaveSession(_) => ReportKeeps(cfg, init, s, a);
    case Emit(_) => ReportKeeps(cfg, init, s, a);
    case Finish(_) => FinishKeeps(cfg, init, s, a);
    case Enter(_) =>
      if s.wait.None? { NewLeaderKeeps(cfg, init, s, a); } else { BystanderKeeps(cfg, init, s, a); }
    case _ => BystanderKeeps(cfg, init, s, a);
  }

  lemma KeepInv(cfg: Config, init: Session, s: State, a: Action)
    requires Inv(cfg, init, s) && Enabled(s, a)
    ensures Inv(cfg, init, Next(cfg, s, a))
  {
    hide Next, Requests, LeaderOk, Flights, Pcs, Enabled;
    StepFlights(cfg, init, s, a);
    StepPcs(cfg, init, s, a);
    KeepRequests(cfg, init, s, a);
    KeepLeader(cfg, init, s, a);
  }

  lemma {:induction false} Reached(cfg: Config, init: Session, s: State, acts: seq<Action>)
    requires Inv(cfg, init, s) && Runnable(cfg, s, acts)
    ensures Inv(cfg, init, After(cfg, s, acts))
    decreases |acts|
  {
    hide Inv, Enabled, Next;
    if acts != [] {
      KeepInv(cfg, init, s, acts[0]);
      Reached(cfg, init, Next(cfg, s, acts[0]), acts[1..]);
    }
  }
}
