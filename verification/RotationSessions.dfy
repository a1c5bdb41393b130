/** Which session the client holds, saves and announces, and which token Token returns. */
module RotationSessions {
  import opened Common
  import opened Vkid
  import opened Rotation
  import opened RotationInvariant
  import opened RotationTheorems

  // The session that the replies add up to

  /** a and b differ in the user id at most. */
  predicate SameTokens(a: Session, b: Session) { a.(userID := b.userID) == b }

  /** The session that a usable reply, read at time now, stands for: every token field is
      the reply's, the device is the first one, the client the configured one or else the
      first one. The user id is left open. */
  function Issued(cfg: Config, init: Session, reply: Response, now: int): Session {
    Session(
      reply.userID, reply.access, reply.refresh, reply.idToken, init.device,
      if cfg.client != "" then cfg.client else init.client,
      reply.scope, if reply.expiresIn > 0 then now + reply.expiresIn else 0)
  }

  /** The session of the latest successful request, or the initial one. */
  function Latest(cfg: Config, init: Session, reqs: seq<Request>): Session
    decreases |reqs|
  {
    if reqs == [] then init
    else
      var o := reqs[|reqs| - 1].outcome;
      if o.Succeeded? then Issued(cfg, init, o.reply, o.now) else Latest(cfg, init, reqs[..|reqs| - 1])
  }

  /** The sessions of all successful requests, in order. */
  function AllIssued(cfg: Config, init: Session, reqs: seq<Request>): seq<Session>
    decreases |reqs|
  {
    if reqs == [] then []
    else
      var o := reqs[|reqs| - 1].outcome;
      AllIssued(cfg, init, reqs[..|reqs| - 1]) + (if o.Succeeded? then [Issued(cfg, init, o.reply, o.now)] else [])
  }

  /** What the leader has yet to do with a reply it has accepted. */
  datatype Phase = Idle | Unpublished(renewed: Session) | Unsaved | Untold

  function PhaseOf(s: State): Phase {
    if s.leader.Some? && LeadingAt(s, s.leader.value) then
      match s.procs[s.leader.value].stage
      case Publishing(n) => Unpublished(n)
      case Saving => Unsaved
      case Emitting => Untold
      case _ => Idle
    else Idle
  }

  /** list has the token fields of all sessions in issued but the last lag. */
  predicate Records(list: seq<Session>, issued: seq<Session>, lag: nat) {
    |list| + lag == |issued| && forall k :: 0 <= k < |list| ==> SameTokens(list[k], issued[k])
  }

  predicate Ledger(cfg: Config, init: Session, phase: Phase, sess: Session, reqs: seq<Request>, saves: seq<Session>, events: seq<Session>) {
    && (if phase.Unpublished? then
          |reqs| > 0 && SameTokens(phase.renewed, Latest(cfg, init, reqs)) && SameTokens(sess, Latest(cfg, init, reqs[..|reqs| - 1]))
        else SameTokens(sess, Latest(cfg, init, reqs)))
    && Records(events, AllIssued(cfg, init, reqs), if phase.Idle? then 0 else 1)
    && (if cfg.storage then Records(saves, AllIssued(cfg, init, reqs), if phase.Unpublished? || phase.Unsaved? then 1 else 0)
        else saves == [] && !phase.Unsaved?)
  }

  predicate LedgerAt(cfg: Config, init: Session, s: State) {
    Ledger(cfg, init, PhaseOf(s), s.sess, s.requests, s.saves, s.events)
  }

  lemma Appended(cfg: Config, init: Session, reqs: seq<Request>, r: Request)
    requires !r.outcome.Succeeded?
    ensures Latest(cfg, init, reqs + [r]) == Latest(cfg, init, reqs) && AllIssued(cfg, init, reqs + [r]) == AllIssued(cfg, init, reqs)
  {
    assert (reqs + [r])[..|reqs|] == reqs;
  }

  lemma SettledTo(cfg: Config, init: Session, reqs: seq<Request>, o: Outcome)
    requires |reqs| > 0 && reqs[|reqs| - 1].outcome.Pending?
    ensures var before, after := reqs[..|reqs| - 1], Settle(reqs, o);
      && after[..|after| - 1] == before && Latest(cfg, init, reqs) == Latest(cfg, init, before)
      && Latest(cfg, init, after) == (if o.Succeeded? then Issued(cfg, init, o.reply, o.now) else Latest(cfg, init, reqs))
      && AllIssued(cfg, init, after)
         == AllIssued(cfg, init, reqs) + (if o.Succeeded? then [Issued(cfg, init, o.reply, o.now)] else [])
  {
    assert Settle(reqs, o)[..|reqs| - 1] == reqs[..|reqs| - 1];
  }

  /** The reply decides every token field of the renewed session. */
  lemma RefreshedIsIssued(cfg: Config, init: Session, clone: Session, reply: Reply, now: int)
    requires Refreshed(clone, cfg.client, reply, now).Ok? && clone.device == init.device
    requires clone.client == init.client || (cfg.client != "" && clone.client == cfg.client)
    ensures reply.Ok? && SameTokens(Refreshed(clone, cfg.client, reply, now).value, Issued(cfg, init, reply.value, now))
  {
  }

  lemma {:induction false} LatestClient(cfg: Config, init: Session, reqs: seq<Request>)
    ensures var s := Latest(cfg, init, reqs);
      s.device == init.device && (s.client == init.client || (cfg.client != "" && s.client == cfg.client))
    decreases |reqs|
  {
    if reqs != [] { LatestClient(cfg, init, reqs[..|reqs| - 1]); }
  }

  // Steps

  lemma SendLedger(cfg: Config, init: Session, s: State, a: Action)
    requires Inv(cfg, init, s) && Enabled(s, a) && a.Send? && LedgerAt(cfg, init, s)
    ensures LedgerAt(cfg, init, Next(cfg, s, a))
  {
    LeaderIs(cfg, init, s, a.t);
    Appended(cfg, init, s.requests, Request(s.procs[a.t].flight, s.procs[a.t].stage.clone.refresh, Pending));
    hide Inv, Latest, AllIssued;
  }

  predicate Leads(s: State, t: int) { s.leader == Some(t) && LeadingAt(s, t) }

  lemma ReceiveEffect(cfg: Config, s: State, a: Action)
    requires Enabled(s, a) && a.Receive? && Leads(s, a.t)
    ensures var s', r := Next(cfg, s, a), Refreshed(s.procs[a.t].stage.clone, cfg.client, a.reply, a.now);
      && s'.sess == s.sess && s'.saves == s.saves && s'.events == s.events
      && PhaseOf(s').Idle? == r.Err? && (r.Ok? ==> PhaseOf(s') == Unpublished(r.value))
    ensures PhaseOf(s) == Idle
  {
    hide Refreshed;
  }

  lemma SettleLedger(cfg: Config, init: Session, phase: Phase, sess: Session, reqs: seq<Request>, o: Outcome,
                     saves: seq<Session>, events: seq<Session>)
    requires Ledger(cfg, init, Idle, sess, reqs, saves, events) && |reqs| > 0 && reqs[|reqs| - 1].outcome.Pending?
    requires if o.Succeeded? then phase.Unpublished? && SameTokens(phase.renewed, Issued(cfg, init, o.reply, o.now)) else phase.Idle?
    ensures Ledger(cfg, init, phase, sess, Settle(reqs, o), saves, events)
  {
    SettledTo(cfg, init, reqs, o);
    hide Latest, AllIssued, Issued, Settle;
  }

  lemma ReceiveLedger(cfg: Config, init: Session, s: State, a: Action)
    requires Inv(cfg, init, s) && Enabled(s, a) && a.Receive? && LedgerAt(cfg, init, s)
    ensures LedgerAt(cfg, init, Next(cfg, s, a))
  {
    var s', clone := Next(cfg, s, a), s.procs[a.t].stage.clone;
    var r := Refreshed(clone, cfg.client, a.reply, a.now);
    LeaderIs(cfg, init, s, a.t);
    assert SameButUser(clone, s.sess);
    ReceiveRequests(cfg, init, s, a);
    ReceiveEffect(cfg, s, a);
    assert SameTokens(s.sess, Latest(cfg, init, s.requests));
    hide Inv, Enabled, Next, PhaseOf, Refreshed, Requests, StageOk, LeadingAt, Latest, AllIssued, Settle, Ledger;
    LatestClient(cfg, init, s.requests);
    if r.Ok? { RefreshedIsIssued(cfg, init, clone, a.reply, a.now); }
    var o := if r.Ok? then Succeeded(a.reply.value, a.now) else Failed;
    SettleLedger(cfg, init, PhaseOf(s'), s.sess, s.requests, o, s.saves, s.events);
  }

  lemma ReportEffect(cfg: Config, s: State, a: Action)
    requires Enabled(s, a) && (a.Publish? || a.SaveSession? || a.Emit?) && Leads(s, a.t) && (a.SaveSession? ==> Valid(s.sess))
    ensures var s' := Next(cfg, s, a);
      && s'.requests == s.requests
      && match PhaseOf(s)
         case Unpublished(n) =>
           a.Publish? && PhaseOf(s') == (if cfg.storage then Unsaved else Untold)
           && s'.sess == n && s'.saves == s.saves && s'.events == s.events
         case Unsaved =>
           a.SaveSession? && PhaseOf(s') == Untold && s'.sess == s.sess && s'.saves == s.saves + [s.sess] && s'.events == s.events
         case Untold => a.Emit? && PhaseOf(s') == Idle && s'.sess == s.sess && s'.saves == s.saves && s'.events == s.events + [s.sess]
         case Idle => false
  {
  }

  /** Publish, SaveSession and Emit. */
  lemma ReportLedger(cfg: Config, init: Session, s: State, a: Action)
    requires Inv(cfg, init, s) && Enabled(s, a) && (a.Publish? || a.SaveSession? || a.Emit?) && LedgerAt(cfg, init, s)
    ensures LedgerAt(cfg, init, Next(cfg, s, a))
  {
    LeaderIs(cfg, init, s, a.t);
    assert a.SaveSession? ==> Valid(s.sess);
    ReportEffect(cfg, s, a);
    hide Inv, Enabled, Next, PhaseOf, StageOk, Latest, AllIssued;
  }

  lemma UserLedger(cfg: Config, init: Session, s: State, a: Action)
    requires Enabled(s, a) && a.SetUser? && LedgerAt(cfg, init, s)
    ensures LedgerAt(cfg, init, Next(cfg, s, a))
  {
    hide Latest, AllIssued;
  }

  predicate Rest(a: Action) {
    !a.Send? && !a.Receive? && !a.Publish? && !a.SaveSession? && !a.Emit? && !a.SetUser?
  }

  lemma RestEffect(cfg: Config, s: State, a: Action)
    requires Enabled(s, a) && Rest(a) && Flights(s) && (LeadingAt(s, a.t) ==> Leads(s, a.t))
    ensures SameLedger(s, Next(cfg, s, a)) && PhaseOf(Next(cfg, s, a)) == PhaseOf(s)
  {
    hide Refreshable;
  }

  lemma RestLedger(cfg: Config, init: Session, s: State, a: Action)
    requires Inv(cfg, init, s) && Enabled(s, a) && LedgerAt(cfg, init, s) && Rest(a)
    ensures LedgerAt(cfg, init, Next(cfg, s, a))
  {
    if LeadingAt(s, a.t) { LeaderIs(cfg, init, s, a.t); }
    hide Enabled, Next, Ledger, PhaseOf, StageOk, Requests, Flights;
    RestEffect(cfg, s, a);
  }

  lemma StepLedger(cfg: Config, init: Session, s: State, a: Action)
    requires Inv(cfg, init, s) && Enabled(s, a) && LedgerAt(cfg, init, s)
    ensures LedgerAt(cfg, init, Next(cfg, s, a))
  {
    hide Inv, Enabled, Next, LedgerAt;
    match a
    case Send(_) => SendLedger(cfg, init, s, a);
    case Receive(_, _, _) => ReceiveLedger(cfg, init, s, a);
    case Publish(_) => ReportLedger(cfg, init, s, a);
    case SaveSession(_) => ReportLedger(cfg, init, s, a);
    case Emit(_) => ReportLedger(cfg, init, s, a);
    case SetUser(_) => UserLedger(cfg, init, s, a);
    case _ => RestLedger(cfg, init, s, a);
  }

  lemma {:induction false} LedgerFrom(cfg: Config, init: Session, s: State, acts: seq<Action>)
    requires Inv(cfg, init, s) && LedgerAt(cfg, init, s) && Runnable(cfg, s, acts)
    ensures LedgerAt(cfg, init, After(cfg, s, acts))
    decreases |acts|
  {
    hide Inv, Enabled, Next, LedgerAt;
    if acts != [] {
      StepLedger(cfg, init, s, acts[0]);
      KeepInv(cfg, init, s, acts[0]);
      LedgerFrom(cfg, init, Next(cfg, s, acts[0]), acts[1..]);
    }
  }

  lemma LedgerHolds(cfg: Config, init: Session, s: State)
    requires Valid(init) && Reachable(cfg, init, s)
    ensures LedgerAt(cfg, init, s)
  {
    hide Inv, Runnable, After;
    var acts :| Runnable(cfg, Init(init), acts) && After(cfg, Init(init), acts) == s;
    InitInv(cfg, init);
    LedgerFrom(cfg, init, Init(init), acts);
  }

  // What the client holds, saves and announces

  /** Except while a reply is waiting to be published, the client holds the session of the
      latest successful request: the access token and every other field but the user id
      are that reply's. */
  lemma HoldsLatest(cfg: Config, init: Session, s: State)
    requires Valid(init) && Reachable(cfg, init, s)
    requires forall t :: LeadingAt(s, t) ==> !s.procs[t].stage.Publishing?
    ensures SameTokens(s.sess, Latest(cfg, init, s.requests))
  {
    hide Reachable, Latest;
    LedgerHolds(cfg, init, s);
  }

  /** Each successful request is announced once, in order, with the session of its reply,
      and before that saved once if there is a storage; only the latest can be on its way. */
  lemma EachIsSavedAndTold(cfg: Config, init: Session, s: State)
    requires Valid(init) && Reachable(cfg, init, s)
    ensures var issued := AllIssued(cfg, init, s.requests);
      && |issued| - 1 <= |s.events| <= |issued|
      && (forall k :: 0 <= k < |s.events| ==> SameTokens(s.events[k], issued[k]))
      && (cfg.storage ==> |s.events| <= |s.saves| <= |issued| && forall k :: 0 <= k < |s.saves| ==> SameTokens(s.saves[k], issued[k]))
      && (!cfg.storage ==> s.saves == [])
      && (s.leader.None? ==> |s.events| == |issued|)
  {
    hide Reachable, Latest, AllIssued;
    LedgerHolds(cfg, init, s);
  }
}
