/**
 Token refresh: any number of concurrent Token and tryRefresh calls coalesced by
 the singleflight, as a transition system. Each section that holds s.mu or sessMu
 is one action, and so is every send, reply, save and dispatch in between. The
 server's reply, the clock and the fate of a save are chosen by the action.
 */
module Rotation {
  import opened Common
  import opened Vkid

  /** clientID of the VK ID configuration, and whether a Storage is set. */
  datatype Config = Config(client: string, storage: bool)

  /** How long before its expiry a token is refreshed, in seconds. */
  const LEEWAY := 60

  /** One caller of tryRefresh: Token (fallback = the access token it read) or run.
      began is the number of flights completed when it called. */
  datatype Caller = Caller(fallback: Option<string>, began: nat)

  /** Where the leader is inside fn, or after it with fn's result. */
  datatype Stage =
    | Cloning
    | Sending(clone: Session)
    | Awaiting(clone: Session)
    | Publishing(renewed: Session)
    | Saving
    | Emitting
    | Finishing(ok: bool)

  datatype Pc =
    | Calling(caller: Caller)
    | Following(caller: Caller, flight: nat)
    | Woken(caller: Caller, flight: nat)
    | Leading(caller: Caller, flight: nat, stage: Stage)
    | Releasing(caller: Caller, flight: nat, ok: bool)
    | Reported(caller: Caller, ok: bool, seen: nat)
    | TokenReturned(token: string)

  /** now is when a usable reply was read. */
  datatype Outcome = Pending | Failed | Succeeded(reply: Response, now: int)

  /** A refresh request: the flight it belongs to, the refresh token it carries. */
  datatype Request = Request(flight: nat, token: string, outcome: Outcome)

  /**
   wait, err, sess and done (the wait groups released) are the program's state.
   leader, results (err's values in order), requests, saves and events are history:
   no action is guarded by them. A wait group is named by its flight number.
   Once published, the leader's session is the client's own: the save and the event
   read sess, which Connect may meanwhile have given a user id (SetUser).
   */
  datatype State = State(
    wait: Option<nat>,
    err: bool,
    flights: nat,
    done: set<nat>,
    sess: Session,
    procs: map<int, Pc>,
    leader: Option<int>,
    results: seq<bool>,
    requests: seq<Request>,
    saves: seq<Session>,
    events: seq<Session>)

  function Init(s: Session): State {
    State(None, true, 0, {}, s, map[], None, [], [], [], [])
  }

  datatype Action =
    | ReadToken(t: int, now: int)
    | RunCalls(t: int)
    | Enter(t: int)
    | Clone(t: int)
    | GiveUp(t: int)
    | Send(t: int)
    | Receive(t: int, reply: Reply, now: int)
    | Publish(t: int)
    | SaveSession(t: int)
    | Emit(t: int)
    | Finish(t: int)
    | Release(t: int)
    | Wake(t: int)
    | ReadErr(t: int)
    | ReturnToken(t: int)
    | SetUser(id: int)

  predicate LeadingAt(s: State, t: int) { t in s.procs && s.procs[t].Leading? }

  predicate Enabled(s: State, a: Action) {
    match a
    case ReadToken(t, _) => t !in s.procs
    case RunCalls(t) => t !in s.procs
    case Enter(t) => t in s.procs && s.procs[t].Calling?
    case Clone(t) => LeadingAt(s, t) && s.procs[t].stage.Cloning?
    case GiveUp(t) => LeadingAt(s, t) && s.procs[t].stage.Sending?
    case Send(t) => LeadingAt(s, t) && s.procs[t].stage.Sending?
    case Receive(t, _, _) => LeadingAt(s, t) && s.procs[t].stage.Awaiting?
    case Publish(t) => LeadingAt(s, t) && s.procs[t].stage.Publishing?
    case SaveSession(t) => LeadingAt(s, t) && s.procs[t].stage.Saving?
    case Emit(t) => LeadingAt(s, t) && s.procs[t].stage.Emitting?
    case Finish(t) => LeadingAt(s, t) && s.procs[t].stage.Finishing?
    case Release(t) => t in s.procs && s.procs[t].Releasing?
    case Wake(t) => t in s.procs && s.procs[t].Following? && s.procs[t].flight in s.done
    case ReadErr(t) => t in s.procs && s.procs[t].Woken?
    case ReturnToken(t) => t in s.procs && s.procs[t].Reported? && s.procs[t].caller.fallback.Some?
    case SetUser(_) => true
  }

  function Put(s: State, t: int, pc: Pc): State {
    s.(procs := s.procs[t := pc])
  }

  function PutStage(s: State, t: int, stage: Stage): State
    requires LeadingAt(s, t)
  {
    Put(s, t, s.procs[t].(stage := stage))
  }

  /** The wait group that a caller finds or installs. */
  function EnterWait(wait: Option<nat>, flight: nat): Option<nat> {
    if wait.Some? then wait else Some(flight)
  }

  /** do, first section: follow the flight in progress or start one. */
  function DoEnter(s: State, t: int, c: Caller): State {
    if s.wait.Some? then Put(s, t, Following(c, s.wait.value))
    else
      Put(s, t, Leading(c, s.flights, Cloning))
        .(wait := EnterWait(s.wait, s.flights), flights := s.flights + 1, leader := Some(t))
  }

  /** do, last section of the leader. */
  function DoFinish(s: State, t: int, c: Caller, flight: nat, ok: bool): State {
    Put(s, t, Releasing(c, flight, ok))
      .(err := ok, wait := None, leader := None, results := s.results + [ok])
  }

  /** The reply settles the last request and decides how the leader goes on. */
  function DoReceive(s: State, t: int, clone: Session, cfg: Config, reply: Reply, now: int): State
    requires LeadingAt(s, t)
  {
    var r := Refreshed(clone, cfg.client, reply, now);
    var outcome := if r.Ok? then Succeeded(reply.value, now) else Failed;
    var settled := if s.requests == [] then [] else
      s.requests[|s.requests| - 1 := s.requests[|s.requests| - 1].(outcome := outcome)];
    PutStage(s, t, if r.Ok? then Publishing(r.value) else Finishing(false)).(requests := settled)
  }

  function Next(cfg: Config, s: State, a: Action): State
    requires Enabled(s, a)
  {
    match a
    case ReadToken(t, now) =>
      Put(s, t, if Refreshable(s.sess) && s.sess.expiresAt != 0 && now + LEEWAY > s.sess.expiresAt
                then Calling(Caller(Some(s.sess.access), |s.results|))
                else TokenReturned(s.sess.access))
    case RunCalls(t) => Put(s, t, Calling(Caller(None, |s.results|)))
    case Enter(t) => DoEnter(s, t, s.procs[t].caller)
    case Clone(t) => PutStage(s, t, if Refreshable(s.sess) then Sending(s.sess) else Finishing(false))
    case GiveUp(t) => PutStage(s, t, Finishing(false))
    case Send(t) =>
      var clone := s.procs[t].stage.clone;
      PutStage(s, t, Awaiting(clone))
        .(requests := s.requests + [Request(s.procs[t].flight, clone.refresh, Pending)])
    case Receive(t, reply, now) => DoReceive(s, t, s.procs[t].stage.clone, cfg, reply, now)
    case Publish(t) =>
      PutStage(s, t, if cfg.storage then Saving else Emitting).(sess := s.procs[t].stage.renewed)
    case SaveSession(t) =>
      PutStage(s, t, Emitting).(saves := if Valid(s.sess) then s.saves + [s.sess] else s.saves)
    case Emit(t) =>
      PutStage(s, t, Finishing(true)).(events := s.events + [s.sess])
    case Finish(t) => DoFinish(s, t, s.procs[t].caller, s.procs[t].flight, s.procs[t].stage.ok)
    case Release(t) =>
      var pc := s.procs[t];
      Put(s, t, Reported(pc.caller, pc.ok, pc.flight)).(done := s.done + {pc.flight})
    case Wake(t) => Put(s, t, Woken(s.procs[t].caller, s.procs[t].flight))
    case ReadErr(t) =>
      Put(s, t, Reported(s.procs[t].caller, s.err, if |s.results| == 0 then 0 else |s.results| - 1))
    case ReturnToken(t) =>
      Put(s, t, TokenReturned(if s.procs[t].ok then s.sess.access else s.procs[t].caller.fallback.value))
    case SetUser(id) => if s.sess.userID == 0 then s.(sess := s.sess.(userID := id)) else s
  }

  predicate Runnable(cfg: Config, s: State, acts: seq<Action>)
    decreases |acts|
  {
    acts == [] || (Enabled(s, acts[0]) && Runnable(cfg, Next(cfg, s, acts[0]), acts[1..]))
  }

  function After(cfg: Config, s: State, acts: seq<Action>): State
    requires Runnable(cfg, s, acts)
    decreases |acts|
  {
    if acts == [] then s else After(cfg, Next(cfg, s, acts[0]), acts[1..])
  }

  /** s can be reached from a client created with session init. */
  ghost predicate Reachable(cfg: Config, init: Session, s: State) {
    exists acts :: Runnable(cfg, Init(init), acts) && After(cfg, Init(init), acts) == s
  }

  /** The two fields of the singleflight that s.mu guards, updated in place. The
      wait group a caller brings is named by a fresh number. */
  class Singleflight {
    var wait: Option<nat>
    var err: bool

    constructor ()
      ensures wait == None && err
    {
      wait, err := None, true;
    }

    /** Follow the flight in progress, or lead the one named by fresh. */
    method Enter(flight: nat) returns (lead: bool, joined: nat)
      modifies this
      ensures lead == old(wait).None?
      ensures wait == EnterWait(old(wait), flight) && wait == Some(joined) && err == old(err)
    {
      if wait.Some? {
        return false, wait.value;
      }
      wait := Some(flight);
      return true, flight;
    }

    /** The leader publishes its result before it releases the wait group. */
    method Finish(ok: bool)
      modifies this
      ensures err == ok && wait == None
    {
      err := ok;
      wait := None;
    }
  }
}
