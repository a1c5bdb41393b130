/**
 The connection lifecycle of a client: Connect, the run goroutine, Disconnect
 and Logout, as a transition system with one program counter per goroutine.

 The shared state is the slot (connected, cancel, done) guarded by connMu plus
 the atomic loggedOut flag. Every section that holds connMu is one action; so
 is every dispatch, every channel operation and every `go` statement. What
 users.get, poller.Run and tryRefresh answer is chosen by the action.
 */
module Lifecycle {
  import opened Common

  /** The fields guarded by connMu. Contexts and done channels are fresh numbers. */
  datatype Slot = Slot(connected: bool, cancel: Option<nat>, done: Option<nat>)

  // The four sections that change the slot.

  /** Connect, second section. */
  function CommitSlot(s: Slot, ctx: nat, ch: nat): Slot {
    if s.connected then s else Slot(true, Some(ctx), Some(ch))
  }

  /** run, after poller.Run has returned. */
  function EndSlot(s: Slot): Slot {
    s.(connected := false)
  }

  /** run, reconnecting after a successful refresh; mine is its own done. */
  function ReconnectSlot(s: Slot, mine: nat, ctx: nat, ch: nat): Slot {
    if s.done != Some(mine) then s else Slot(true, Some(ctx), Some(ch))
  }

  /** Disconnect. */
  function TakeSlot(s: Slot): Slot {
    s.(cancel := None, done := None)
  }

  /** What poller.Run returned. */
  datatype Cause = Cancelled | AuthFailed | OtherError

  datatype Event = Connected | Update | Disconnected(clean: bool) | LoggedOut

  /** A run is given by its context, its done channel and the lineage it belongs
      to: one lineage per committed Connect, shared by the runs it reconnects. */
  datatype RunRef = RunRef(ctx: nat, done: nat, line: nat)

  /** A pair taken by Disconnect (a nil done blocks for ever); epoch counts the
      Connects committed when it was taken. */
  datatype Job = Job(ctx: nat, done: Option<nat>, epoch: nat, logout: bool)

  /** How a done channel left the slot. */
  datatype Fate = Taken | Displaced | Succeeded(next: int)

  datatype ConnectResult = Started | AlreadyConnected | ErrLoggedOut | VerifyFailed

  datatype Pc =
    // Connect
    | Verifying
    | Verified
    | Announcing(run: RunRef)
    | Launching(run: RunRef)
    | ConnectReturned(result: ConnectResult)
    // run
    | Polling(run: RunRef)
    | PollReturned(run: RunRef, cause: Cause)
    | Refreshing(run: RunRef)
    | Refreshed(run: RunRef, ok: bool)
    | Relocking(run: RunRef)
    | MarkingOut(run: RunRef)
    | Relaunching(run: RunRef, next: RunRef)
    | Telling(run: RunRef, last: Event)
    | Closing(run: RunRef)
    | RunReturned
    // Disconnect and Logout
    | Cancelling(job: Job)
    | Joining(job: Job)
    | LogoutMarking
    | LogoutTelling
    | DisconnectReturned

  /**
   slot, loggedOut, closed and cancelled are the program's state. lines (the
   events dispatched for each lineage, in order), fate, silent and commits are
   history: no action is guarded by them.
   */
  datatype State = State(
    slot: Slot,
    loggedOut: bool,
    nextCtx: nat,
    nextCh: nat,
    closed: set<nat>,
    cancelled: set<nat>,
    procs: map<int, Pc>,
    commits: nat,
    lines: map<nat, seq<Event>>,
    fate: map<nat, Fate>,
    silent: map<nat, nat>)

  const Init: State :=
    State(Slot(false, None, None), false, 0, 0, {}, {}, map[], 0, map[], map[], map[])

  datatype Action =
    | ConnectBegin(t: int)
    | VerifyReturns(t: int, ok: bool)
    | Commit(t: int)
    | Announce(t: int)
    | Launch(t: int, child: int)
    | PollEvent(t: int)
    | PollReturns(t: int, cause: Cause)
    | ClearConnected(t: int)
    | RefreshReturns(t: int, ok: bool)
    | CheckContext(t: int)
    | StoreLoggedOut(t: int)
    | Reconnect(t: int)
    | Relaunch(t: int, child: int)
    | TellLast(t: int)
    | CloseDone(t: int)
    | Take(t: int, logout: bool)
    | CallCancel(t: int)
    | Join(t: int)
    | LogoutMark(t: int)
    | LogoutReturns(t: int, ok: bool)

  predicate Fresh(s: State, t: int) { t !in s.procs }

  predicate Enabled(s: State, a: Action) {
    match a
    case ConnectBegin(t) => Fresh(s, t)
    case VerifyReturns(t, _) => t in s.procs && s.procs[t].Verifying?
    case Commit(t) => t in s.procs && s.procs[t].Verified?
    case Announce(t) => t in s.procs && s.procs[t].Announcing?
    case Launch(t, u) => t in s.procs && s.procs[t].Launching? && Fresh(s, u)
    case PollEvent(t) => t in s.procs && s.procs[t].Polling?
    case PollReturns(t, _) => t in s.procs && s.procs[t].Polling?
    case ClearConnected(t) => t in s.procs && s.procs[t].PollReturned?
    case RefreshReturns(t, _) => t in s.procs && s.procs[t].Refreshing?
    case CheckContext(t) => t in s.procs && s.procs[t].Refreshed?
    case StoreLoggedOut(t) => t in s.procs && s.procs[t].MarkingOut?
    case Reconnect(t) => t in s.procs && s.procs[t].Relocking?
    case Relaunch(t, u) => t in s.procs && s.procs[t].Relaunching? && Fresh(s, u)
    case TellLast(t) => t in s.procs && s.procs[t].Telling?
    case CloseDone(t) => t in s.procs && s.procs[t].Closing?
    case Take(t, _) => Fresh(s, t)
    case CallCancel(t) => t in s.procs && s.procs[t].Cancelling?
    case Join(t) => t in s.procs && s.procs[t].Joining?
                    && s.procs[t].job.done.Some? && s.procs[t].job.done.value in s.closed
    case LogoutMark(t) => t in s.procs && s.procs[t].LogoutMarking?
    case LogoutReturns(t, _) => t in s.procs && s.procs[t].LogoutTelling?
  }

  function Put(s: State, t: int, pc: Pc): State {
    s.(procs := s.procs[t := pc])
  }

  /** Appends an event to the history of a lineage. */
  function Tell(s: State, line: nat, e: Event): State {
    s.(lines := s.lines[line := (if line in s.lines then s.lines[line] else []) + [e]])
  }

  /** Records how the channel now in the slot leaves it. */
  function Evict(s: State, f: Fate): State {
    if s.slot.done.None? then s else s.(fate := s.fate[s.slot.done.value := f])
  }

  function AfterDisconnect(logout: bool): Pc {
    if logout then LogoutMarking else DisconnectReturned
  }

  /** Installs a fresh pair for a run of the given lineage. */
  function FreshRun(s: State, line: nat): RunRef {
    RunRef(s.nextCtx, s.nextCh, line)
  }

  function DoCommit(s: State, t: int): State {
    if s.slot.connected then
      Put(s, t, ConnectReturned(AlreadyConnected))
    else
      var r := FreshRun(s, s.commits);
      Put(Evict(s, Displaced), t, Announcing(r))
        .(slot := CommitSlot(s.slot, r.ctx, r.done),
          nextCtx := s.nextCtx + 1, nextCh := s.nextCh + 1,
          commits := s.commits + 1,
          lines := s.lines[s.commits := []])
  }

  /** After connected is cleared the run branches on the error it got. */
  function AfterPoll(run: RunRef, cause: Cause): Pc {
    match cause
    case Cancelled => Telling(run, Disconnected(true))
    case AuthFailed => Refreshing(run)
    case OtherError => Telling(run, Disconnected(false))
  }

  function AfterRefresh(run: RunRef, cancelled: bool, ok: bool): Pc {
    if cancelled then Telling(run, Disconnected(true))
    else if ok then Relocking(run)
    else MarkingOut(run)
  }

  function DoReconnect(s: State, t: int, run: RunRef): State {
    if s.slot.done != Some(run.done) then
      Put(s, t, Closing(run)).(silent := s.silent[run.line := run.done])
    else
      var r := FreshRun(s, run.line);
      Put(Evict(s, Succeeded(r.done)), t, Relaunching(run, r))
        .(slot := ReconnectSlot(s.slot, run.done, r.ctx, r.done),
          nextCtx := s.nextCtx + 1, nextCh := s.nextCh + 1)
  }

  function DoTake(s: State, t: int, logout: bool): State {
    if s.slot.cancel.None? then
      Put(s, t, AfterDisconnect(logout)).(slot := TakeSlot(s.slot))
    else
      Put(Evict(s, Taken), t, Cancelling(Job(s.slot.cancel.value, s.slot.done, s.commits, logout)))
        .(slot := TakeSlot(s.slot))
  }

  function DoAnnounce(s: State, t: int, run: RunRef): State {
    Tell(Put(s, t, Launching(run)), run.line, Connected)
  }

  function DoLaunch(s: State, t: int, child: int, run: RunRef): State {
    Put(Put(s, t, ConnectReturned(Started)), child, Polling(run))
  }

  function DoClearConnected(s: State, t: int, run: RunRef, cause: Cause): State {
    Put(s, t, AfterPoll(run, cause)).(slot := EndSlot(s.slot))
  }

  function DoRelaunch(s: State, t: int, child: int, run: RunRef, next: RunRef): State {
    Put(Put(s, t, Closing(run)), child, Polling(next))
  }

  function DoTellLast(s: State, t: int, run: RunRef, last: Event): State {
    Tell(Put(s, t, Closing(run)), run.line, last)
  }

  function DoCloseDone(s: State, t: int, run: RunRef): State {
    Put(s, t, RunReturned).(closed := s.closed + {run.done})
  }

  function Next(s: State, a: Action): State
    requires Enabled(s, a)
  {
    match a
    case ConnectBegin(t) =>
      Put(s, t, if s.slot.connected then ConnectReturned(AlreadyConnected)
                else if s.loggedOut then ConnectReturned(ErrLoggedOut)
                else Verifying)
    case VerifyReturns(t, ok) =>
      Put(s, t, if ok then Verified else ConnectReturned(VerifyFailed))
    case Commit(t) => DoCommit(s, t)
    case Announce(t) => DoAnnounce(s, t, s.procs[t].run)
    case Launch(t, u) => DoLaunch(s, t, u, s.procs[t].run)
    case PollEvent(t) => Tell(s, s.procs[t].run.line, Update)
    case PollReturns(t, cause) => Put(s, t, PollReturned(s.procs[t].run, cause))
    case ClearConnected(t) => DoClearConnected(s, t, s.procs[t].run, s.procs[t].cause)
    case RefreshReturns(t, ok) => Put(s, t, Refreshed(s.procs[t].run, ok))
    case CheckContext(t) =>
      Put(s, t, AfterRefresh(s.procs[t].run, s.procs[t].run.ctx in s.cancelled, s.procs[t].ok))
    case StoreLoggedOut(t) => Put(s, t, Telling(s.procs[t].run, LoggedOut)).(loggedOut := true)
    case Reconnect(t) => DoReconnect(s, t, s.procs[t].run)
    case Relaunch(t, u) => DoRelaunch(s, t, u, s.procs[t].run, s.procs[t].next)
    case TellLast(t) => DoTellLast(s, t, s.procs[t].run, s.procs[t].last)
    case CloseDone(t) => DoCloseDone(s, t, s.procs[t].run)
    case Take(t, logout) => DoTake(s, t, logout)
    case CallCancel(t) =>
      Put(s, t, Joining(s.procs[t].job)).(cancelled := s.cancelled + {s.procs[t].job.ctx})
    case Join(t) => Put(s, t, AfterDisconnect(s.procs[t].job.logout))
    case LogoutMark(t) => Put(s, t, LogoutTelling).(loggedOut := true)
    case LogoutReturns(t, ok) => Put(s, t, DisconnectReturned)
  }

  // Whole runs

  predicate Runnable(s: State, acts: seq<Action>)
    decreases |acts|
  {
    acts == [] || (Enabled(s, acts[0]) && Runnable(Next(s, acts[0]), acts[1..]))
  }

  function After(s: State, acts: seq<Action>): State
    requires Runnable(s, acts)
    decreases |acts|
  {
    if acts == [] then s else After(Next(s, acts[0]), acts[1..])
  }
}
