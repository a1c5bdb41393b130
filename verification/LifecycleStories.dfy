/** Which event ends a run and what Connect and Logout come to, told by what their
    goroutines have seen on the way. */
module LifecycleStories {
  import opened Common
  import opened Lifecycle
  import opened LifecycleInvariant
  import opened LifecycleTheorems
  import opened LifecycleRuns

  // The story of a run

  /** What a goroutine that executes a run has seen and done so far: what poller.Run
      returned, whether the refresh succeeded, whether the context was found cancelled
      after it, whether it set loggedOut, and the events it dispatched at its end. */
  datatype Story = Story(
    polled: Option<Cause>, refreshed: Option<bool>, cancelled: Option<bool>, marked: bool, told: seq<Event>)

  const Blank := Story(None, None, None, false, [])

  /** Adds what goroutine t sees when a is taken in state s. */
  function Note(s: State, a: Action, t: int, st: Story): Story
    requires Enabled(s, a)
  {
    if a.t != t then st
    else match a
      case PollReturns(_, c) => st.(polled := Some(c))
      case RefreshReturns(_, ok) => st.(refreshed := Some(ok))
      case CheckContext(_) => st.(cancelled := Some(s.procs[t].run.ctx in s.cancelled))
      case StoreLoggedOut(_) => st.(marked := true)
      case TellLast(_) => st.(told := st.told + [s.procs[t].last])
      case _ => st
  }

  ghost function StoryOf(acts: seq<Action>, n: nat, t: int): Story
    requires Runnable(Init, acts) && n <= |acts|
  {
    if n == 0 then Blank
    else BeforeNext(acts, n - 1); Note(Before(acts, n - 1), acts[n - 1], t, StoryOf(acts, n - 1, t))
  }

  /** The event that a run with this story owes: a clean Disconnected if poller.Run was
      cancelled or the context was found cancelled, Disconnected with the error if it
      failed otherwise, and LoggedOut if the refresh failed on a live context. */
  function Due(st: Story): Option<Event> {
    if st.polled == Some(Cancelled) || st.cancelled == Some(true) then Some(Disconnected(true))
    else if st.polled == Some(OtherError) then Some(Disconnected(false))
    else if st.refreshed == Some(false) && st.cancelled == Some(false) then Some(LoggedOut)
    else None
  }

  function Owed(st: Story): seq<Event> { if Due(st).Some? then [Due(st).value] else [] }

  /** Only an authorization failure leads to a refresh. */
  predicate Plausible(st: Story) {
    st.polled.Some? && (st.polled == Some(AuthFailed) || (st.refreshed.None? && st.cancelled.None?))
    && (st.polled == Some(AuthFailed) ==> st.refreshed.Some? && st.cancelled.Some?)
  }

  const Authless := Blank.(polled := Some(AuthFailed))

  /** Where the goroutine is agrees with its story. */
  predicate Fits(pc: Pc, st: Story) {
    match pc
    case PollReturned(_, c) => st == Blank.(polled := Some(c))
    case Refreshing(_) => st == Authless
    case Refreshed(_, ok) => st == Authless.(refreshed := Some(ok))
    case Relocking(_) => st == Authless.(refreshed := Some(true), cancelled := Some(false))
    case Relaunching(_, _) => st == Authless.(refreshed := Some(true), cancelled := Some(false))
    case MarkingOut(_) => st == Authless.(refreshed := Some(false), cancelled := Some(false))
    case Telling(_, e) => Plausible(st) && Due(st) == Some(e) && st.told == [] && (st.marked <==> e == LoggedOut)
    case Closing(_) => Plausible(st) && st.told == Owed(st) && (st.marked <==> Due(st) == Some(LoggedOut))
    case RunReturned => Plausible(st) && st.told == Owed(st) && (st.marked <==> Due(st) == Some(LoggedOut))
    case _ => st == Blank
  }

  predicate FitsAt(s: State, t: int, st: Story) {
    if t in s.procs then Fits(s.procs[t], st) else st == Blank
  }

  predicate EndsPoll(a: Action) {
    a.PollReturns? || a.ClearConnected? || a.RefreshReturns? || a.CheckContext? || a.StoreLoggedOut?
  }

  predicate EndsRun(a: Action) { a.Reconnect? || a.Relaunch? || a.TellLast? || a.CloseDone? }

  lemma EndOfPollFits(s: State, a: Action, st: Story)
    requires Enabled(s, a) && FitsAt(s, a.t, st) && EndsPoll(a)
    ensures FitsAt(Next(s, a), a.t, Note(s, a, a.t, st))
  {
  }

  lemma ReconnectFits(s: State, a: Action, st: Story)
    requires Enabled(s, a) && FitsAt(s, a.t, st) && (a.Reconnect? || a.Relaunch?)
    ensures FitsAt(Next(s, a), a.t, Note(s, a, a.t, st))
  {
  }

  lemma EndOfRunFits(s: State, a: Action, st: Story)
    requires Enabled(s, a) && FitsAt(s, a.t, st) && EndsRun(a)
    ensures FitsAt(Next(s, a), a.t, Note(s, a, a.t, st))
  {
    if a.Reconnect? || a.Relaunch? {
      hide Enabled, Next, FitsAt, Note;
      ReconnectFits(s, a, st);
    }
  }

  lemma RestFits(s: State, a: Action, st: Story)
    requires Enabled(s, a) && FitsAt(s, a.t, st) && !EndsPoll(a) && !EndsRun(a)
    ensures FitsAt(Next(s, a), a.t, Note(s, a, a.t, st))
  {
    hide Due, Owed, Plausible;
  }

  lemma ActorFits(s: State, a: Action, st: Story)
    requires Enabled(s, a) && FitsAt(s, a.t, st)
    ensures FitsAt(Next(s, a), a.t, Note(s, a, a.t, st))
  {
    hide Enabled, Next, FitsAt, Note;
    if EndsPoll(a) { EndOfPollFits(s, a, st); } else if EndsRun(a) { EndOfRunFits(s, a, st); } else { RestFits(s, a, st); }
  }

  lemma {:induction false} StoryFits(acts: seq<Action>, n: nat, t: int)
    requires Runnable(Init, acts) && n <= |acts|
    ensures FitsAt(Before(acts, n), t, StoryOf(acts, n, t))
  {
    hide Runnable, Before, Enabled, Next, Fits;
    if n == 0 {
      BeforeStart(acts);
    } else {
      var m := n - 1;
      StoryFits(acts, m, t);
      BeforeNext(acts, m);
      if acts[m].t == t {
        ActorFits(Before(acts, m), acts[m], StoryOf(acts, m, t));
      } else {
        OnlyActorMoves(Before(acts, m), acts[m], t);
        PollingIsBlank();
      }
    }
  }

  lemma PollingIsBlank()
    ensures forall pc: Pc :: pc.Polling? ==> Fits(pc, Blank)
  {
  }

  // What the story says of the steps taken

  /** Some earlier step of t had poller.Run return c. */
  ghost predicate PollGave(acts: seq<Action>, n: nat, t: int, c: Cause) {
    exists j :: 0 <= j < n <= |acts| && acts[j] == PollReturns(t, c)
  }

  /** Some earlier step of t had the refresh return. */
  ghost predicate RefreshGave(acts: seq<Action>, n: nat, t: int, ok: bool) {
    exists j :: 0 <= j < n <= |acts| && acts[j] == RefreshReturns(t, ok)
  }

  predicate ChecksContext(s: State, a: Action, t: int, found: bool) {
    && a == CheckContext(t) && t in s.procs && s.procs[t].Refreshed?
    && found == (s.procs[t].run.ctx in s.cancelled)
  }

  /** Some earlier step of t checked its run's context after the refresh, and whether it
      was cancelled then. */
  ghost predicate CheckFound(acts: seq<Action>, n: nat, t: int, found: bool)
    requires Runnable(Init, acts)
  {
    exists j :: 0 <= j < n <= |acts| && ChecksContext(Before(acts, j), acts[j], t, found)
  }

  lemma NoteAt(s: State, a: Action, t: int, st: Story)
    requires Enabled(s, a) && FitsAt(s, t, st)
    ensures var after := Note(s, a, t, st);
      && (forall c :: after.polled == Some(c) <==> st.polled == Some(c) || a == PollReturns(t, c))
      && (forall ok :: after.refreshed == Some(ok) <==> st.refreshed == Some(ok) || a == RefreshReturns(t, ok))
      && (forall found :: after.cancelled == Some(found) <==> st.cancelled == Some(found) || ChecksContext(s, a, t, found))
  {
    hide Due, Owed, Plausible;
  }

  lemma {:induction false} StoryIsSeen(acts: seq<Action>, n: nat, t: int)
    requires Runnable(Init, acts) && n <= |acts|
    ensures var st := StoryOf(acts, n, t);
      && (forall c :: st.polled == Some(c) <==> PollGave(acts, n, t, c))
      && (forall ok :: st.refreshed == Some(ok) <==> RefreshGave(acts, n, t, ok))
      && (forall found :: st.cancelled == Some(found) <==> CheckFound(acts, n, t, found))
  {
    hide Runnable, Before, Enabled, Next, FitsAt, Note, ChecksContext;
    if n > 0 {
      var m := n - 1;
      StoryIsSeen(acts, m, t);
      StoryFits(acts, m, t);
      BeforeNext(acts, m);
      NoteAt(Before(acts, m), acts[m], t, StoryOf(acts, m, t));
      assert forall c :: PollGave(acts, n, t, c) <==> PollGave(acts, m, t, c) || acts[m] == PollReturns(t, c);
      assert forall ok :: RefreshGave(acts, n, t, ok) <==> RefreshGave(acts, m, t, ok) || acts[m] == RefreshReturns(t, ok);
      assert forall found :: CheckFound(acts, n, t, found) <==> CheckFound(acts, m, t, found) || ChecksContext(Before(acts, m), acts[m], t, found);
    }
  }

  // How a run ends

  /** Which event ends a run: a clean Disconnected exactly if poller.Run was cancelled or
      the context was found cancelled after the refresh, whatever the refresh came to;
      Disconnected with the error exactly if poller.Run failed otherwise; LoggedOut exactly
      if the refresh failed and the context was found live. */
  lemma TerminalEvent(acts: seq<Action>, i: nat)
    requires Runnable(Init, acts) && i < |acts| && acts[i].TellLast?
    ensures var t, s, s' := acts[i].t, Before(acts, i), Before(acts, i + 1);
      && t in s.procs && s.procs[t].Telling?
      && var l, e := s.procs[t].run.line, s.procs[t].last;
         && l in s'.lines && s'.lines[l] != [] && s'.lines[l][|s'.lines[l]| - 1] == e
         && (e == Disconnected(true) <==> PollGave(acts, i, t, Cancelled) || CheckFound(acts, i, t, true))
         && (e == Disconnected(false) <==> PollGave(acts, i, t, OtherError))
         && (e == LoggedOut <==> RefreshGave(acts, i, t, false) && CheckFound(acts, i, t, false))
  {
    hide Runnable, Before, PollGave, RefreshGave, CheckFound;
    BeforeNext(acts, i);
    StoryFits(acts, i, acts[i].t);
    StoryIsSeen(acts, i, acts[i].t);
    TellsIt(Before(acts, i), acts[i]);
    hide Enabled, Next;
  }

  lemma TellsIt(s: State, a: Action)
    requires Enabled(s, a) && a.TellLast?
    ensures a.t in s.procs && s.procs[a.t].Telling?
    ensures var l, s' := s.procs[a.t].run.line, Next(s, a);
      l in s'.lines && s'.lines[l] != [] && s'.lines[l][|s'.lines[l]| - 1] == s.procs[a.t].last
  {
  }

  /** What an ended run has dispatched: its one terminal event, or, exactly if it refreshed
      successfully and its context was live, nothing; and it has set loggedOut exactly if
      the refresh failed on a live context. */
  lemma EndedRunHasTold(acts: seq<Action>, n: nat, t: int)
    requires Runnable(Init, acts) && n <= |acts| && t in Before(acts, n).procs
    requires Before(acts, n).procs[t].Closing? || Before(acts, n).procs[t].RunReturned?
    ensures var st := StoryOf(acts, n, t);
      && (st.told == [Disconnected(true)] <==> PollGave(acts, n, t, Cancelled) || CheckFound(acts, n, t, true))
      && (st.told == [Disconnected(false)] <==> PollGave(acts, n, t, OtherError))
      && (st.told == [LoggedOut] <==> RefreshGave(acts, n, t, false) && CheckFound(acts, n, t, false))
      && (st.told == [] <==> RefreshGave(acts, n, t, true) && CheckFound(acts, n, t, false))
      && (st.marked <==> RefreshGave(acts, n, t, false) && CheckFound(acts, n, t, false))
  {
    hide Runnable, Before, PollGave, RefreshGave, CheckFound, Enabled, Next, StoryOf;
    StoryFits(acts, n, t);
    StoryIsSeen(acts, n, t);
    var st := StoryOf(acts, n, t);
    assert |st.told| == 0 <==> Due(st).None?;
    match st.polled.value {
      case Cancelled =>
      case OtherError =>
      case AuthFailed => assert st.cancelled.value || st.refreshed.value || Due(st) == Some(LoggedOut);
    }
  }

  // The loggedOut flag

  /** A run sets loggedOut only if its refresh failed and its context was found live. */
  lemma RunLogsOut(acts: seq<Action>, i: nat)
    requires Runnable(Init, acts) && i < |acts| && acts[i].StoreLoggedOut?
    ensures RefreshGave(acts, i, acts[i].t, false) && CheckFound(acts, i, acts[i].t, false)
  {
    hide Runnable, Before, PollGave, RefreshGave, CheckFound, Next, StoryOf;
    BeforeNext(acts, i);
    StoryFits(acts, i, acts[i].t);
    StoryIsSeen(acts, i, acts[i].t);
  }

  predicate SetsLoggedOut(a: Action) { a.StoreLoggedOut? || a.LogoutMark? }

  lemma FlagStep(s: State, a: Action)
    requires Enabled(s, a)
    ensures Next(s, a).loggedOut <==> s.loggedOut || SetsLoggedOut(a)
  {
  }

  /** loggedOut is set exactly if such a run or a Logout has set it; nothing clears it. */
  lemma {:induction false} LoggedOutIff(acts: seq<Action>, n: nat)
    requires Runnable(Init, acts) && n <= |acts|
    ensures Before(acts, n).loggedOut <==> exists i :: 0 <= i < n && SetsLoggedOut(acts[i])
  {
    hide Runnable, Enabled, Next, SetsLoggedOut;
    if n == 0 {
      assert acts[..0] == [];
    } else {
      hide Before;
      LoggedOutIff(acts, n - 1);
      BeforeNext(acts, n - 1);
      FlagStep(Before(acts, n - 1), acts[n - 1]);
    }
  }

  // What Connect comes to

  /** What a Connect saw: connected and loggedOut when it began, whether users.get
      succeeded, and connected at its second section. */
  datatype Visit = Visit(began: Option<(bool, bool)>, verified: Option<bool>, connected: Option<bool>)

  const NoVisit := Visit(None, None, None)

  function NoteVisit(s: State, a: Action, t: int, v: Visit): Visit {
    if a.t != t then v
    else match a
      case ConnectBegin(_) => v.(began := Some((s.slot.connected, s.loggedOut)))
      case VerifyReturns(_, ok) => v.(verified := Some(ok))
      case Commit(_) => v.(connected := Some(s.slot.connected))
      case _ => v
  }

  ghost function VisitOf(acts: seq<Action>, n: nat, t: int): Visit
    requires Runnable(Init, acts) && n <= |acts|
  {
    if n == 0 then NoVisit
    else NoteVisit(Before(acts, n - 1), acts[n - 1], t, VisitOf(acts, n - 1, t))
  }

  predicate VisitFits(s: State, t: int, v: Visit) {
    if t !in s.procs then v == NoVisit
    else match s.procs[t]
      case Verifying => v == Visit(Some((false, false)), None, None)
      case Verified => v == Visit(Some((false, false)), Some(true), None)
      case Announcing(_) => v == Visit(Some((false, false)), Some(true), Some(false))
      case Launching(_) => v == Visit(Some((false, false)), Some(true), Some(false))
      case ConnectReturned(AlreadyConnected) =>
        (v.began.Some? && v.began.value.0 && v.verified.None? && v.connected.None?) || v == Visit(Some((false, false)), Some(true), Some(true))
      case ConnectReturned(ErrLoggedOut) => v == Visit(Some((false, true)), None, None)
      case ConnectReturned(VerifyFailed) => v == Visit(Some((false, false)), Some(false), None)
      case ConnectReturned(Started) => v == Visit(Some((false, false)), Some(true), Some(false))
      case _ => v == NoVisit
  }

  predicate OfConnect(a: Action) { a.ConnectBegin? || a.VerifyReturns? || a.Commit? || a.Announce? || a.Launch? }

  lemma OwnVisitFits(s: State, a: Action, v: Visit)
    requires Enabled(s, a) && VisitFits(s, a.t, v) && OfConnect(a)
    ensures VisitFits(Next(s, a), a.t, NoteVisit(s, a, a.t, v))
  {
  }

  lemma OtherVisitFits(s: State, a: Action, v: Visit)
    requires Enabled(s, a) && VisitFits(s, a.t, v) && !OfConnect(a)
    ensures VisitFits(Next(s, a), a.t, NoteVisit(s, a, a.t, v))
  {
    hide DoCommit, DoAnnounce, DoLaunch, Evict;
    assert a.t in Next(s, a).procs;
    if EndsRun(a) { OtherEndVisit(s, a, v); }
  }

  lemma OtherEndVisit(s: State, a: Action, v: Visit)
    requires Enabled(s, a) && VisitFits(s, a.t, v) && EndsRun(a)
    ensures VisitFits(Next(s, a), a.t, NoteVisit(s, a, a.t, v))
  {
  }

  lemma ActorVisitFits(s: State, a: Action, v: Visit)
    requires Enabled(s, a) && VisitFits(s, a.t, v)
    ensures VisitFits(Next(s, a), a.t, NoteVisit(s, a, a.t, v))
  {
    hide Enabled, Next, VisitFits, NoteVisit;
    if OfConnect(a) { OwnVisitFits(s, a, v); } else { OtherVisitFits(s, a, v); }
  }

  lemma {:induction false} ConnectStory(acts: seq<Action>, n: nat, t: int)
    requires Runnable(Init, acts) && n <= |acts|
    ensures VisitFits(Before(acts, n), t, VisitOf(acts, n, t))
  {
    hide Runnable, Before, Enabled, Next;
    if n == 0 {
      BeforeStart(acts);
    } else {
      var m := n - 1;
      ConnectStory(acts, m, t);
      BeforeNext(acts, m);
      if acts[m].t == t {
        hide VisitFits;
        ActorVisitFits(Before(acts, m), acts[m], VisitOf(acts, m, t));
      } else {
        OnlyActorMoves(Before(acts, m), acts[m], t);
      }
    }
  }

  /** What a Connect returns: an error if it began connected or logged out, if users.get
      failed, or if another Connect was first at the second section; and it has committed
      a run exactly if none of these held. */
  lemma ConnectResultIff(acts: seq<Action>, n: nat, t: int)
    requires Runnable(Init, acts) && n <= |acts| && t in Before(acts, n).procs && Before(acts, n).procs[t].ConnectReturned?
    ensures var r, v := Before(acts, n).procs[t].result, VisitOf(acts, n, t);
      && v.began.Some?
      && (r == AlreadyConnected <==> v.began.value.0 || v.connected == Some(true))
      && (r == ErrLoggedOut <==> v.began == Some((false, true)))
      && (r == VerifyFailed <==> v.verified == Some(false))
      && (r == Started <==> v.began == Some((false, false)) && v.verified == Some(true) && v.connected == Some(false))
      && (v.connected.Some? ==> v.began == Some((false, false)) && v.verified == Some(true))
  {
    hide Runnable, Before, VisitOf;
    ConnectStory(acts, n, t);
  }

  /** No run is committed by a Connect that began while connected or logged out. */
  lemma CommitsWereAllowed(acts: seq<Action>, i: nat)
    requires Runnable(Init, acts) && i < |acts| && acts[i].Commit?
    ensures VisitOf(acts, i, acts[i].t) == Visit(Some((false, false)), Some(true), None)
  {
    hide Runnable, Before, VisitOf;
    BeforeNext(acts, i);
    ConnectStory(acts, i, acts[i].t);
  }

  // What Disconnect and Logout come to

  /** What a Disconnect did: whether it is part of a Logout and found a pair, and whether
      it has cancelled, joined and set loggedOut. */
  datatype Leave = Leave(took: Option<(bool, bool)>, cancelled: bool, joined: bool, marked: bool)

  const NoLeave := Leave(None, false, false, false)

  function NoteLeave(s: State, a: Action, t: int, v: Leave): Leave {
    if a.t != t then v
    else match a
      case Take(_, logout) => v.(took := Some((logout, s.slot.cancel.Some?)))
      case CallCancel(_) => v.(cancelled := true)
      case Join(_) => v.(joined := true)
      case LogoutMark(_) => v.(marked := true)
      case _ => v
  }

  ghost function LeaveOf(acts: seq<Action>, n: nat, t: int): Leave
    requires Runnable(Init, acts) && n <= |acts|
  {
    if n == 0 then NoLeave
    else NoteLeave(Before(acts, n - 1), acts[n - 1], t, LeaveOf(acts, n - 1, t))
  }

  predicate LeaveFits(s: State, t: int, v: Leave) {
    if t !in s.procs then v == NoLeave
    else match s.procs[t]
      case Cancelling(j) => v == Leave(Some((j.logout, true)), false, false, false)
      case Joining(j) => v == Leave(Some((j.logout, true)), true, false, false)
      case LogoutMarking => v.took.Some? && v.took.value.0 && v == LeaveDone(v.took.value, false)
      case LogoutTelling => v.took.Some? && v.took.value.0 && v == LeaveDone(v.took.value, true)
      case DisconnectReturned => v.took.Some? && v == LeaveDone(v.took.value, v.took.value.0)
      case _ => v == NoLeave
  }

  /** A pair that was found has been cancelled and waited for. */
  function LeaveDone(took: (bool, bool), marked: bool): Leave { Leave(Some(took), took.1, took.1, marked) }

  predicate OfDisconnect(a: Action) { a.Take? || a.CallCancel? || a.Join? || a.LogoutMark? || a.LogoutReturns? }

  lemma TakeLeaveFits(s: State, t: int, logout: bool)
    requires t !in s.procs
    ensures LeaveFits(DoTake(s, t, logout), t, NoLeave.(took := Some((logout, s.slot.cancel.Some?))))
  {
  }

  lemma OwnLeaveFits(s: State, a: Action, v: Leave)
    requires Enabled(s, a) && LeaveFits(s, a.t, v) && OfDisconnect(a)
    ensures LeaveFits(Next(s, a), a.t, NoteLeave(s, a, a.t, v))
  {
    if a.Take? {
      TakeLeaveFits(s, a.t, a.logout);
      hide LeaveFits, DoTake;
    }
  }

  lemma OtherLeaveFits(s: State, a: Action, v: Leave)
    requires Enabled(s, a) && LeaveFits(s, a.t, v) && !OfDisconnect(a)
    ensures LeaveFits(Next(s, a), a.t, NoteLeave(s, a, a.t, v))
  {
  }

  lemma ActorLeaveFits(s: State, a: Action, v: Leave)
    requires Enabled(s, a) && LeaveFits(s, a.t, v)
    ensures LeaveFits(Next(s, a), a.t, NoteLeave(s, a, a.t, v))
  {
    hide Enabled, Next, LeaveFits, NoteLeave;
    if OfDisconnect(a) { OwnLeaveFits(s, a, v); } else { OtherLeaveFits(s, a, v); }
  }

  lemma {:induction false} DisconnectStory(acts: seq<Action>, n: nat, t: int)
    requires Runnable(Init, acts) && n <= |acts|
    ensures LeaveFits(Before(acts, n), t, LeaveOf(acts, n, t))
  {
    hide Runnable, Before, Enabled, Next;
    if n == 0 {
      BeforeStart(acts);
    } else {
      var m := n - 1;
      DisconnectStory(acts, m, t);
      BeforeNext(acts, m);
      if acts[m].t == t {
        hide LeaveFits;
        ActorLeaveFits(Before(acts, m), acts[m], LeaveOf(acts, m, t));
      } else {
        OnlyActorMoves(Before(acts, m), acts[m], t);
      }
    }
  }

  /** A Disconnect that has returned cancelled and waited exactly if it found a pair, and
      set loggedOut exactly if it is part of a Logout. */
  lemma DisconnectHasDone(acts: seq<Action>, n: nat, t: int)
    requires Runnable(Init, acts) && n <= |acts| && t in Before(acts, n).procs && Before(acts, n).procs[t].DisconnectReturned?
    ensures var v := LeaveOf(acts, n, t);
      v.took.Some? && (v.cancelled <==> v.took.value.1) && (v.joined <==> v.took.value.1) && (v.marked <==> v.took.value.0)
  {
    hide Runnable, Before, LeaveOf;
    DisconnectStory(acts, n, t);
  }

  // Update events

  function Updates(h: seq<Event>): nat {
    if h == [] then 0 else Updates(h[..|h| - 1]) + (if h[|h| - 1] == Update then 1 else 0)
  }

  function LineOf(s: State, l: nat): seq<Event> { if l in s.lines then s.lines[l] else [] }

  predicate HandlesFor(s: State, a: Action, l: nat) {
    a.PollEvent? && a.t in s.procs && s.procs[a.t].Polling? && s.procs[a.t].run.line == l
  }

  /** Steps before n in which poller.Run handed an event to a run of lineage l. */
  ghost function Handled(acts: seq<Action>, n: nat, l: nat): nat
    requires Runnable(Init, acts) && n <= |acts|
  {
    if n == 0 then 0 else Handled(acts, n - 1, l) + (if HandlesFor(Before(acts, n - 1), acts[n - 1], l) then 1 else 0)
  }

  lemma UpdatesSnoc(h: seq<Event>, e: Event)
    ensures Updates(h + [e]) == Updates(h) + (if e == Update then 1 else 0)
  {
    assert (h + [e])[..|h|] == h;
  }

  /** The event that a step dispatches to a lineage. */
  function Dispatched(s: State, a: Action): Option<(nat, Event)>
    requires Enabled(s, a)
  {
    match a
    case Announce(t) => Some((s.procs[t].run.line, Connected))
    case PollEvent(t) => Some((s.procs[t].run.line, Update))
    case TellLast(t) => Some((s.procs[t].run.line, s.procs[t].last))
    case _ => None
  }

  lemma StepLines(s: State, a: Action)
    requires Enabled(s, a)
    ensures var d := Dispatched(s, a);
      Next(s, a).lines ==
        if d.Some? then s.lines[d.value.0 := LineOf(s, d.value.0) + [d.value.1]]
        else if a.Commit? && !s.slot.connected then s.lines[s.commits := []]
        else s.lines
  {
    hide AfterPoll, AfterRefresh, AfterDisconnect;
  }

  lemma LineFacts(s: State)
    requires Inv(s)
    ensures s.commits !in s.lines && forall t :: t in s.procs && s.procs[t].Telling? ==> s.procs[t].last != Update
  {
    hide DutiesOf;
    assert Lines(s.commits, s.lines, s.silent, DutiesOf(s));
    forall t | t in s.procs && s.procs[t].Telling? ensures s.procs[t].last != Update { assert PcOk(s, s.procs[t]); }
  }

  lemma LineStep(s: State, a: Action, l: nat)
    requires Enabled(s, a) && s.commits !in s.lines
    requires a.t in s.procs && s.procs[a.t].Telling? ==> s.procs[a.t].last != Update
    ensures var h, h' := LineOf(s, l), LineOf(Next(s, a), l);
      if HandlesFor(s, a, l) then h' == h + [Update]
      else h' == h || (exists e :: e != Update && h' == h + [e])
  {
    StepLines(s, a);
    hide Next;
    if Dispatched(s, a).Some? && Dispatched(s, a).value.0 == l {
      assert LineOf(Next(s, a), l) == LineOf(s, l) + [Dispatched(s, a).value.1];
    }
  }

  /** Every event that poller.Run hands over reaches the handlers, once, as an update of
      the run's lineage, and no other update does. */
  lemma {:induction false} UpdatesAreHandled(acts: seq<Action>, n: nat, l: nat)
    requires Runnable(Init, acts) && n <= |acts|
    ensures Inv(Before(acts, n)) && Updates(LineOf(Before(acts, n), l)) == Handled(acts, n, l)
  {
    hide Runnable, Before, Enabled, Next, Inv, HandlesFor;
    if n == 0 {
      AtStart(acts, l);
    } else {
      hide LineOf;
      var m := n - 1;
      UpdatesAreHandled(acts, m, l);
      BeforeNext(acts, m);
      var s, a := Before(acts, m), acts[m];
      KeepInv(s, a);
      LineFacts(s);
      LineStep(s, a, l);
      var h, h' := LineOf(s, l), LineOf(Next(s, a), l);
      if HandlesFor(s, a, l) {
        UpdatesSnoc(h, Update);
      } else if h' != h {
        var e :| e != Update && h' == h + [e];
        UpdatesSnoc(h, e);
      }
    }
  }

  lemma AtStart(acts: seq<Action>, l: nat)
    requires Runnable(Init, acts)
    ensures Inv(Before(acts, 0)) && LineOf(Before(acts, 0), l) == []
  {
    InitInv();
    assert acts[..0] == [];
  }
}
