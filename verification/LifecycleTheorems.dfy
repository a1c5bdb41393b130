/** What the lifecycle guarantees in every interleaving. */
module LifecycleTheorems {
  import opened Common
  import opened Lifecycle
  import opened LifecycleInvariant

  /** A run is starting or inside poller.Run at goroutine t. */
  predicate Running(s: State, t: int) {
    t in s.procs && (s.procs[t].Announcing? || s.procs[t].Launching? || s.procs[t].Polling?
                     || s.procs[t].PollReturned? || s.procs[t].Relaunching?)
  }

  function RunAt(s: State, t: int): RunRef
    requires Running(s, t)
  {
    if s.procs[t].Relaunching? then s.procs[t].next else s.procs[t].run
  }

  /** Goroutine t executes, or has committed to start, the run that owns channel d. */
  predicate Responsible(s: State, t: int, d: nat) {
    && t in s.procs
    && match s.procs[t]
       case Relaunching(r, n) => r.done == d || n.done == d
       case Announcing(r) => r.done == d
       case Launching(r) => r.done == d
       case Polling(r) => r.done == d
       case PollReturned(r, _) => r.done == d
       case Refreshing(r) => r.done == d
       case Refreshed(r, _) => r.done == d
       case Relocking(r) => r.done == d
       case MarkingOut(r) => r.done == d
       case Telling(r, _) => r.done == d
       case Closing(r) => r.done == d
       case _ => false
  }

  predicate WaitsFor(s: State, t: int, ctx: nat) {
    t in s.procs && (s.procs[t].Cancelling? || s.procs[t].Joining?) && s.procs[t].job.ctx == ctx
  }

  // Reachability

  lemma {:induction false} InvFrom(s: State, acts: seq<Action>)
    requires Inv(s) && Runnable(s, acts)
    ensures Inv(After(s, acts))
    decreases |acts|
  {
    hide Inv, Enabled, Next;
    if acts != [] {
      KeepInv(s, acts[0]);
      InvFrom(Next(s, acts[0]), acts[1..]);
    }
  }

  lemma Reached(acts: seq<Action>)
    requires Runnable(Init, acts)
    ensures Inv(After(Init, acts))
  {
    InitInv();
    InvFrom(Init, acts);
  }

  lemma DutyFacts(s: State, t: int)
    ensures At(DutiesOf(s), t).live.Some? <==> Running(s, t)
    ensures Running(s, t) ==> At(DutiesOf(s), t).live.value == RunAt(s, t)
    ensures forall d :: d in At(DutiesOf(s), t).owned <==> Responsible(s, t, d)
    ensures forall c :: WaitsFor(s, t, c) <==> At(DutiesOf(s), t).job.Some? && At(DutiesOf(s), t).job.value.ctx == c
  {
  }

  // Slot ownership

  /** At most one run is starting or inside poller.Run, connected says whether
      there is one, and the slot, if filled then, holds that run's pair. */
  lemma SlotOwnership(acts: seq<Action>)
    requires Runnable(Init, acts)
    ensures var s := After(Init, acts);
      && (forall t, u :: Running(s, t) && Running(s, u) ==> t == u)
      && (s.slot.connected <==> exists t :: Running(s, t))
      && (forall t :: Running(s, t) && s.slot.done.Some? ==>
            s.slot.done == Some(RunAt(s, t).done) && s.slot.cancel == Some(RunAt(s, t).ctx))
  {
    hide Runnable, After, DutiesOf;
    var s := After(Init, acts);
    var m := DutiesOf(s);
    Reached(acts);
    assert Slots(s.slot, m);
    forall t ensures At(m, t).live.Some? <==> Running(s, t) { DutyFacts(s, t); }
    forall t | Running(s, t) ensures At(m, t).live.value == RunAt(s, t) { DutyFacts(s, t); }
    if s.slot.connected {
      var t :| At(m, t).live.Some?;
      assert Running(s, t);
    }
    forall t | Running(s, t) ensures RunAt(s, t).ctx == RunAt(s, t).done { assert PcOk(s, s.procs[t]); }
  }

  // Disconnect

  lemma JobAt(s: State, t: int)
    requires t in s.procs && (s.procs[t].Cancelling? || s.procs[t].Joining?)
    ensures At(DutiesOf(s), t).job == Some(s.procs[t].job)
  {
  }

  lemma LiveOwns(s: State, u: int)
    requires Inv(s) && Running(s, u)
    ensures Responsible(s, u, RunAt(s, u).done) && RunAt(s, u).done !in s.closed
    ensures s.slot.connected
  {
    hide DutiesOf;
    DutyFacts(s, u);
    assert Channels(s.nextCh, s.closed, DutiesOf(s)) && Slots(s.slot, DutiesOf(s));
    assert RunAt(s, u).done in At(DutiesOf(s), u).owned;
  }

  lemma AtJoin(s: State, t: int, u: int)
    requires Inv(s) && Enabled(s, Join(t)) && s.procs[t].job.epoch == s.commits
    ensures s.slot.done.None? && s.slot.cancel.None? && !Running(s, u)
  {
    hide DutiesOf;
    JobAt(s, t);
    assert PcOk(s, s.procs[t]);
    assert Waiters(s.commits, s.slot.done, DutiesOf(s));
    if Running(s, u) {
      LiveOwns(s, u);
      DutyFacts(s, u);
    }
  }

  /** When a Disconnect that took a pair returns and no Connect has committed since
      it took it, no run is starting or polling and connected is false. */
  lemma DisconnectStops(acts: seq<Action>, t: int)
    requires Runnable(Init, acts)
    requires Enabled(After(Init, acts), Join(t)) && After(Init, acts).procs[t].job.epoch == After(Init, acts).commits
    ensures var s := Next(After(Init, acts), Join(t));
      !s.slot.connected && s.slot.done.None? && s.slot.cancel.None? && forall u :: !Running(s, u)
  {
    hide Runnable, After, DutiesOf, Inv;
    var s := After(Init, acts);
    Reached(acts);
    forall u ensures !Running(s, u) { AtJoin(s, t, u); }
    AtJoin(s, t, 0);
    SlotOwnership(acts);
    var s' := Next(s, Join(t));
    assert s' == Put(s, t, AfterDisconnect(s.procs[t].job.logout));
    forall u ensures !Running(s', u) { assert !Running(s, u); }
  }

  lemma StepFates(s: State, a: Action)
    requires Inv(s) && Enabled(s, a)
    ensures Grows(s, Next(s, a))
  {
    FateIsFinal(s);
    StepGrows(s, a);
  }

  lemma {:induction false} FatesLast(s: State, acts: seq<Action>, d: nat)
    requires Inv(s) && Runnable(s, acts) && d in s.fate
    ensures d in After(s, acts).fate && After(s, acts).fate[d] == s.fate[d]
    decreases |acts|
  {
    hide Inv, Enabled, Next;
    if acts != [] {
      KeepInv(s, acts[0]);
      StepFates(s, acts[0]);
      FatesLast(Next(s, acts[0]), acts[1..], d);
    }
  }

  /** The run whose pair was taken by a Disconnect never starts a successor,
      in no continuation: its channel keeps its fate, and no goroutine is, or ever
      comes to be, relaunching on its behalf. */
  lemma TakenStaysDown(acts: seq<Action>, more: seq<Action>, d: nat)
    requires Runnable(Init, acts) && Runnable(After(Init, acts), more)
    requires d in After(Init, acts).fate && After(Init, acts).fate[d] == Taken
    ensures var s := After(After(Init, acts), more);
      && d in s.fate && s.fate[d] == Taken && s.slot.done != Some(d)
      && forall t :: t in s.procs && s.procs[t].Relaunching? ==> s.procs[t].run.done != d
  {
    hide Runnable, After, Sound, DutiesOf;
    var s0 := After(Init, acts);
    var s := After(s0, more);
    Reached(acts);
    FatesLast(s0, more, d);
    InvFrom(s0, more);
    FateIsFinal(s);
    forall t | t in s.procs && s.procs[t].Relaunching? ensures s.procs[t].run.done != d {
      assert PcOk(s, s.procs[t]);
    }
  }

  // Channels

  /** cancel and done are nil together; every allocated channel is either closed or
      the business of exactly one goroutine; so no channel is closed twice. */
  lemma ChannelDiscipline(acts: seq<Action>)
    requires Runnable(Init, acts)
    ensures var s := After(Init, acts);
      && (s.slot.cancel.None? <==> s.slot.done.None?)
      && (forall d: nat :: d < s.nextCh ==> (d in s.closed <==> !exists t :: Responsible(s, t, d)))
      && (forall t, u, d :: Responsible(s, t, d) && Responsible(s, u, d) ==> t == u)
      && (forall t :: Enabled(s, CloseDone(t)) ==> s.procs[t].run.done !in s.closed)
  {
    hide Runnable, After, DutiesOf;
    var s := After(Init, acts);
    var m := DutiesOf(s);
    Reached(acts);
    assert Channels(s.nextCh, s.closed, m);
    forall t, d: nat ensures d in At(m, t).owned <==> Responsible(s, t, d) { DutyFacts(s, t); }
    forall d: nat | d < s.nextCh && d !in s.closed ensures exists t :: Responsible(s, t, d) {
      var t :| d in At(m, t).owned;
      assert Responsible(s, t, d);
    }
    forall t | Enabled(s, CloseDone(t)) ensures s.procs[t].run.done !in s.closed {
      assert Responsible(s, t, s.procs[t].run.done);
    }
  }

  /** A waiting Disconnect waits for a real channel, which is closed or belongs to a
      run that is started or committed to start; that run is the one it cancelled. */
  lemma NoOrphanWait(acts: seq<Action>, t: int)
    requires Runnable(Init, acts)
    requires t in After(Init, acts).procs && After(Init, acts).procs[t].Joining?
    ensures var s := After(Init, acts);
      var j := s.procs[t].job;
      && j.done.Some? && j.ctx in s.cancelled
      && (j.done.value in s.closed || exists u :: Responsible(s, u, j.done.value))
      && (forall u :: Running(s, u) && RunAt(s, u).done == j.done.value ==> RunAt(s, u).ctx == j.ctx)
      && (forall u :: u in s.procs && s.procs[u].Refreshed? && s.procs[u].run.done == j.done.value ==>
            s.procs[u].run.ctx == j.ctx)
  {
    hide Runnable, After, DutiesOf, Sound;
    var s := After(Init, acts);
    Reached(acts);
    ChannelDiscipline(acts);
    assert PcOk(s, s.procs[t]);
    forall u | u in s.procs
      ensures (Running(s, u) ==> RunAt(s, u).ctx == RunAt(s, u).done)
           && (s.procs[u].Refreshed? ==> s.procs[u].run.ctx == s.procs[u].run.done)
    {
      assert PcOk(s, s.procs[u]);
    }
  }

  // Progress: what a waiting Disconnect waits for

  /** How many own steps, poll events apart, goroutine pc is from closing d at most. */
  function Rank(pc: Pc, d: nat): nat {
    match pc
    case Announcing(_) => 10
    case Launching(_) => 9
    case Relaunching(_, n) => if n.done == d then 9 else 2
    case Polling(_) => 8
    case PollReturned(_, _) => 7
    case Refreshing(_) => 6
    case Refreshed(_, _) => 5
    case Relocking(_) => 4
    case MarkingOut(_) => 3
    case Telling(_, _) => 2
    case Closing(_) => 1
    case _ => 0
  }

  lemma HandingOverWindsDown(s: State, a: Action, d: nat)
    requires Ids(s) && Enabled(s, a) && Responsible(s, a.t, d) && (a.Launch? || a.Relaunch?)
    ensures exists u :: Responsible(Next(s, a), u, d) && Rank(Next(s, a).procs[u], d) < Rank(s.procs[a.t], d)
  {
    var u := if a.Launch? || s.procs[a.t].next.done == d then a.child else a.t;
    assert Responsible(Next(s, a), u, d) && Rank(Next(s, a).procs[u], d) < Rank(s.procs[a.t], d);
  }

  /** Whoever is responsible for d gets closer to closing it with every step of its
      own except a poll event... */
  lemma RunWindsDown(s: State, a: Action, d: nat)
    requires Ids(s) && Enabled(s, a) && Responsible(s, a.t, d) && !a.PollEvent?
    ensures var s' := Next(s, a);
      d in s'.closed || exists u :: Responsible(s', u, d) && Rank(s'.procs[u], d) < Rank(s.procs[a.t], d)
  {
    if a.Launch? || a.Relaunch? {
      HandingOverWindsDown(s, a, d);
    } else {
      assert a.CloseDone? || (Responsible(Next(s, a), a.t, d) && Rank(Next(s, a).procs[a.t], d) < Rank(s.procs[a.t], d));
    }
  }

  /** ... and the steps of other goroutines do not take it further away. */
  lemma {:induction false} OthersDoNotInterfere(s: State, a: Action, t: int, d: nat)
    requires Ids(s) && Enabled(s, a) && Responsible(s, t, d) && a.t != t
    ensures Responsible(Next(s, a), t, d) && Next(s, a).procs[t] == s.procs[t]
  {
    if IsQuiet(s, a) { QuietShared(s, a); } else { StepActorStays(s, a); StepProcs(s, a); }
  }

  lemma StepActorStays(s: State, a: Action)
    requires Enabled(s, a) && !IsQuiet(s, a)
    ensures a.t in Next(s, a).procs
  {
  }

  lemma {:induction false} Above(ids: set<int>) returns (bound: int)
    ensures forall k :: k in ids ==> k < bound
    decreases |ids|
  {
    bound := 0;
    if x: int :| x in ids {
      var b := Above(ids - {x});
      bound := if b > x then b else x + 1;
      assert forall k :: k in ids ==> k == x || k in ids - {x};
    }
  }

  /** It is never stuck: the goroutine responsible for a channel has a step to take. */
  lemma ResponsibleCanStep(s: State, t: int, d: nat)
    requires Responsible(s, t, d)
    ensures exists a: Action :: a.t == t && !a.PollEvent? && Enabled(s, a)
  {
    var u := Above(s.procs.Keys);
    assert u !in s.procs;
    var a := match s.procs[t]
      case Announcing(_) => Announce(t)
      case Launching(_) => Launch(t, u)
      case Polling(_) => PollReturns(t, Cancelled)
      case PollReturned(_, _) => ClearConnected(t)
      case Refreshing(_) => RefreshReturns(t, false)
      case Refreshed(_, _) => CheckContext(t)
      case Relocking(_) => Reconnect(t)
      case MarkingOut(_) => StoreLoggedOut(t)
      case Relaunching(_, _) => Relaunch(t, u)
      case Telling(_, _) => TellLast(t)
      case _ => CloseDone(t);
    assert a.t == t && !a.PollEvent? && Enabled(s, a);
  }

  // A Disconnect that finds no pair

  /** Disconnect returns at once when another one has taken the pair. connected may
      then still be true: exactly while the other one is waiting for the live run. */
  lemma EarlyDisconnect(acts: seq<Action>)
    requires Runnable(Init, acts) && After(Init, acts).slot.cancel.None?
    ensures var s := After(Init, acts);
      s.slot.connected <==> exists t, u :: Running(s, u) && WaitsFor(s, t, RunAt(s, u).ctx)
  {
    hide Runnable, After, DutiesOf;
    var s := After(Init, acts);
    var m := DutiesOf(s);
    Reached(acts);
    SlotOwnership(acts);
    if s.slot.connected {
      var u :| Running(s, u);
      DutyFacts(s, u);
      assert Awaited(s.slot.done, m);
      assert PcOk(s, s.procs[u]);
      var t :| At(m, t).job.Some? && At(m, t).job.value.ctx == At(m, u).live.value.done;
      DutyFacts(s, t);
      assert WaitsFor(s, t, RunAt(s, u).ctx);
    }
  }

  lemma {:induction false} Snoc(s: State, acts: seq<Action>, a: Action)
    requires Runnable(s, acts) && Enabled(After(s, acts), a)
    ensures Runnable(s, acts + [a]) && After(s, acts + [a]) == Next(After(s, acts), a)
    decreases |acts|
  {
    hide Enabled, Next;
    if acts == [] {
      assert (acts + [a])[1..] == [];
    } else {
      Snoc(Next(s, acts[0]), acts[1..], a);
      assert (acts + [a])[1..] == acts[1..] + [a];
    }
  }

  lemma OneConnect() returns (acts: seq<Action>)
    ensures Runnable(Init, acts) && After(Init, acts).procs.Keys == {0}
    ensures After(Init, acts).slot == Slot(true, Some(0), Some(0))
  {
    hide Runnable, After;
    NoSteps(Init);
    Snoc(Init, [], ConnectBegin(0));
    Snoc(Init, [] + [ConnectBegin(0)], VerifyReturns(0, true));
    Snoc(Init, [] + [ConnectBegin(0)] + [VerifyReturns(0, true)], Commit(0));
    acts := [] + [ConnectBegin(0)] + [VerifyReturns(0, true)] + [Commit(0)];
  }

  lemma NoSteps(s: State)
    ensures Runnable(s, []) && After(s, []) == s
  {
  }

  /** It does happen: a second Disconnect returns while the first one has yet to
      cancel the run, so connected is still true. */
  lemma EarlyDisconnectHappens()
    ensures exists acts ::
              && Runnable(Init, acts) && After(Init, acts).slot.connected
              && 3 in After(Init, acts).procs && After(Init, acts).procs[3] == DisconnectReturned
  {
    hide Runnable, After;
    var acts := OneConnect();
    Snoc(Init, acts, Take(2, false));
    Snoc(Init, acts + [Take(2, false)], Take(3, false));
    assert After(Init, acts + [Take(2, false)] + [Take(3, false)]).slot.connected;
  }

  // Lineages

  ghost predicate CarriedOn(s: State, l: nat) {
    exists t :: t in s.procs && DutyOf(s.procs[t]).carry.Some? && DutyOf(s.procs[t]).carry.value.line == l
  }

  /** For one Connect and all the reconnects it spawns: Connected comes first and
      once, a terminal event comes last and once, and everything else is an update. */
  lemma LineageEvents(acts: seq<Action>, l: nat)
    requires Runnable(Init, acts) && l in After(Init, acts).lines
    ensures var h := After(Init, acts).lines[l];
      forall i :: 0 <= i < |h| ==>
        (h[i] == Connected <==> i == 0) && (Terminal(h[i]) ==> i == |h| - 1)
    ensures LoggedOut in After(Init, acts).lines[l] ==> After(Init, acts).loggedOut
  {
    hide Runnable, After, DutiesOf;
    var s := After(Init, acts);
    Reached(acts);
    assert Lines(s.commits, s.lines, s.silent, DutiesOf(s));
    var h := s.lines[l];
    assert h == [] || Open(h) || Ended(h);
    HistoryShape(h);
  }

  lemma HistoryShape(h: seq<Event>)
    requires h == [] || Open(h) || Ended(h)
    ensures forall i :: 0 <= i < |h| ==> (h[i] == Connected <==> i == 0) && (Terminal(h[i]) ==> i == |h| - 1)
  {
    if Open(h) {
      forall i | 0 < i < |h| ensures h[i] == Update { assert h[1..][i - 1] == Update; }
    } else if h != [] {
      var g := h[..|h| - 1];
      forall i | 0 < i < |g| ensures h[i] == Update { assert g[1..][i - 1] == Update; }
    }
  }

  /** A lineage that nobody carries on has ended with one terminal event, or silently;
      then a Disconnect or a Connect had put its last run's done out of the slot. */
  lemma LineageEnds(acts: seq<Action>, l: nat)
    requires Runnable(Init, acts) && l in After(Init, acts).lines && !CarriedOn(After(Init, acts), l)
    ensures var s := After(Init, acts);
      var h := s.lines[l];
      && |h| > 0
      && (Terminal(h[|h| - 1]) <==> l !in s.silent)
      && (l in s.silent ==> s.silent[l] in s.fate && (s.fate[s.silent[l]] == Taken || s.fate[s.silent[l]] == Displaced))
  {
    hide Runnable, After, DutiesOf;
    var s := After(Init, acts);
    Reached(acts);
    assert Lines(s.commits, s.lines, s.silent, DutiesOf(s));
    if Carried(DutiesOf(s), l) {
      var t :| At(DutiesOf(s), t).carry.Some? && At(DutiesOf(s), t).carry.value.line == l;
      CarryDuty(s, t);
    }
    HistoryShape(s.lines[l]);
  }

  lemma CarryDuty(s: State, t: int)
    ensures At(DutiesOf(s), t).carry == if t in s.procs then DutyOf(s.procs[t]).carry else None
  {
  }
}
