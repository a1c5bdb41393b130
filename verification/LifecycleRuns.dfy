/** Lifecycle theorems about whole runs: why a lineage ends silently, how often one can
    refresh, and that a waiting Disconnect is let go. */
module LifecycleRuns {
  import opened Common
  import opened Lifecycle
  import opened LifecycleInvariant
  import opened LifecycleTheorems

  // Runs and their prefixes

  lemma {:induction false} Split(s: State, acts: seq<Action>, i: nat)
    requires Runnable(s, acts) && i < |acts|
    ensures Runnable(s, acts[..i]) && Enabled(After(s, acts[..i]), acts[i])
    ensures Runnable(s, acts[..i + 1]) && After(s, acts[..i + 1]) == Next(After(s, acts[..i]), acts[i])
    decreases |acts|
  {
    hide Enabled, Next;
    if i == 0 {
      assert acts[..1][1..] == [] && acts[..0] == [];
    } else {
      Split(Next(s, acts[0]), acts[1..], i - 1);
      assert acts[..i][1..] == acts[1..][..i - 1] && acts[..i + 1][1..] == acts[1..][..i];
    }
  }

  /** The state before action i. */
  ghost function Before(acts: seq<Action>, i: nat): State
    requires Runnable(Init, acts) && i <= |acts|
  {
    if i == |acts| then After(Init, acts) else Split(Init, acts, i); After(Init, acts[..i])
  }

  lemma BeforeNext(acts: seq<Action>, i: nat)
    requires Runnable(Init, acts) && i < |acts|
    ensures Enabled(Before(acts, i), acts[i]) && Before(acts, i + 1) == Next(Before(acts, i), acts[i])
  {
    hide Enabled, Next, Runnable, After;
    Split(Init, acts, i);
    assert i + 1 == |acts| ==> acts[..i + 1] == acts;
    if i + 1 < |acts| { Split(Init, acts, i + 1); }
  }

  // Silent ends

  predicate LosesSlot(s: State, a: Action, l: nat) {
    && Enabled(s, a) && a.Reconnect?
    && s.procs[a.t].run.line == l && s.slot.done != Some(s.procs[a.t].run.done)
  }

  lemma SilentStep(s: State, a: Action, l: nat)
    requires Enabled(s, a)
    ensures l in Next(s, a).silent <==> l in s.silent || LosesSlot(s, a, l)
  {
  }

  lemma {:induction false} SilentUpTo(acts: seq<Action>, n: nat, l: nat)
    requires Runnable(Init, acts) && n <= |acts|
    ensures l in Before(acts, n).silent <==> exists i :: 0 <= i < n && LosesSlot(Before(acts, i), acts[i], l)
  {
    hide Next, LosesSlot, Enabled;
    if n == 0 {
      assert acts[..0] == [];
      assert Before(acts, 0) == Init;
    } else {
      hide Before, Runnable;
      SilentUpTo(acts, n - 1, l);
      BeforeNext(acts, n - 1);
      SilentStep(Before(acts, n - 1), acts[n - 1], l);
    }
  }

  predicate PassesCheck(s: State, a: Action, r: RunRef) {
    Enabled(s, a) && a.CheckContext? && s.procs[a.t] == Refreshed(r, true) && r.ctx !in s.cancelled
  }

  lemma QuietProcs(s: State, a: Action)
    requires Enabled(s, a) && IsQuiet(s, a)
    ensures a.t in Next(s, a).procs && Next(s, a).procs == s.procs[a.t := Next(s, a).procs[a.t]]
  {
    hide AfterPoll, AfterRefresh, AfterDisconnect;
  }

  /** Only the acting goroutine moves; a goroutine it starts polls. */
  lemma OnlyActorMoves(s: State, a: Action, t: int)
    requires Enabled(s, a) && a.t != t
    ensures t in s.procs ==> t in Next(s, a).procs && Next(s, a).procs[t] == s.procs[t]
    ensures t !in s.procs && t in Next(s, a).procs ==> Next(s, a).procs[t].Polling?
  {
    hide Next;
    if IsQuiet(s, a) {
      QuietProcs(s, a);
    } else {
      StepActorStays(s, a);
      StepProcs(s, a);
    }
  }

  /** A run gets to the re-lock only past the check of its context. */
  lemma ActorRelocks(s: State, a: Action, r: RunRef)
    requires Enabled(s, a) && a.t in Next(s, a).procs && Next(s, a).procs[a.t] == Relocking(r)
    ensures PassesCheck(s, a, r)
  {
  }

  lemma {:induction false} RelockingCause(acts: seq<Action>, n: nat, t: int, r: RunRef) returns (j: nat)
    requires Runnable(Init, acts) && n <= |acts|
    requires t in Before(acts, n).procs && Before(acts, n).procs[t] == Relocking(r)
    ensures j < n && acts[j].t == t && PassesCheck(Before(acts, j), acts[j], r)
  {
    hide *;
    j := 0;
    BeforeStart(acts);
    if n > 0 {
      var s, a := Before(acts, n - 1), acts[n - 1];
      BeforeNext(acts, n - 1);
      if a.t == t {
        ActorRelocks(s, a, r);
        j := n - 1;
      } else {
        OnlyActorMoves(s, a, t);
        j := RelockingCause(acts, n - 1, t, r);
      }
    }
  }

  lemma BeforeStart(acts: seq<Action>)
    requires Runnable(Init, acts)
    ensures Before(acts, 0).procs == map[]
  {
    assert acts[..0] == [];
  }

  /** In step j a run of lineage l passed the check after a successful refresh, and in
      step i it found at the re-lock that the slot no longer held its done. */
  ghost predicate EndsSilently(acts: seq<Action>, j: nat, i: nat, l: nat)
    requires Runnable(Init, acts)
  {
    && j < i < |acts| && acts[i].t == acts[j].t && LosesSlot(Before(acts, i), acts[i], l)
    && PassesCheck(Before(acts, j), acts[j], Before(acts, i).procs[acts[i].t].run)
  }

  /** A lineage that nobody carries on lacks a terminal event exactly if its last run's
      refresh succeeded, its context was not cancelled at the check after it, and the
      slot did not hold its done at the re-lock. */
  lemma LineageSilentIff(acts: seq<Action>, l: nat)
    requires Runnable(Init, acts) && l in After(Init, acts).lines && !CarriedOn(After(Init, acts), l)
    ensures var h := After(Init, acts).lines[l];
      |h| > 0 && (!Terminal(h[|h| - 1]) <==> exists j, i :: EndsSilently(acts, j, i, l))
  {
    LineageEnds(acts, l);
    SilentUpTo(acts, |acts|, l);
    assert Before(acts, |acts|) == After(Init, acts);
    hide Runnable, After, Enabled, Next, Before, CarriedOn, PassesCheck;
    if l in After(Init, acts).silent {
      var i :| 0 <= i < |acts| && LosesSlot(Before(acts, i), acts[i], l);
      var t := acts[i].t;
      AtReconnect(Before(acts, i), acts[i], l);
      var j := RelockingCause(acts, i, t, Before(acts, i).procs[t].run);
      assert EndsSilently(acts, j, i, l);
    }
  }

  lemma AtReconnect(s: State, a: Action, l: nat)
    requires LosesSlot(s, a, l)
    ensures a.t in s.procs && s.procs[a.t] == Relocking(s.procs[a.t].run)
  {
  }

  // Refreshes

  lemma RefreshingStep(s: State, a: Action, r: RunRef)
    requires Enabled(s, a)
    ensures a.t in Next(s, a).procs && Next(s, a).procs[a.t] == Refreshing(r)
       <==> a.t in s.procs && s.procs[a.t] == PollReturned(r, AuthFailed)
  {
  }

  lemma PollReturnedStep(s: State, a: Action, r: RunRef, c: Cause)
    requires Enabled(s, a)
    ensures a.t in Next(s, a).procs && Next(s, a).procs[a.t] == PollReturned(r, c)
       <==> a == PollReturns(a.t, c) && a.t in s.procs && s.procs[a.t] == Polling(r)
  {
  }

  /** In step j poller.Run returned cause c to the run r of goroutine t, which did nothing
      more before step n. */
  ghost predicate LastReturned(acts: seq<Action>, j: nat, n: nat, t: int, r: RunRef, c: Cause)
    requires Runnable(Init, acts)
  {
    && j < n <= |acts| && acts[j] == PollReturns(t, c)
    && t in Before(acts, j).procs && Before(acts, j).procs[t] == Polling(r)
    && forall k :: j < k < n ==> acts[k].t != t
  }

  lemma {:induction false} WhatPollReturned(acts: seq<Action>, n: nat, t: int, r: RunRef, c: Cause)
    requires Runnable(Init, acts) && n <= |acts|
    ensures t in Before(acts, n).procs && Before(acts, n).procs[t] == PollReturned(r, c)
       <==> exists j :: LastReturned(acts, j, n, t, r, c)
  {
    hide Runnable, Before, Enabled, Next;
    if n == 0 {
      BeforeStart(acts);
    } else {
      var s, a := Before(acts, n - 1), acts[n - 1];
      BeforeNext(acts, n - 1);
      if a.t == t {
        PollReturnedStep(s, a, r, c);
        if a == PollReturns(t, c) && t in s.procs && s.procs[t] == Polling(r) { assert LastReturned(acts, n - 1, n, t, r, c); }
      } else {
        OnlyActorMoves(s, a, t);
        var m := n - 1;
        WhatPollReturned(acts, m, t, r, c);
        assert forall j :: LastReturned(acts, j, m, t, r, c) <==> LastReturned(acts, j, n, t, r, c);
        hide LastReturned;
      }
    }
  }

  /** In every run, a step starts the refresh of run r exactly if the last thing its
      goroutine saw was poller.Run returning an authorization failure to r; what the
      lineage did before makes no difference. */
  lemma RefreshesIffAuthFailed(acts: seq<Action>, i: nat, r: RunRef)
    requires Runnable(Init, acts) && i < |acts|
    ensures var t := acts[i].t;
      t in Before(acts, i + 1).procs && Before(acts, i + 1).procs[t] == Refreshing(r)
      <==> exists j :: LastReturned(acts, j, i, t, r, AuthFailed)
  {
    hide Runnable, Before, Enabled, Next;
    BeforeNext(acts, i);
    RefreshingStep(Before(acts, i), acts[i], r);
    WhatPollReturned(acts, i, acts[i].t, r, AuthFailed);
  }

  /** Successful refreshes in a run. */
  function Refreshes(acts: seq<Action>): nat
    decreases |acts|
  {
    if acts == [] then 0
    else Refreshes(acts[..|acts| - 1]) + (if acts[|acts| - 1].RefreshReturns? && acts[|acts| - 1].ok then 1 else 0)
  }

  /** One Connect, whose lineage is polling in its n-th reconnect. */
  ghost predicate Reconnected(s: State, n: nat) {
    && s.slot == Slot(true, Some(n), Some(n)) && s.nextCtx == s.nextCh == n + 1 && s.cancelled == {} && s.commits == 1
    && (forall k :: k in s.procs <==> 0 <= k <= n + 1) && s.procs[n + 1] == Polling(RunRef(n, n, 0))
    && (forall d: nat :: d in s.fate <==> d < n) && (forall d :: d in s.fate ==> s.fate[d] == Succeeded(d + 1))
    && s.lines == map[0 := [Connected]]
  }

  lemma Do(acts: seq<Action>, a: Action) returns (more: seq<Action>, s: State)
    requires Runnable(Init, acts) && Enabled(After(Init, acts), a)
    ensures Runnable(Init, more) && s == After(Init, more) == Next(After(Init, acts), a)
    ensures Refreshes(more) == Refreshes(acts) + (if a.RefreshReturns? && a.ok then 1 else 0)
  {
    hide Enabled, Next, Runnable, After;
    Snoc(Init, acts, a);
    more, s := acts + [a], Next(After(Init, acts), a);
    assert more[..|more| - 1] == acts;
  }

  lemma FirstCommit() returns (acts: seq<Action>)
    ensures Runnable(Init, acts) && Refreshes(acts) == 0
    ensures var r := RunRef(0, 0, 0);
      After(Init, acts) == Init.(slot := Slot(true, Some(0), Some(0)), nextCtx := 1, nextCh := 1, commits := 1,
                                 procs := map[0 := Announcing(r)], lines := map[0 := []])
  {
    hide Runnable, After, Refreshes;
    var s;
    NoSteps(Init);
    NoRefreshes();
    acts, s := Do([], ConnectBegin(0));
    acts, s := Do(acts, VerifyReturns(0, true));
    acts, s := Do(acts, Commit(0));
    assert s.procs == map[0 := Announcing(RunRef(0, 0, 0))];
  }

  lemma FirstRun() returns (acts: seq<Action>)
    ensures Runnable(Init, acts) && Refreshes(acts) == 0 && Reconnected(After(Init, acts), 0)
  {
    hide Runnable, After, Refreshes;
    var s;
    acts := FirstCommit();
    acts, s := Do(acts, Announce(0));
    assert s.lines[0] == [Connected];
    assert s.lines == map[0 := [Connected]];
    acts, s := Do(acts, Launch(0, 1));
  }

  lemma NoRefreshes()
    ensures Refreshes([]) == 0
  {
  }

  /** Goroutine t polls, fails to authorize and refreshes. */
  lemma RefreshAgain(acts: seq<Action>, t: int, r: RunRef) returns (more: seq<Action>)
    requires Runnable(Init, acts) && t in After(Init, acts).procs && After(Init, acts).procs[t] == Polling(r)
    ensures Runnable(Init, more) && Refreshes(more) == Refreshes(acts) + 1
    ensures var s := After(Init, acts);
      After(Init, more) == s.(slot := EndSlot(s.slot), procs := s.procs[t := Refreshed(r, true)])
  {
    hide Runnable, After, Refreshes;
    var s := After(Init, acts);
    more, s := Do(acts, PollReturns(t, AuthFailed));
    more, s := Do(more, ClearConnected(t));
    more, s := Do(more, RefreshReturns(t, true));
    assert s.procs == After(Init, acts).procs[t := Refreshed(r, true)];
  }

  lemma OneMore(acts: seq<Action>, n: nat) returns (more: seq<Action>)
    requires Runnable(Init, acts) && Reconnected(After(Init, acts), n)
    ensures Runnable(Init, more) && Refreshes(more) == Refreshes(acts) + 1 && Reconnected(After(Init, more), n + 1)
  {
    hide Runnable, After, Refreshes;
    var s, t := After(Init, acts), n + 1;
    more := RefreshAgain(acts, t, RunRef(n, n, 0));
    more, s := Do(more, CheckContext(t));
    more, s := Do(more, Reconnect(t));
    more, s := Do(more, Relaunch(t, t + 1));
  }

  /** Nothing bounds the refreshes of one lineage: for every n some run has one Connect,
      n successful refreshes, and n channels that handed the slot to a successor. */
  lemma {:induction false} LineageRefreshesAgain(n: nat) returns (acts: seq<Action>)
    ensures Runnable(Init, acts) && Refreshes(acts) == n && After(Init, acts).commits == 1
    ensures forall d: nat :: d < n ==> d in After(Init, acts).fate && After(Init, acts).fate[d] == Succeeded(d + 1)
    ensures Reconnected(After(Init, acts), n)
  {
    hide Runnable, After, Refreshes;
    if n == 0 {
      acts := FirstRun();
    } else {
      acts := LineageRefreshesAgain(n - 1);
      acts := OneMore(acts, n - 1);
    }
  }

  // A waiting Disconnect is let go

  lemma ResponsibleFacts(s: State, d: nat)
    requires Inv(s) && d < s.nextCh
    ensures forall t, u :: Responsible(s, t, d) && Responsible(s, u, d) ==> t == u
    ensures d in s.closed <==> !exists t :: Responsible(s, t, d)
  {
    hide DutiesOf;
    var m := DutiesOf(s);
    assert Channels(s.nextCh, s.closed, m);
    forall t ensures d in At(m, t).owned <==> Responsible(s, t, d) { DutyFacts(s, t); }
  }

  /** How many steps of the responsible goroutine, poll events apart, it takes at most
      until channel d is closed. */
  ghost function Left(s: State, d: nat): nat {
    if t: int :| Responsible(s, t, d) then Rank(s.procs[t], d) else 0
  }

  /** A step that brings d nearer to being closed. */
  predicate Charged(s: State, a: Action, d: nat) { Responsible(s, a.t, d) && !a.PollEvent? }

  lemma LeftIs(s: State, t: int, d: nat)
    requires Inv(s) && d < s.nextCh && Responsible(s, t, d)
    ensures Left(s, d) == Rank(s.procs[t], d) >= 1
  {
    hide Inv;
    ResponsibleFacts(s, d);
  }

  lemma LeftIsNothing(s: State, d: nat)
    requires Inv(s) && d < s.nextCh && d in s.closed
    ensures Left(s, d) == 0 && forall t :: !Responsible(s, t, d)
  {
    hide Inv, Responsible;
    ResponsibleFacts(s, d);
  }

  /** Whoever acts, no step takes d further away, and one of the responsible goroutine
      brings it nearer. */
  lemma LeftStep(s: State, a: Action, d: nat)
    requires Inv(s) && Enabled(s, a) && d < s.nextCh
    ensures Left(Next(s, a), d) + (if Charged(s, a, d) then 1 else 0) <= Left(s, d)
    ensures Inv(Next(s, a)) && d < Next(s, a).nextCh && (d in s.closed ==> d in Next(s, a).closed)
  {
    var s' := Next(s, a);
    KeepInv(s, a);
    ChannelsStay(s, a, d);
    assert Ids(s);
    hide Inv, Enabled, Next, Left, Responsible, Rank;
    ResponsibleFacts(s, d);
    if d in s.closed {
      LeftIsNothing(s, d);
      LeftIsNothing(s', d);
    } else {
      var t :| Responsible(s, t, d);
      LeftIs(s, t, d);
      if a.t != t {
        OthersDoNotInterfere(s, a, t, d);
        LeftIs(s', t, d);
      } else if a.PollEvent? {
        PollEventStays(s, a, d);
        LeftIs(s', t, d);
      } else {
        RunWindsDown(s, a, d);
        if d in s'.closed {
          LeftIsNothing(s', d);
        } else {
          var u :| Responsible(s', u, d) && Rank(s'.procs[u], d) < Rank(s.procs[t], d);
          LeftIs(s', u, d);
        }
      }
    }
  }

  lemma ChannelsStay(s: State, a: Action, d: nat)
    requires Enabled(s, a) && d < s.nextCh
    ensures d < Next(s, a).nextCh && (d in s.closed ==> d in Next(s, a).closed)
  {
  }

  lemma PollEventStays(s: State, a: Action, d: nat)
    requires Enabled(s, a) && a.PollEvent? && Responsible(s, a.t, d)
    ensures Responsible(Next(s, a), a.t, d) && Next(s, a).procs == s.procs
  {
  }

  function Charges(s: State, acts: seq<Action>, d: nat): nat
    requires Runnable(s, acts)
    decreases |acts|
  {
    if acts == [] then 0 else (if Charged(s, acts[0], d) then 1 else 0) + Charges(Next(s, acts[0]), acts[1..], d)
  }

  lemma {:induction false} LeftRuns(s: State, more: seq<Action>, d: nat)
    requires Inv(s) && Runnable(s, more) && d < s.nextCh
    ensures Left(After(s, more), d) + Charges(s, more, d) <= Left(s, d)
    ensures Inv(After(s, more)) && d < After(s, more).nextCh
    decreases |more|
  {
    hide Inv, Enabled, Next, Left, Charged;
    if more != [] {
      LeftStep(s, more[0], d);
      LeftRuns(Next(s, more[0]), more[1..], d);
    }
  }

  /** In every continuation of every run, a channel that has been made is closed by the
      time the goroutines responsible for it have taken ten steps other than poll events,
      and until then one of them has such a step to take. */
  lemma ChannelsAreClosed(acts: seq<Action>, more: seq<Action>, d: nat)
    requires Runnable(Init, acts) && Runnable(After(Init, acts), more) && d < After(Init, acts).nextCh
    ensures var s := After(After(Init, acts), more);
      && Charges(After(Init, acts), more, d) <= 10
      && (Charges(After(Init, acts), more, d) == 10 ==> d in s.closed)
      && (d !in s.closed ==> exists a :: Enabled(s, a) && Charged(s, a, d))
  {
    hide Runnable, After, Inv, Enabled, Left, Charges;
    var s0 := After(Init, acts);
    var s := After(s0, more);
    Reached(acts);
    LeftRuns(s0, more, d);
    LeftAtMostTen(s0, d);
    ResponsibleFacts(s, d);
    if d !in s.closed {
      var t :| Responsible(s, t, d);
      LeftIs(s, t, d);
      ResponsibleCanStep(s, t, d);
      var a: Action :| a.t == t && !a.PollEvent? && Enabled(s, a);
      assert Charged(s, a, d);
    }
  }

  lemma LeftAtMostTen(s: State, d: nat)
    ensures Left(s, d) <= 10
  {
  }

  /** From every reachable state a waiting Disconnect can be let go by at most Left steps,
      all of the goroutines responsible for the channel it waits for. */
  lemma JoinIsReached(acts: seq<Action>, t: int) returns (more: seq<Action>)
    requires Runnable(Init, acts) && t in After(Init, acts).procs && After(Init, acts).procs[t].Joining?
    ensures var s := After(Init, acts);
      && s.procs[t].job.done.Some? && Runnable(s, more)
      && |more| == Charges(s, more, s.procs[t].job.done.value) <= Left(s, s.procs[t].job.done.value)
      && Enabled(After(s, more), Join(t))
  {
    hide Runnable, After, Inv, Enabled, Left;
    var s := After(Init, acts);
    Reached(acts);
    JoiningOk(s, t);
    more := WindDown(s, t, s.procs[t].job.done.value);
    LeftRuns(s, more, s.procs[t].job.done.value);
  }

  lemma JoiningOk(s: State, t: int)
    requires Inv(s) && t in s.procs && s.procs[t].Joining?
    ensures s.procs[t].job.done.Some? && s.procs[t].job.done.value < s.nextCh
  {
    assert PcOk(s, s.procs[t]);
  }

  lemma {:induction false} WindDown(s: State, t: int, d: nat) returns (more: seq<Action>)
    requires Inv(s) && d < s.nextCh && t in s.procs && s.procs[t].Joining? && s.procs[t].job.done == Some(d)
    ensures Runnable(s, more) && |more| == Charges(s, more, d) && Enabled(After(s, more), Join(t))
    decreases Left(s, d)
  {
    hide Inv, Left, Next;
    more := [];
    if d !in s.closed {
      ResponsibleFacts(s, d);
      var u :| Responsible(s, u, d);
      ResponsibleCanStep(s, u, d);
      var a: Action :| a.t == u && !a.PollEvent? && Enabled(s, a);
      LeftStep(s, a, d);
      OnlyActorMoves(s, a, t);
      more := WindDown(Next(s, a), t, d);
      assert ([a] + more)[1..] == more;
      more := [a] + more;
    }
  }
}
