/** What accepted histories look like, read off their entries alone: how long each sleep
    is, and what follows each entry. */
module CursorLog {
  import opened Common
  import opened Errors
  import opened Cursor
  import opened CursorTheorems
  import Decoder

  // Failures and sleeps, counted on the log

  /** The failure code of the latest response asked for a new server, and none has been
      fetched since in this Run. */
  function AskedFor(log: seq<Entry>): bool
    decreases |log|
  {
    if log == [] then false
    else
      match log[|log| - 1]
      case Started => false
      case Polled(_, Ok(r)) => r.failed != 0 && r.failed != 1 && r.failed != 4
      case Fetched(Ok(_)) => false
      case _ => AskedFor(log[..|log| - 1])
  }

  /** The counting starts again: a Run starts, a response is decoded, or the server that
      a failure code asked for is fetched. */
  predicate Restarts(log: seq<Entry>)
    requires log != []
  {
    match log[|log| - 1]
    case Started => true
    case Polled(_, Ok(_)) => true
    case Fetched(Ok(_)) => AskedFor(log[..|log| - 1])
    case _ => false
  }

  predicate Fails(e: Entry) { (e.Fetched? && e.server.Err?) || (e.Polled? && e.resp.Err?) }

  /** Failed server lookups and polls since the last restart. */
  function Failures(log: seq<Entry>): nat
    decreases |log|
  {
    if log == [] || Restarts(log) then 0
    else Failures(log[..|log| - 1]) + (if Fails(log[|log| - 1]) then 1 else 0)
  }

  /** Time slept since the last restart. */
  function SleptFor(log: seq<Entry>): int
    decreases |log|
  {
    if log == [] || Restarts(log) then 0
    else SleptFor(log[..|log| - 1]) + (if log[|log| - 1].Slept? then log[|log| - 1].delay else 0)
  }

  lemma {:induction false} CountsAgree(cap: int, log: seq<Entry>)
    requires Accepts(cap, log)
    ensures At(log).refetch ==> AskedFor(log)
    ensures AskedFor(log) && !At(log).refetch ==> StageOf(log).Ending? || StageOf(log) == Outside
    ensures At(log).streak == Failures(log) && At(log).waited == SleptFor(log)
    decreases |log|
  {
    if log != [] {
      CountsAgree(cap, log[..|log| - 1]);
      PendingHolds(cap, log[..|log| - 1]);
    }
  }

  // The sleeps

  /** One second, doubled with each failure up to 64 seconds. */
  function Seconds(n: nat): nat {
    if n == 1 then 1 else if n == 2 then 2 else if n == 3 then 4 else if n == 4 then 8
    else if n == 5 then 16 else if n == 6 then 32 else 64
  }

  lemma DelayValue(n: nat, cap: int)
    requires n >= 1
    ensures Delay(n, cap) == if SECOND * Seconds(n) > cap then cap else SECOND * Seconds(n)
  {
    assert Pow2(6) == 64 && Pow2(5) == 32 && Pow2(4) == 16 && Pow2(3) == 8 && Pow2(2) == 4 && Pow2(1) == 2;
  }

  /** Every sleep is as long as the failures before it ask for, for every cap. */
  lemma SleepsByFailures(cap: int, log: seq<Entry>, i: nat)
    requires Accepts(cap, log) && i < |log| && log[i].Slept?
    ensures var n := Failures(log[..i]);
      n >= 1 && log[i].delay == if SECOND * Seconds(n) > cap then cap else SECOND * Seconds(n)
  {
    Prefix(cap, log, i);
    CountsAgree(cap, log[..i]);
    DelayValue(Failures(log[..i]), cap);
    hide Delay, Failures, Accepts, At, StageOf, Seconds;
  }

  /** The sleeps of a streak add up: after the sleep for its n-th failure the time slept is
      the sum of the first n delays. */
  lemma StreakSleeps(cap: int, log: seq<Entry>, i: nat)
    requires Accepts(cap, log) && i < |log| && log[i].Slept?
    ensures SleptFor(log[..i + 1]) == TotalDelay(Failures(log[..i]), cap)
  {
    Prefix(cap, log, i);
    CountsAgree(cap, log[..i]);
    WaitedForStreak(cap, log[..i]);
    assert log[..i + 1][..i] == log[..i];
    hide Failures, Accepts, At, StageOf, Delay;
  }

  // What follows

  /** Some server has been fetched. */
  predicate HasServer(log: seq<Entry>) {
    exists j :: 0 <= j < |log| && log[j].Fetched? && log[j].server.Ok?
  }

  lemma {:induction false} ServerKnown(log: seq<Entry>)
    ensures At(log).fetched <==> HasServer(log)
    decreases |log|
  {
    if log != [] {
      var before, last := log[..|log| - 1], log[|log| - 1];
      ServerKnown(before);
      if HasServer(before) {
        var j :| 0 <= j < |before| && before[j].Fetched? && before[j].server.Ok?;
        assert log[j].Fetched? && log[j].server.Ok?;
      }
      if last.Fetched? && last.server.Ok? {
        assert log[|log| - 1].Fetched?;
      } else if HasServer(log) {
        var j :| 0 <= j < |log| && log[j].Fetched? && log[j].server.Ok?;
        assert before[j] == log[j];
      }
    }
  }

  /** The server lookup errors that end a Run: the two context errors and VK's codes for an
      app that is disabled, an unknown method, a failed authorization, a denied permission,
      a captcha, a denied access and a required validation. */
  predicate EndsLookup(e: Error) {
    e == Canceled || e == DeadlineExceeded || (e.Api? && e.code in {2, 3, 5, 7, 14, 15, 17})
  }

  lemma FatalIffEndsLookup(e: Error)
    ensures Fatal(e) <==> EndsLookup(e)
  {
  }

  predicate AfterFailedPoll(log: seq<Entry>, i: nat) {
    0 < i <= |log| && log[i - 1].Polled? && log[i - 1].resp.Err?
  }

  lemma CheckingIff(cap: int, log: seq<Entry>, i: nat)
    requires Accepts(cap, log) && i <= |log|
    ensures StageOf(log[..i]) == Checking <==> AfterFailedPoll(log, i)
  {
    if i > 0 {
      Prefix(cap, log, i - 1);
      hide Accepts, At, Allowed;
    }
  }

  /** The entry after each entry, but for what the environment answers. A failed poll leads
      to a look at the context and a sleep, a failed lookup to a sleep unless its error ends
      the Run; after a sleep the Run goes on where it was: fetching the server a failure code
      asked for, or polling anew. */
  lemma WhatFollows(cap: int, log: seq<Entry>, i: nat)
    requires Accepts(cap, log) && i + 1 < |log|
    ensures var next := log[i + 1];
      match log[i]
      case Started => next.Checked?
      case Checked(Some(e)) => next == Returned(e)
      case Checked(None) =>
        if AfterFailedPoll(log, i) then next.Slept? else if HasServer(log[..i]) then next.Polled? else next.Fetched?
      case Fetched(Err(e)) => if EndsLookup(e) then next == Returned(e) else next.Slept?
      case Fetched(Ok(_)) => if AskedFor(log[..i]) then next.Checked? else next.Polled?
      case Polled(_, Err(_)) => next.Checked?
      case Polled(_, Ok(r)) =>
        if r.failed == 0 then (if r.updates == [] then next.Checked? else next == Handled(Decoder.Decode(r.updates[0])))
        else if r.failed == 1 then next.Checked?
        else if r.failed == 4 then next == Returned(BadVersion)
        else next.Fetched?
      case Slept(_, Some(e)) => next == Returned(e)
      case Slept(_, None) => if AskedFor(log[..i]) then next.Fetched? else next.Checked?
      case Handled(_) => next.Handled? || next.Checked?
      case Returned(_) => next.Started?
  {
    Prefix(cap, log, i);
    Prefix(cap, log, i + 1);
    PendingHolds(cap, log[..i]);
    CountsAgree(cap, log[..i]);
    CheckingIff(cap, log, i);
    ServerKnown(log[..i]);
    if log[i].Fetched? && log[i].server.Err? { FatalIffEndsLookup(log[i].server.error); }
    hide Accepts, At, StageOf, AskedFor, Failures, SleptFor, HasServer, Fatal, EndsLookup, Decoder.Decode, Delay;
  }

  /** A history starts with a Run. */
  lemma StartsWithRun(cap: int, log: seq<Entry>)
    requires Accepts(cap, log) && log != []
    ensures log[0].Started?
  {
    Prefix(cap, log, 0);
    assert log[..0] == [];
  }
}
