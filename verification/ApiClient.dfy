/** An API call: token, reservation, send, and a bounded number of retries. */
module ApiClient {
  import opened Common
  import opened Errors
  import opened Limiter

  const CAP := 10 * SECOND

  const TWO_64 := 0x1_0000_0000_0000_0000

  /** A 64-bit signed value, as the shift below leaves it. */
  function Wrap(x: nat): int {
    var low := x % TWO_64;
    if low >= TWO_64 / 2 then low - TWO_64 else low
  }

  /** The delay after failed attempt a, counted from 0: a shifted second, capped. */
  function Backoff(a: nat): int {
    var d := Wrap(SECOND * Pow2(a));
    if d > CAP then CAP else d
  }

  /** What the environment does to one attempt: the token source's error, the clock,
      how the limiter's sleep ends if there is one, the server's answer, and how the
      sleep before the next attempt ends. */
  datatype Attempt<B> = Attempt(
    token: Option<Error>,
    now: nat,
    wait: Option<Error>,
    answer: Result<B, Error>,
    sleep: Option<Error>)

  /** How the attempt comes out, by whether the limiter delays it. */
  function Outcome<B>(a: Attempt<B>, delayed: bool): Result<B, Error> {
    if a.token.Some? then Err(a.token.value)
    else if delayed && a.wait.Some? then Err(a.wait.value)
    else a.answer
  }

  predicate WorthRetrying<B>(r: Result<B, Error>) { r.Err? && Retryable(r.error) }

  datatype Entry = Token | Reserved(at: int) | Sent | Slept(d: int)

  function Sends(log: seq<Entry>): nat {
    if log == [] then 0 else Sends(log[..|log| - 1]) + (if log[|log| - 1].Sent? then 1 else 0)
  }

  function TimeSlept(log: seq<Entry>): int {
    if log == [] then 0 else TimeSlept(log[..|log| - 1]) + (if log[|log| - 1].Slept? then log[|log| - 1].d else 0)
  }

  /** Every send comes right after a reservation of its own, and that after the token. */
  predicate SendsReserved(log: seq<Entry>) {
    forall i :: 0 <= i < |log| && log[i].Sent? ==> i >= 2 && log[i - 1].Reserved? && log[i - 2].Token?
  }

  function TotalBackoff(r: nat): int {
    if r == 0 then 0 else TotalBackoff(r - 1) + Backoff(r - 1)
  }

  lemma Extend(log: seq<Entry>, e: Entry)
    ensures Sends(log + [e]) == Sends(log) + (if e.Sent? then 1 else 0)
    ensures TimeSlept(log + [e]) == TimeSlept(log) + (if e.Slept? then e.d else 0)
  {
    assert (log + [e])[..|log|] == log;
  }

  /** r is how attempt i comes out. */
  ghost predicate Fits<B>(env: nat -> Attempt<B>, i: nat, r: Result<B, Error>) {
    r == Outcome(env(i), false) || r == Outcome(env(i), true)
  }

  /** After outcome r of attempt i there may be another attempt. */
  predicate GoesOn<B>(env: nat -> Attempt<B>, i: nat, r: Result<B, Error>) {
    WorthRetrying(r) && env(i).sleep.None?
  }

  /** The attempts of one call: all but the last failed retryably and were slept after;
      the last is the first that does not, or the one after maxRetries. */
  ghost predicate Attempts<B>(maxRetries: int, env: nat -> Attempt<B>, outcomes: seq<Result<B, Error>>) {
    var most := if maxRetries < 0 then 0 else maxRetries;
    && 1 <= |outcomes| <= most + 1
    && (forall i: nat :: i < |outcomes| ==> Fits(env, i, outcomes[i]))
    && (forall i: nat :: i < |outcomes| - 1 ==> GoesOn(env, i, outcomes[i]))
    && (|outcomes| < most + 1 ==> !GoesOn(env, |outcomes| - 1, outcomes[|outcomes| - 1]))
  }

  /** What the call returns after those attempts. */
  function Verdict<B>(maxRetries: int, env: nat -> Attempt<B>, outcomes: seq<Result<B, Error>>): Result<B, Error>
    requires |outcomes| > 0
  {
    var last := |outcomes| - 1;
    if SleepFails(maxRetries, env, outcomes) then Err(env(last).sleep.value) else outcomes[last]
  }

  /** A sleep that fails ends the call too. */
  predicate SleepFails<B>(maxRetries: int, env: nat -> Attempt<B>, outcomes: seq<Result<B, Error>>)
    requires |outcomes| > 0
  {
    var last := |outcomes| - 1;
    last < maxRetries && WorthRetrying(outcomes[last]) && env(last).sleep.Some?
  }

  /** All attempts so far were followed by another. */
  ghost predicate AllGoOn<B>(env: nat -> Attempt<B>, before: seq<Result<B, Error>>) {
    forall i: nat :: i < |before| ==> Fits(env, i, before[i]) && GoesOn(env, i, before[i])
  }

  lemma GoOnSnoc<B>(env: nat -> Attempt<B>, before: seq<Result<B, Error>>, r: Result<B, Error>)
    requires AllGoOn(env, before) && Fits(env, |before|, r) && GoesOn(env, |before|, r)
    ensures AllGoOn(env, before + [r])
  {
  }

  /** The attempts end because the last one needs, or gets, no retry... */
  lemma Stopped<B>(maxRetries: int, env: nat -> Attempt<B>, before: seq<Result<B, Error>>, r: Result<B, Error>)
    requires AllGoOn(env, before) && Fits(env, |before|, r) && (|before| == 0 || |before| <= maxRetries)
    requires |before| >= maxRetries || !WorthRetrying(r)
    ensures var outcomes := before + [r];
      && Attempts(maxRetries, env, outcomes) && !SleepFails(maxRetries, env, outcomes)
      && Verdict(maxRetries, env, outcomes) == r
  {
  }

  /** ... or because the sleep after it fails. */
  lemma Interrupted<B>(maxRetries: int, env: nat -> Attempt<B>, before: seq<Result<B, Error>>, r: Result<B, Error>)
    requires AllGoOn(env, before) && Fits(env, |before|, r) && |before| < maxRetries
    requires WorthRetrying(r) && env(|before|).sleep.Some?
    ensures var outcomes := before + [r];
      && Attempts(maxRetries, env, outcomes) && SleepFails(maxRetries, env, outcomes)
      && Verdict(maxRetries, env, outcomes) == Err(env(|before|).sleep.value)
  {
  }

  /** What an attempt with reservation at leaves in the log. */
  function AttemptLog<B>(a: Attempt<B>, at: int): seq<Entry> {
    if a.token.Some? then []
    else [Token, Reserved(at)] + (if at > a.now && a.wait.Some? then [] else [Sent])
  }

  function PauseLog(attempt: nat): seq<Entry> { if attempt == 0 then [] else [Slept(Backoff(attempt - 1))] }

  /** What a call leaves in the log: its attempts, with a sleep before each retry. */
  function CallLog<B>(env: nat -> Attempt<B>, ats: seq<int>): seq<Entry>
    decreases |ats|
  {
    if ats == [] then []
    else
      var i := |ats| - 1;
      CallLog(env, ats[..i]) + PauseLog(i) + AttemptLog(env(i), ats[i])
  }

  /** Each attempt came out as its reservation says. */
  ghost predicate Served<B>(env: nat -> Attempt<B>, ats: seq<int>, outcomes: seq<Result<B, Error>>) {
    |ats| == |outcomes| && forall i: nat :: i < |outcomes| ==> outcomes[i] == Outcome(env(i), ats[i] > env(i).now)
  }

  /** The log of a call that found it at was; slept says that a retry was slept for. */
  ghost predicate Logged<B>(env: nat -> Attempt<B>, was: seq<Entry>, log: seq<Entry>, ats: seq<int>, slept: bool) {
    log == was + CallLog(env, ats) + (if slept then PauseLog(|ats|) else [])
  }

  lemma CallLogSnoc<B>(env: nat -> Attempt<B>, was: seq<Entry>, ats: seq<int>, at: int)
    ensures was + CallLog(env, ats + [at]) == was + CallLog(env, ats) + PauseLog(|ats|) + AttemptLog(env(|ats|), at)
  {
    assert (ats + [at])[..|ats|] == ats;
    Regroup(was, CallLog(env, ats), PauseLog(|ats|), AttemptLog(env(|ats|), at));
  }

  lemma Regroup(a: seq<Entry>, b: seq<Entry>, c: seq<Entry>, d: seq<Entry>)
    ensures a + b + c + d == a + (b + c + d)
  {
  }

  class Client<B> {
    const maxRetries: int
    const limiter: Limiter
    ghost var log: seq<Entry>
    /** The outcomes of the latest call's attempts. */
    ghost var outcomes: seq<Result<B, Error>>
    /** Their reservations; for one that got no token, its time. */
    ghost var ats: seq<int>

    constructor (maxRetries: int, limiter: Limiter)
      ensures this.maxRetries == maxRetries && this.limiter == limiter && log == [] && outcomes == [] && ats == []
    {
      this.maxRetries, this.limiter := maxRetries, limiter;
      log, outcomes, ats := [], [], [];
    }

    ghost predicate Valid()
      reads this`log, limiter
    {
      limiter.Valid() && SendsReserved(log) && Sends(log) <= |limiter.slots|
    }

    /** One attempt: the token first, then the reservation, then the request. */
    method Do(a: Attempt<B>) returns (r: Result<B, Error>)
      requires Valid()
      modifies this, limiter
      ensures Valid() && |ats| == |old(ats)| + 1 && ats[..|old(ats)|] == old(ats)
      ensures outcomes == old(outcomes) + [r] && TimeSlept(log) == TimeSlept(old(log))
      ensures var at := ats[|old(ats)|];
        && r == Outcome(a, at > a.now) && log == old(log) + AttemptLog(a, at)
        && limiter.slots == old(limiter.slots) + (if a.token.Some? then [] else [at])
    {
      hide Sends, TimeSlept;
      r := Err(Other);
      if a.token.Some? {
        r := Err(a.token.value);
        ats := ats + [a.now];
      } else {
        Extend(log, Token);
        log := log + [Token];
        var at, d := limiter.Reserve(a.now);
        ats := ats + [at];
        Extend(log, Reserved(at));
        log := log + [Reserved(at)];
        if d > 0 && a.wait.Some? {
          r := Err(a.wait.value);
        } else {
          Extend(log, Sent);
          log := log + [Sent];
          r := a.answer;
        }
      }
      outcomes := outcomes + [r];
    }

    /** The sleep after failed attempt a. */
    method Pause(a: nat, ghost env: nat -> Attempt<B>, ghost was: seq<Entry>)
      requires Valid() && |ats| == a + 1 && Logged(env, was, log, ats, false)
      modifies this`log
      ensures Valid() && log == old(log) + [Slept(Backoff(a))] && Logged(env, was, log, ats, true)
      ensures TimeSlept(log) == TimeSlept(old(log)) + TotalBackoff(a + 1) - TotalBackoff(a)
    {
      hide Sends, TimeSlept, Backoff, CallLog;
      Extend(log, Slept(Backoff(a)));
      log := log + [Slept(Backoff(a))];
    }

    /** Performs the attempts; sleeping failures end the call. */
    method CallEnvelope(name: string, env: nat -> Attempt<B>) returns (r: Result<B, Error>)
      requires Valid()
      modifies this, limiter
      ensures Valid()
      ensures name == "" ==> r == Err(Other) && log == old(log)
      ensures name != "" ==> |outcomes| > 0 && Attempts(maxRetries, env, outcomes)
      ensures name != "" ==> r == Verdict(maxRetries, env, outcomes)
      ensures name != "" ==> Served(env, ats, outcomes)
      ensures name != "" ==> Logged(env, old(log), log, ats, SleepFails(maxRetries, env, outcomes))
      ensures name != "" ==>
        TimeSlept(log) == TimeSlept(old(log)) + TotalBackoff(|outcomes| - if SleepFails(maxRetries, env, outcomes) then 0 else 1)
    {
      if name == "" {
        return Err(Other);
      }
      r := Retry(env);
    }

    /** The next attempt of the call that found the log at was. */
    method Try(attempt: nat, env: nat -> Attempt<B>, ghost was: seq<Entry>) returns (r: Result<B, Error>)
      requires Valid() && Served(env, ats, outcomes) && attempt == |outcomes|
      requires Logged(env, was, log, ats, attempt > 0)
      modifies this, limiter
      ensures Valid() && Served(env, ats, outcomes) && Logged(env, was, log, ats, false)
      ensures outcomes == old(outcomes) + [r] && Fits(env, |old(outcomes)|, r) && TimeSlept(log) == TimeSlept(old(log))
    {
      hide Sends, TimeSlept, Outcome, CallLog, AttemptLog, Slots, NextFree;
      assert attempt == 0 ==> PauseLog(0) == [];
      hide PauseLog;
      r := Do(env(attempt));
      ghost var at := ats[|old(ats)|];
      assert ats == old(ats) + [at];
      CallLogSnoc(env, was, old(ats), at);
    }

    method Retry(env: nat -> Attempt<B>) returns (r: Result<B, Error>)
      requires Valid()
      modifies this, limiter
      ensures Valid()
      ensures |outcomes| > 0 && Attempts(maxRetries, env, outcomes)
      ensures r == Verdict(maxRetries, env, outcomes)
      ensures Served(env, ats, outcomes)
      ensures Logged(env, old(log), log, ats, SleepFails(maxRetries, env, outcomes))
      ensures TimeSlept(log) == TimeSlept(old(log)) + TotalBackoff(|outcomes| - if SleepFails(maxRetries, env, outcomes) then 0 else 1)
    {
      hide Sends, TimeSlept, TotalBackoff, Backoff, Retryable, Outcome, Valid, Slots, NextFree, Attempts, Verdict, SleepFails, Fits, AttemptLog;
      var attempt := 0;
      outcomes, ats := [], [];
      NoBackoffYet();
      assert Served(env, ats, outcomes) && Logged(env, log, log, ats, false);
      hide CallLog, PauseLog, Logged, Served;
      assert AllGoOn(env, outcomes);
      hide AllGoOn;
      while true
        invariant Valid() && attempt == |outcomes| && (attempt == 0 || attempt <= maxRetries)
        invariant AllGoOn(env, outcomes)
        invariant TimeSlept(log) == TimeSlept(old(log)) + TotalBackoff(attempt)
        invariant Served(env, ats, outcomes) && Logged(env, old(log), log, ats, attempt > 0)
        decreases maxRetries - attempt
      {
        ghost var before := outcomes;
        r := Try(attempt, env, old(log));
        if r.Ok? || maxRetries < 0 || attempt >= maxRetries || !Retryable(r.error) {
          Stopped(maxRetries, env, before, r);
          return;
        }
        Pause(attempt, env, old(log));
        if env(attempt).sleep.Some? {
          Interrupted(maxRetries, env, before, r);
          return Err(env(attempt).sleep.value);
        }
        GoOnSnoc(env, before, r);
        attempt := attempt + 1;
      }
    }
  }

  lemma NoBackoffYet()
    ensures TotalBackoff(0) == 0
  {
  }

  // The delays

  lemma Pow2Values()
    ensures Pow2(1) == 2 && Pow2(2) == 4 && Pow2(3) == 8 && Pow2(4) == 16
    ensures Pow2(10) == 0x400 && Pow2(33) == 0x2_0000_0000 && Pow2(34) == 0x4_0000_0000
  {
    assert Pow2(4) == 16;
    assert Pow2(8) == 256;
    assert Pow2(12) == 4096;
    assert Pow2(16) == 65536;
    assert Pow2(20) == 0x10_0000;
    assert Pow2(24) == 0x100_0000;
    assert Pow2(28) == 0x1000_0000;
    assert Pow2(32) == 0x1_0000_0000;
  }

  lemma {:induction false} Pow2Grows(a: nat, b: nat)
    requires a <= b
    ensures Pow2(a) <= Pow2(b)
  {
    if a < b { Pow2Grows(a, b - 1); }
  }

  /** The delay meant: a second doubled per attempt, at most ten. */
  function Intended(a: nat): int {
    if SECOND * Pow2(a) > CAP then CAP else SECOND * Pow2(a)
  }

  /** Up to attempt 33 the shift does not overflow. */
  lemma BackoffIsIntended(a: nat)
    requires a <= 33
    ensures Backoff(a) == Intended(a) && 0 < Backoff(a)
  {
    Pow2Values();
    Pow2Grows(a, 33);
    Pow2Grows(0, a);
  }

  /** At attempt 34 it does, and the delay is negative. */
  lemma BackoffOverflows()
    ensures Backoff(34) < 0
  {
    Pow2Values();
  }

  /** So all delays of a call are the intended ones exactly when MaxRetries <= 34. */
  lemma DelaysAreIntendedIff(maxRetries: nat)
    ensures (forall a: nat :: a < maxRetries ==> Backoff(a) == Intended(a)) <==> maxRetries <= 34
  {
    if maxRetries <= 34 {
      forall a: nat | a < maxRetries ensures Backoff(a) == Intended(a) { BackoffIsIntended(a); }
    } else {
      BackoffOverflows();
      assert Intended(34) > 0 by { Pow2Grows(0, 34); }
    }
  }

  /** r retries wait 1, 3, 7, 15 seconds in all, then 10 more each time. */
  lemma {:induction false} RetryWait(r: nat)
    requires r <= 34
    ensures TotalBackoff(r) == SECOND * (if r <= 4 then Pow2(r) - 1 else 15 + 10 * (r - 4))
  {
    Pow2Values();
    if r > 0 {
      RetryWait(r - 1);
      BackoffIsIntended(r - 1);
      if r > 4 { Pow2Grows(4, r - 1); }
    }
  }

  /** An error that ends the poller's Run is not one the client retries, a context
      error apart: the server lookup fails at once, with no further send or sleep. */
  lemma {:induction false} FatalCodesAreNotRetried<B>(maxRetries: int, env: nat -> Attempt<B>, outcomes: seq<Result<B, Error>>, i: nat)
    requires Attempts(maxRetries, env, outcomes) && i < |outcomes|
    requires outcomes[i].Err? && outcomes[i].error.Api? && Fatal(outcomes[i].error)
    ensures i == |outcomes| - 1 && Verdict(maxRetries, env, outcomes) == outcomes[i]
  {
    assert !WorthRetrying(outcomes[i]);
  }

  // Which failures are retried

  /** VK's codes for an unknown error, too many requests and an internal error, and a
      timeout, also that of a context. */
  predicate Transient(e: Error) {
    (e.Api? && e.code in {1, 6, 10}) || e == Timeout || e == DeadlineExceeded
  }

  predicate FailsTransiently<B>(r: Result<B, Error>) { r.Err? && Transient(r.error) }

  lemma WorthRetryingIff<B>(r: Result<B, Error>)
    ensures WorthRetrying(r) <==> FailsTransiently(r)
  {
  }

  /** An attempt is followed by another exactly if it failed transiently, retries are left
      and the sleep after it succeeds. */
  lemma RetriedIff<B>(maxRetries: int, env: nat -> Attempt<B>, outcomes: seq<Result<B, Error>>, i: nat)
    requires Attempts(maxRetries, env, outcomes) && i < |outcomes|
    ensures i + 1 < |outcomes| <==> FailsTransiently(outcomes[i]) && i < maxRetries && env(i).sleep.None?
  {
    WorthRetryingIff(outcomes[i]);
    hide WorthRetrying, FailsTransiently;
    if i + 1 < |outcomes| {
      assert GoesOn(env, i, outcomes[i]);
    }
  }

  /** How many outcomes at the front are transient failures. */
  function Leading<B>(outcomes: seq<Result<B, Error>>): nat {
    if outcomes == [] || !FailsTransiently(outcomes[0]) then 0 else 1 + Leading(outcomes[1..])
  }

  lemma {:induction false} LeadingIs<B>(outcomes: seq<Result<B, Error>>, n: nat)
    requires n <= |outcomes| && forall i :: 0 <= i < n ==> FailsTransiently(outcomes[i])
    requires n < |outcomes| ==> !FailsTransiently(outcomes[n])
    ensures Leading(outcomes) == n
    decreases n
  {
    if n > 0 {
      forall i | 0 <= i < n - 1 ensures FailsTransiently(outcomes[1..][i]) { assert outcomes[1..][i] == outcomes[i + 1]; }
      LeadingIs(outcomes[1..], n - 1);
    }
  }

  /** A call that no failing sleep ends makes one attempt more than it meets transient
      failures, but at most MaxRetries + 1; a negative MaxRetries counts as none. */
  lemma AttemptCount<B>(maxRetries: int, env: nat -> Attempt<B>, outcomes: seq<Result<B, Error>>)
    requires Attempts(maxRetries, env, outcomes) && !SleepFails(maxRetries, env, outcomes)
    ensures var most := if maxRetries < 0 then 1 else maxRetries + 1;
      |outcomes| == if 1 + Leading(outcomes) < most then 1 + Leading(outcomes) else most
  {
    var last := |outcomes| - 1;
    forall i: nat | i < last ensures FailsTransiently(outcomes[i]) { RetriedIff(maxRetries, env, outcomes, i); }
    RetriedIff(maxRetries, env, outcomes, last);
    WorthRetryingIff(outcomes[last]);
    hide Attempts, FailsTransiently;
    if FailsTransiently(outcomes[last]) { LeadingIs(outcomes, |outcomes|); } else { LeadingIs(outcomes, last); }
  }

  // The shift

  /** Wrap(x) is the 64-bit signed number that is x modulo 2^64. */
  lemma WrapIs(x: nat)
    ensures -0x8000_0000_0000_0000 <= Wrap(x) < 0x8000_0000_0000_0000
    ensures exists k: int :: x == Wrap(x) + k * TWO_64
  {
    var low, q := x % TWO_64, x / TWO_64;
    assert x == low + q * TWO_64;
    if low >= TWO_64 / 2 {
      assert x == Wrap(x) + (q + 1) * TWO_64;
    } else {
      assert x == Wrap(x) + q * TWO_64;
    }
  }
}
