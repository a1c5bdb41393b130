/** What Token returns, in every run. */
module RotationTokens {
  import opened Common
  import opened Vkid
  import opened Rotation
  import opened RotationInvariant
  import opened RotationTheorems

  // Runs and their prefixes

  lemma {:induction false} Split(cfg: Config, s: State, acts: seq<Action>, i: nat)
    requires Runnable(cfg, s, acts) && i < |acts|
    ensures Runnable(cfg, s, acts[..i]) && Enabled(After(cfg, s, acts[..i]), acts[i])
    ensures Runnable(cfg, s, acts[..i + 1]) && After(cfg, s, acts[..i + 1]) == Next(cfg, After(cfg, s, acts[..i]), acts[i])
    decreases |acts|
  {
    hide Enabled, Next;
    if i == 0 {
      assert acts[..1][1..] == [] && acts[..0] == [];
    } else {
      Split(cfg, Next(cfg, s, acts[0]), acts[1..], i - 1);
      assert acts[..i][1..] == acts[1..][..i - 1] && acts[..i + 1][1..] == acts[1..][..i];
    }
  }

  /** The state before action i. */
  ghost function Before(cfg: Config, init: Session, acts: seq<Action>, i: nat): State
    requires Runnable(cfg, Init(init), acts) && i <= |acts|
  {
    if i == |acts| then After(cfg, Init(init), acts) else Split(cfg, Init(init), acts, i); After(cfg, Init(init), acts[..i])
  }

  lemma BeforeNext(cfg: Config, init: Session, acts: seq<Action>, i: nat)
    requires Runnable(cfg, Init(init), acts) && i < |acts|
    ensures Enabled(Before(cfg, init, acts, i), acts[i])
    ensures Before(cfg, init, acts, i + 1) == Next(cfg, Before(cfg, init, acts, i), acts[i])
  {
    hide Enabled, Next, Runnable, After;
    Split(cfg, Init(init), acts, i);
    assert i + 1 == |acts| ==> acts[..i + 1] == acts;
    if i + 1 < |acts| { Split(cfg, Init(init), acts, i + 1); }
  }

  lemma BeforeStart(cfg: Config, init: Session, acts: seq<Action>)
    requires Runnable(cfg, Init(init), acts)
    ensures Before(cfg, init, acts, 0).procs == map[]
  {
    assert acts[..0] == [];
  }

  // When Token refreshes, and what it falls back on

  /** Token refreshes a session that has a refresh token, a device and a client, and
      expires within a minute or has expired; an unknown lifetime never needs it. */
  predicate Expiring(s: Session, now: int) {
    s.refresh != "" && s.device != "" && s.client != "" && s.expiresAt != 0 && now + 60 > s.expiresAt
  }

  function CallerOf(pc: Pc): Option<Caller> {
    match pc
    case TokenReturned(_) => None
    case _ => Some(pc.caller)
  }

  /** Token goroutine t read the session in this step, and what it found. */
  predicate Reads(s: State, a: Action, t: int, token: string, expiring: bool) {
    a.ReadToken? && a.t == t && token == s.sess.access && expiring == Expiring(s.sess, a.now)
  }

  lemma CallerStep(cfg: Config, s: State, a: Action, t: int)
    requires Enabled(s, a) && t in Next(cfg, s, a).procs
    ensures var c := CallerOf(Next(cfg, s, a).procs[t]);
      c.Some? && c.value.fallback.Some? ==>
        (t in s.procs && CallerOf(s.procs[t]) == c) || Reads(s, a, t, c.value.fallback.value, true)
  {
  }

  ghost predicate ReadBefore(cfg: Config, init: Session, acts: seq<Action>, n: nat, t: int, token: string, expiring: bool)
    requires Runnable(cfg, Init(init), acts)
  {
    exists j :: 0 <= j < n <= |acts| && Reads(Before(cfg, init, acts, j), acts[j], t, token, expiring)
  }

  lemma {:induction false} FallbackWasRead(cfg: Config, init: Session, acts: seq<Action>, n: nat, t: int)
    requires Runnable(cfg, Init(init), acts) && n <= |acts| && t in Before(cfg, init, acts, n).procs
    ensures var c := CallerOf(Before(cfg, init, acts, n).procs[t]);
      c.Some? && c.value.fallback.Some? ==> ReadBefore(cfg, init, acts, n, t, c.value.fallback.value, true)
  {
    hide Runnable, Before, Enabled, Next, Reads, CallerOf;
    if n == 0 {
      BeforeStart(cfg, init, acts);
    } else {
      var m := n - 1;
      BeforeNext(cfg, init, acts, m);
      var s := Before(cfg, init, acts, m);
      CallerStep(cfg, s, acts[m], t);
      if t in s.procs && CallerOf(s.procs[t]) == CallerOf(Before(cfg, init, acts, n).procs[t]) {
        FallbackWasRead(cfg, init, acts, m, t);
      }
    }
  }

  // What Token returns

  /** The step in which t was told the outcome ok of a refresh, and the token then held. */
  predicate Returns(s: State, a: Action, t: int, ok: bool, token: string) {
    a == ReturnToken(t) && t in s.procs && s.procs[t].Reported? && s.procs[t].ok == ok && token == s.sess.access
  }

  /** t returned token as it read the session, or after a refresh that was asked for. */
  ghost predicate TokenFrom(cfg: Config, init: Session, acts: seq<Action>, n: nat, t: int, token: string)
    requires Runnable(cfg, Init(init), acts)
  {
    || ReadBefore(cfg, init, acts, n, t, token, false)
    || (exists i :: 0 <= i < n <= |acts| && Returns(Before(cfg, init, acts, i), acts[i], t, true, token))
    || (ReadBefore(cfg, init, acts, n, t, token, true)
        && exists i, held :: 0 <= i < n <= |acts| && Returns(Before(cfg, init, acts, i), acts[i], t, false, held))
  }

  lemma ReturnStep(cfg: Config, s: State, a: Action, t: int)
    requires Enabled(s, a) && t in Next(cfg, s, a).procs && Next(cfg, s, a).procs[t].TokenReturned?
    ensures var token := Next(cfg, s, a).procs[t].token;
      || (t in s.procs && s.procs[t] == TokenReturned(token))
      || Reads(s, a, t, token, false)
      || Returns(s, a, t, true, token)
      || (t in s.procs && Returns(s, a, t, false, s.sess.access) && CallerOf(s.procs[t]).Some?
          && CallerOf(s.procs[t]).value.fallback == Some(token))
  {
  }

  /** Token returns the access token it read if that was not about to expire; otherwise the
      one the client holds after a refresh that succeeded, and the one it read if the
      refresh failed. */
  lemma {:induction false} TokenReturns(cfg: Config, init: Session, acts: seq<Action>, n: nat, t: int)
    requires Runnable(cfg, Init(init), acts) && n <= |acts| && t in Before(cfg, init, acts, n).procs
    requires Before(cfg, init, acts, n).procs[t].TokenReturned?
    ensures TokenFrom(cfg, init, acts, n, t, Before(cfg, init, acts, n).procs[t].token)
  {
    hide Runnable, Before, Enabled, Next, Reads, Returns, CallerOf;
    if n == 0 {
      BeforeStart(cfg, init, acts);
    } else {
      var m := n - 1;
      BeforeNext(cfg, init, acts, m);
      var s, token := Before(cfg, init, acts, m), Before(cfg, init, acts, n).procs[t].token;
      ReturnStep(cfg, s, acts[m], t);
      if t in s.procs && s.procs[t] == TokenReturned(token) {
        TokenReturns(cfg, init, acts, m, t);
      } else if !Reads(s, acts[m], t, token, false) && !Returns(s, acts[m], t, true, token) {
        FallbackWasRead(cfg, init, acts, m, t);
        assert Returns(Before(cfg, init, acts, m), acts[m], t, false, s.sess.access);
      }
    }
  }

  /** A call of Token goes on to refresh exactly if the session it reads is expiring. */
  lemma TokenRefreshesIff(cfg: Config, s: State, a: Action)
    requires Enabled(s, a) && a.ReadToken?
    ensures a.t in Next(cfg, s, a).procs
    ensures Next(cfg, s, a).procs[a.t].Calling? <==> Expiring(s.sess, a.now)
    ensures Next(cfg, s, a).procs[a.t].TokenReturned? <==> !Expiring(s.sess, a.now)
  {
  }

  // What is sent, and which replies are accepted

  /** A flight goes on to send a request exactly if the session it clones has a refresh
      token, a device and a client; otherwise it fails. */
  lemma SendsIffComplete(cfg: Config, s: State, a: Action)
    requires Enabled(s, a) && a.Clone?
    ensures LeadingAt(Next(cfg, s, a), a.t)
    ensures var stage, u := Next(cfg, s, a).procs[a.t].stage, s.sess;
      if u.refresh != "" && u.device != "" && u.client != "" then stage == Sending(u) else stage == Finishing(false)
  {
  }

  /** No request without a refresh token, a device and a client is sent. */
  lemma SendsAreComplete(cfg: Config, init: Session, s: State, t: int)
    requires Valid(init) && Reachable(cfg, init, s) && LeadingAt(s, t)
    ensures var stage := s.procs[t].stage;
      stage.Sending? || stage.Awaiting? ==> stage.clone.refresh != "" && stage.clone.device != "" && stage.clone.client != ""
  {
    hide Reachable;
    ReachableInv(cfg, init, s);
    LeaderIs(cfg, init, s, t);
  }

  /** A reply is accepted exactly if it came and has an access token. */
  lemma AcceptedIff(cfg: Config, init: Session, s: State, a: Action)
    requires Valid(init) && Reachable(cfg, init, s) && Enabled(s, a) && a.Receive?
    ensures var reqs := Next(cfg, s, a).requests;
      && |reqs| > 0
      && (a.reply.Ok? && a.reply.value.access != "" ==> reqs[|reqs| - 1].outcome == Succeeded(a.reply.value, a.now))
      && (!(a.reply.Ok? && a.reply.value.access != "") ==> reqs[|reqs| - 1].outcome == Failed)
  {
    hide Reachable, Requests;
    ReachableInv(cfg, init, s);
    LeaderIs(cfg, init, s, a.t);
  }
}
