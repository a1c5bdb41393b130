/** No follower is stranded: somebody is always on the way to releasing its flight. */
module RotationProgress {
  import opened Common
  import opened Vkid
  import opened Rotation
  import opened RotationInvariant
  import opened RotationTheorems

  /** Goroutine t leads flight f, or has its result and is about to release it. */
  predicate Carries(s: State, t: int, f: nat) {
    t in s.procs && (s.procs[t].Leading? || s.procs[t].Releasing?) && s.procs[t].flight == f
  }

  ghost predicate AllCarried(s: State) {
    forall f: nat :: f < s.flights ==> f in s.done || exists t :: Carries(s, t, f)
  }

  lemma CarriedStays(cfg: Config, s: State, a: Action, t: int, f: nat)
    requires Enabled(s, a) && Carries(s, t, f)
    ensures Carries(Next(cfg, s, a), t, f) || f in Next(cfg, s, a).done
  {
    hide Refreshed;
  }

  lemma FlightsStep(cfg: Config, s: State, a: Action)
    requires Enabled(s, a)
    ensures s.done <= Next(cfg, s, a).done
    ensures Next(cfg, s, a).flights == s.flights
      || (Next(cfg, s, a).flights == s.flights + 1 && !a.SetUser? && Carries(Next(cfg, s, a), a.t, s.flights))
  {
    hide Refreshed;
  }

  lemma CarriedStep(cfg: Config, s: State, a: Action)
    requires Enabled(s, a) && AllCarried(s)
    ensures AllCarried(Next(cfg, s, a))
  {
    hide Next, Enabled, Carries;
    var s' := Next(cfg, s, a);
    FlightsStep(cfg, s, a);
    forall f: nat | f < s'.flights && f !in s'.done ensures exists t :: Carries(s', t, f) {
      if f < s.flights {
        var t :| Carries(s, t, f);
        CarriedStays(cfg, s, a, t, f);
      }
    }
  }

  lemma {:induction false} CarriedFrom(cfg: Config, s: State, acts: seq<Action>)
    requires AllCarried(s) && Runnable(cfg, s, acts)
    ensures AllCarried(After(cfg, s, acts))
    decreases |acts|
  {
    hide Next, Enabled, AllCarried;
    if acts != [] {
      CarriedStep(cfg, s, acts[0]);
      CarriedFrom(cfg, Next(cfg, s, acts[0]), acts[1..]);
    }
  }

  /** A goroutine that waits for a flight can be woken, or another one leads that flight or
      is about to release it. */
  lemma NoFollowerIsStranded(cfg: Config, init: Session, s: State, t: int)
    requires Valid(init) && Reachable(cfg, init, s) && t in s.procs && s.procs[t].Following?
    ensures Enabled(s, Wake(t)) || exists u :: u != t && Carries(s, u, s.procs[t].flight)
  {
    hide Runnable, After;
    var acts :| Runnable(cfg, Init(init), acts) && After(cfg, Init(init), acts) == s;
    CarriedFrom(cfg, Init(init), acts);
    ReachableInv(cfg, init, s);
    assert PcOk(s, t, s.procs[t]);
  }

  /** How many own steps goroutine pc is from releasing its flight at most. */
  function StepsLeft(pc: Pc): nat {
    match pc
    case Leading(_, _, Cloning) => 8
    case Leading(_, _, Sending(_)) => 7
    case Leading(_, _, Awaiting(_)) => 6
    case Leading(_, _, Publishing(_)) => 5
    case Leading(_, _, Saving) => 4
    case Leading(_, _, Emitting) => 3
    case Leading(_, _, Finishing(_)) => 2
    case Releasing(_, _, _) => 1
    case _ => 0
  }

  /** That one has a step to take, and each brings it nearer to the release. */
  lemma CarrierMovesOn(cfg: Config, s: State, t: int, f: nat)
    requires Carries(s, t, f)
    ensures exists a: Action :: !a.SetUser? && a.t == t && Enabled(s, a)
    ensures forall a: Action :: !a.SetUser? && a.t == t && Enabled(s, a) ==>
      var s' := Next(cfg, s, a);
      t in s'.procs && (f in s'.done || (Carries(s', t, f) && StepsLeft(s'.procs[t]) < StepsLeft(s.procs[t])))
  {
    var a := match s.procs[t]
      case Leading(_, _, Cloning) => Clone(t)
      case Leading(_, _, Sending(_)) => Send(t)
      case Leading(_, _, Awaiting(_)) => Receive(t, Err(RequestFailed), 0)
      case Leading(_, _, Publishing(_)) => Publish(t)
      case Leading(_, _, Saving) => SaveSession(t)
      case Leading(_, _, Emitting) => Emit(t)
      case Leading(_, _, Finishing(_)) => Finish(t)
      case _ => Release(t);
    assert !a.SetUser? && a.t == t && Enabled(s, a);
    forall b: Action | !b.SetUser? && b.t == t && Enabled(s, b)
      ensures var s' := Next(cfg, s, b);
        t in s'.procs && (f in s'.done || (Carries(s', t, f) && StepsLeft(s'.procs[t]) < StepsLeft(s.procs[t])))
    {
      CarrierStep(cfg, s, b, f);
    }
  }

  lemma CarrierStep(cfg: Config, s: State, b: Action, f: nat)
    requires !b.SetUser? && Carries(s, b.t, f) && Enabled(s, b)
    ensures var t, s' := b.t, Next(cfg, s, b);
      t in s'.procs && (f in s'.done || (Carries(s', t, f) && StepsLeft(s'.procs[t]) < StepsLeft(s.procs[t])))
  {
    hide Refreshed, Refreshable;
  }
}
