/** The inductive invariant of the lifecycle, and that every action keeps it. */
module LifecycleInvariant {
  import opened Common
  import opened Lifecycle

  /** A lineage being carried on, and whether Connected was dispatched for it. */
  datatype Carry = Carry(line: nat, announced: bool)

  /**
   What a goroutine is responsible for: the done channels it has to close or to
   hand to a run; those among them whose run has not reconnected; the run that is
   starting or inside poller.Run; its lineage; the pair a Disconnect works on.
   */
  datatype Duty = Duty(owned: set<nat>, pristine: set<nat>, live: Option<RunRef>, carry: Option<Carry>, job: Option<Job>)

  type Duties = map<int, Duty>

  const Idle := Duty({}, {}, None, None, None)

  function Runs(r: RunRef, announced: bool): Duty {
    Duty({r.done}, {r.done}, Some(r), Some(Carry(r.line, announced)), None)
  }

  function Dying(r: RunRef): Duty {
    Duty({r.done}, {r.done}, None, Some(Carry(r.line, true)), None)
  }

  function Leaving(r: RunRef): Duty { Duty({r.done}, {}, None, None, None) }

  function Relays(r: RunRef, n: RunRef): Duty {
    Duty({r.done, n.done}, {n.done}, Some(n), Some(Carry(r.line, true)), None)
  }

  function Waits(j: Job): Duty { Duty({}, {}, None, None, Some(j)) }

  function DutyOf(pc: Pc): Duty {
    match pc
    case Announcing(r) => Runs(r, false)
    case Launching(r) => Runs(r, true)
    case Polling(r) => Runs(r, true)
    case PollReturned(r, _) => Runs(r, true)
    case Refreshing(r) => Dying(r)
    case Refreshed(r, _) => Dying(r)
    case Relocking(r) => Dying(r)
    case MarkingOut(r) => Dying(r)
    case Relaunching(r, n) => Relays(r, n)
    case Telling(r, _) => Dying(r)
    case Closing(r) => Leaving(r)
    case Cancelling(j) => Waits(j)
    case Joining(j) => Waits(j)
    case _ => Idle
  }

  /** A goroutine that does not exist has no duty. */
  function At(m: Duties, t: int): Duty { if t in m then m[t] else Idle }

  function DutiesOf(s: State): Duties { map t | t in s.procs :: DutyOf(s.procs[t]) }

  // Event histories

  predicate AllUpdates(h: seq<Event>) {
    forall i :: 0 <= i < |h| ==> h[i] == Update
  }

  /** Connected, then updates only. */
  predicate Open(h: seq<Event>) {
    |h| > 0 && h[0] == Connected && AllUpdates(h[1..])
  }

  predicate Terminal(e: Event) { e.Disconnected? || e.LoggedOut? }

  /** An open history ended by one terminal event. */
  predicate Ended(h: seq<Event>) {
    |h| > 0 && Terminal(h[|h| - 1]) && Open(h[..|h| - 1])
  }

  lemma OpenGrows(h: seq<Event>)
    requires Open(h)
    ensures Open(h + [Update]) && LoggedOut !in h
  {
    assert (h + [Update])[1..] == h[1..] + [Update];
    assert h == [Connected] + h[1..];
  }

  lemma EndedBy(h: seq<Event>, e: Event)
    requires Open(h) && Terminal(e)
    ensures Ended(h + [e])
  {
    assert (h + [e])[..|h|] == h;
  }

  // The invariant

  predicate RunOk(s: State, r: RunRef) {
    r.ctx == r.done < s.nextCh && r.line < s.commits
  }

  predicate JobOk(s: State, j: Job) {
    && j.done == Some(j.ctx) && j.ctx < s.nextCh && j.epoch <= s.commits
    && j.ctx in s.fate && s.fate[j.ctx] == Taken
  }

  predicate PcOk(s: State, pc: Pc) {
    match pc
    case Relaunching(r, n) =>
      && RunOk(s, r) && RunOk(s, n) && n.line == r.line && n.done != r.done
      && r.done in s.fate && s.fate[r.done] == Succeeded(n.done)
    case Announcing(r) => RunOk(s, r)
    case Launching(r) => RunOk(s, r)
    case Polling(r) => RunOk(s, r)
    case PollReturned(r, _) => RunOk(s, r)
    case Refreshing(r) => RunOk(s, r)
    case Refreshed(r, _) => RunOk(s, r)
    case Relocking(r) => RunOk(s, r)
    case MarkingOut(r) => RunOk(s, r)
    case Telling(r, e) => RunOk(s, r) && Terminal(e) && (e.LoggedOut? ==> s.loggedOut)
    case Closing(r) => RunOk(s, r)
    case Cancelling(j) => JobOk(s, j)
    case Joining(j) => JobOk(s, j) && j.ctx in s.cancelled
    case _ => true
  }

  /** Contexts and channels are allocated in pairs and kept in pairs. */
  predicate Ids(s: State) {
    && s.nextCtx == s.nextCh
    && s.slot.cancel == s.slot.done
    && (s.slot.done.Some? ==> s.slot.done.value < s.nextCh)
    && forall t :: t in s.procs ==> PcOk(s, s.procs[t])
  }

  /** Every allocated channel is closed or owned by exactly one goroutine. */
  ghost predicate Channels(n: nat, closed: set<nat>, m: Duties) {
    && (forall d :: d in closed ==> d < n)
    && (forall t, d :: d in At(m, t).owned ==> d < n)
    && (forall t, d :: d in At(m, t).owned && d in closed ==> false)
    && (forall t, u, d :: d in At(m, t).owned && d in At(m, u).owned ==> t == u)
    && (forall d: nat :: d < n ==> d in closed || exists t :: d in At(m, t).owned)
    && (forall t :: At(m, t).pristine <= At(m, t).owned)
    && (forall t :: At(m, t).live.Some? ==> At(m, t).live.value.done in At(m, t).owned)
  }

  /** The slot describes the one live run. */
  ghost predicate Slots(slot: Slot, m: Duties) {
    && (forall t, u :: At(m, t).live.Some? && At(m, u).live.Some? ==> t == u)
    && (slot.connected <==> exists t :: At(m, t).live.Some?)
    && (forall t :: At(m, t).live.Some? && slot.done.Some? ==>
          At(m, t).live.value.done == slot.done.value)
  }

  /** A channel has a fate exactly when it has left the slot. */
  ghost predicate Fates(n: nat, fate: map<nat, Fate>, done: Option<nat>, m: Duties) {
    && (done.Some? ==> done.value < n)
    && (forall d :: d in fate ==> d < n)
    && (forall d: nat :: d < n ==> (d in fate <==> done != Some(d)))
    && (forall t, d :: d in At(m, t).pristine && d in fate ==> !fate[d].Succeeded?)
  }

  /** While no Connect commits, a waiting Disconnect keeps the slot empty and
      only the run it waits for can be live. */
  ghost predicate Waiters(commits: nat, done: Option<nat>, m: Duties) {
    && (forall t :: At(m, t).job.Some? ==> At(m, t).job.value.epoch <= commits)
    && (forall t :: At(m, t).job.Some? && At(m, t).job.value.epoch == commits ==> done.None?)
    && (forall t, u | At(m, t).job.Some? && At(m, t).job.value.epoch == commits && At(m, u).live.Some? ::
          At(m, u).live.value.done == At(m, t).job.value.ctx)
  }

  /** Whoever emptied the slot of the live run is still waiting for it. */
  ghost predicate Awaited(done: Option<nat>, m: Duties) {
    forall u :: At(m, u).live.Some? && done.None? ==>
      exists t :: At(m, t).job.Some? && At(m, t).job.value.ctx == At(m, u).live.value.done
  }

  ghost predicate Carried(m: Duties, l: nat) {
    exists t :: At(m, t).carry.Some? && At(m, t).carry.value.line == l
  }

  ghost predicate Lines(commits: nat, lines: map<nat, seq<Event>>, silent: map<nat, nat>, m: Duties) {
    && (forall l :: l in lines <==> 0 <= l < commits)
    && (forall l :: l in silent ==> l in lines)
    && (forall t, u | At(m, t).carry.Some? && At(m, u).carry.Some? ::
          At(m, t).carry.value.line == At(m, u).carry.value.line ==> t == u)
    && (forall t :: At(m, t).carry.Some? ==>
          var c := At(m, t).carry.value;
          c.line in lines && c.line !in silent
          && (if c.announced then Open(lines[c.line]) else lines[c.line] == []))
    && (forall l :: l in lines && !Carried(m, l) ==>
          if l in silent then Open(lines[l]) else Ended(lines[l]))
  }

  /** A lineage that ended silently had lost its slot. */
  predicate SilentOk(s: State) {
    forall l :: l in s.silent ==> s.silent[l] in s.fate && !s.fate[s.silent[l]].Succeeded?
  }

  predicate LoggedOutOk(s: State) {
    forall l :: l in s.lines && LoggedOut in s.lines[l] ==> s.loggedOut
  }

  /** Only taken runs are cancelled. */
  predicate CancelledOk(s: State) {
    forall c :: c in s.cancelled ==> c in s.fate && s.fate[c] == Taken
  }

  ghost predicate Sound(s: State, m: Duties) {
    && Channels(s.nextCh, s.closed, m)
    && Slots(s.slot, m)
    && Fates(s.nextCh, s.fate, s.slot.done, m)
    && Waiters(s.commits, s.slot.done, m)
    && Awaited(s.slot.done, m)
    && Lines(s.commits, s.lines, s.silent, m)
  }

  ghost predicate Inv(s: State) {
    Ids(s) && SilentOk(s) && LoggedOutOk(s) && CancelledOk(s) && Sound(s, DutiesOf(s))
  }

  lemma InitInv()
    ensures Inv(Init)
  {
  }

  // How each part of the invariant survives a change of duties

  /** Only the duty of goroutine t differs. */
  ghost predicate Others(m: Duties, m': Duties, t: int) {
    forall x :: x != t ==> At(m', x) == At(m, x)
  }

  lemma ChannelsKept(n: nat, closed: set<nat>, m: Duties, m': Duties, t: int)
    requires Channels(n, closed, m) && Others(m, m', t)
    requires At(m', t).owned == At(m, t).owned && At(m', t).pristine <= At(m', t).owned
    requires At(m', t).live.Some? ==> At(m', t).live.value.done in At(m', t).owned
    ensures Channels(n, closed, m')
  {
    forall d: nat | d < n && d !in closed ensures exists x :: d in At(m', x).owned {
      var x :| d in At(m, x).owned;
      assert d in At(m', x).owned;
    }
  }

  lemma ChannelMade(n: nat, closed: set<nat>, m: Duties, m': Duties, t: int)
    requires Channels(n, closed, m) && Others(m, m', t)
    requires At(m', t).owned == At(m, t).owned + {n} && At(m', t).pristine <= At(m', t).owned
    requires At(m', t).live.Some? ==> At(m', t).live.value.done in At(m', t).owned
    ensures Channels(n + 1, closed, m')
  {
    assert forall x :: n !in At(m, x).owned;
    assert forall x, d :: d in At(m', x).owned && d != n ==> d in At(m, x).owned;
    forall d: nat | d < n + 1 && d !in closed ensures exists x :: d in At(m', x).owned {
      if d == n {
        assert d in At(m', t).owned;
      } else {
        var x :| d in At(m, x).owned;
        assert d in At(m', x).owned;
      }
    }
  }

  lemma ChannelClosed(n: nat, closed: set<nat>, m: Duties, m': Duties, t: int, ch: nat)
    requires Channels(n, closed, m) && Others(m, m', t)
    requires At(m, t).owned == {ch} && At(m', t) == Idle
    ensures Channels(n, closed + {ch}, m')
  {
    forall d: nat | d < n && d !in closed && d != ch ensures exists x :: d in At(m', x).owned {
      var x :| d in At(m, x).owned;
      assert d in At(m', x).owned;
    }
  }

  lemma SlotsKept(slot: Slot, slot': Slot, m: Duties, m': Duties, t: int)
    requires Slots(slot, m) && Others(m, m', t) && At(m', t).live == At(m, t).live
    requires slot'.connected == slot.connected && (slot'.done == slot.done || slot'.done.None?)
    ensures Slots(slot', m')
  {
    assert forall x :: At(m', x).live == At(m, x).live;
  }

  lemma RunStarts(slot: Slot, slot': Slot, m: Duties, m': Duties, t: int)
    requires Slots(slot, m) && Others(m, m', t) && !slot.connected
    requires At(m', t).live.Some? && slot'.connected && slot'.done == Some(At(m', t).live.value.done)
    ensures Slots(slot', m')
  {
  }

  lemma RunEnds(slot: Slot, slot': Slot, m: Duties, m': Duties, t: int)
    requires Slots(slot, m) && Others(m, m', t)
    requires At(m, t).live.Some? && At(m', t).live.None? && !slot'.connected && slot'.done == slot.done
    ensures Slots(slot', m')
  {
  }

  lemma FatesKept(n: nat, fate: map<nat, Fate>, done: Option<nat>, m: Duties, m': Duties, t: int)
    requires Fates(n, fate, done, m) && Others(m, m', t) && At(m', t).pristine <= At(m, t).pristine
    ensures Fates(n, fate, done, m')
  {
  }

  /** The slot is filled with a new channel, or (filled = None) emptied. */
  lemma Evicts(n: nat, n': nat, fate: map<nat, Fate>, fate': map<nat, Fate>, done: Option<nat>, filled: Option<nat>,
               f: Fate, m: Duties, m': Duties, t: int)
    requires Fates(n, fate, done, m) && Others(m, m', t)
    requires if filled.None? then n' == n else filled.value == n && n' == n + 1
    requires At(m', t).pristine <= (if filled.None? then {} else {n})
    requires fate' == if done.Some? then fate[done.value := f] else fate
    requires f.Succeeded? && done.Some? ==> forall x :: x != t ==> done.value !in At(m, x).pristine
    requires forall x, d :: d in At(m, x).pristine ==> d < n
    ensures Fates(n', fate', filled, m')
  {
  }

  lemma WaitersKept(commits: nat, done: Option<nat>, m: Duties, m': Duties, t: int)
    requires Waiters(commits, done, m) && Others(m, m', t)
    requires At(m', t).job == At(m, t).job || At(m', t).job.None?
    requires At(m', t).live == At(m, t).live || At(m', t).live.None?
    ensures Waiters(commits, done, m')
  {
  }

  /** No waiting Disconnect is current once the slot is filled. */
  lemma WaitersStale(commits: nat, commits': nat, done: Option<nat>, filled: Option<nat>, m: Duties, m': Duties, t: int)
    requires Waiters(commits, done, m) && Others(m, m', t) && At(m', t).job.None?
    requires commits' > commits || (commits' == commits && done.Some?)
    ensures Waiters(commits', filled, m')
  {
  }

  lemma WaiterArrives(commits: nat, slot: Slot, m: Duties, m': Duties, t: int)
    requires Waiters(commits, slot.done, m) && Slots(slot, m) && Others(m, m', t)
    requires slot.done.Some? && At(m', t).live.None?
    requires At(m', t).job.Some? && At(m', t).job.value.epoch == commits && At(m', t).job.value.ctx == slot.done.value
    ensures Waiters(commits, None, m') && Awaited(None, m')
  {
  }

  lemma AwaitedKept(done: Option<nat>, m: Duties, m': Duties, t: int)
    requires Awaited(done, m) && Others(m, m', t)
    requires At(m', t).live == At(m, t).live || At(m', t).live.None?
    requires At(m, t).job.Some? && At(m', t).job.None? ==>
      forall u :: At(m', u).live.Some? ==> At(m', u).live.value.done != At(m, t).job.value.ctx
    requires At(m', t).job.Some? ==> At(m', t).job == At(m, t).job
    ensures Awaited(done, m')
  {
    forall u | At(m', u).live.Some? && done.None?
      ensures exists x :: At(m', x).job.Some? && At(m', x).job.value.ctx == At(m', u).live.value.done
    {
      assert At(m, u).live == At(m', u).live;
      var x :| At(m, x).job.Some? && At(m, x).job.value.ctx == At(m, u).live.value.done;
      assert At(m', x).job == At(m, x).job;
    }
  }

  lemma CarriedKept(m: Duties, m': Duties, t: int, l: nat)
    requires Others(m, m', t) && Carried(m, l)
    requires At(m, t).carry.Some? && At(m, t).carry.value.line == l ==>
      At(m', t).carry.Some? && At(m', t).carry.value.line == l
    ensures Carried(m', l)
  {
    var x :| At(m, x).carry.Some? && At(m, x).carry.value.line == l;
    assert At(m', x).carry.Some? && At(m', x).carry.value.line == l;
  }

  lemma LinesKept(commits: nat, lines: map<nat, seq<Event>>, silent: map<nat, nat>, m: Duties, m': Duties, t: int)
    requires Lines(commits, lines, silent, m) && Others(m, m', t) && At(m', t).carry == At(m, t).carry
    ensures Lines(commits, lines, silent, m')
  {
    forall l | Carried(m, l) ensures Carried(m', l) { CarriedKept(m, m', t, l); }
  }

  lemma LineBegins(commits: nat, lines: map<nat, seq<Event>>, silent: map<nat, nat>, m: Duties, m': Duties, t: int)
    requires Lines(commits, lines, silent, m) && Others(m, m', t)
    requires At(m, t).carry.None? && At(m', t).carry == Some(Carry(commits, false))
    ensures Lines(commits + 1, lines[commits := []], silent, m')
  {
    forall l | Carried(m, l) ensures Carried(m', l) { CarriedKept(m, m', t, l); }
    assert Carried(m', commits);
  }

  lemma LineTold(commits: nat, lines: map<nat, seq<Event>>, silent: map<nat, nat>, m: Duties, m': Duties, t: int, l: nat, e: Event)
    requires Lines(commits, lines, silent, m) && Others(m, m', t)
    requires At(m, t).carry.Some? && At(m, t).carry.value.line == l && At(m', t).carry == Some(Carry(l, true))
    requires e == if At(m, t).carry.value.announced then Update else Connected
    ensures Lines(commits, lines[l := lines[l] + [e]], silent, m')
  {
    forall k | Carried(m, k) ensures Carried(m', k) { CarriedKept(m, m', t, k); }
    if e == Update { OpenGrows(lines[l]); }
    assert Carried(m', l);
  }

  lemma LineEnds(commits: nat, lines: map<nat, seq<Event>>, lines': map<nat, seq<Event>>,
                 silent: map<nat, nat>, silent': map<nat, nat>, m: Duties, m': Duties, t: int, l: nat)
    requires Lines(commits, lines, silent, m) && Others(m, m', t)
    requires At(m, t).carry == Some(Carry(l, true)) && At(m', t).carry.None?
    requires (lines' == lines && l in silent' && silent' == silent[l := silent'[l]])
          || (silent' == silent && exists e :: Terminal(e) && lines' == lines[l := lines[l] + [e]])
    ensures Lines(commits, lines', silent', m')
  {
    forall k | Carried(m, k) && k != l ensures Carried(m', k) { CarriedKept(m, m', t, k); }
    if lines' != lines {
      var e :| Terminal(e) && lines' == lines[l := lines[l] + [e]];
      EndedBy(lines[l], e);
    }
  }

  // Handing a run over: goroutine t gives it to the idle goroutine u

  ghost predicate HandsOver(m: Duties, m': Duties, t: int, u: int) {
    && t != u && At(m, u) == Idle && At(m, t).job.None? && At(m', t).job.None? && At(m', u).job.None?
    && At(m', t).owned + At(m', u).owned == At(m, t).owned && At(m', t).owned !! At(m', u).owned
    && At(m', t).pristine == {} && At(m', u).pristine == At(m', u).owned && At(m', u).owned <= At(m, t).pristine
    && At(m, t).live.Some? && At(m', t).live.None? && At(m', u).live == At(m, t).live
    && At(m', u).live.value.done in At(m', u).owned
    && At(m', t).carry.None? && At(m', u).carry == At(m, t).carry
    && forall x :: x != t && x != u ==> At(m', x) == At(m, x)
  }

  lemma HandOverChannels(n: nat, closed: set<nat>, m: Duties, m': Duties, t: int, u: int)
    requires Channels(n, closed, m) && HandsOver(m, m', t, u)
    ensures Channels(n, closed, m')
  {
    assert forall x, d :: d in At(m', x).owned ==> d in At(m, if x == u then t else x).owned;
    forall d: nat | d < n && d !in closed ensures exists x :: d in At(m', x).owned {
      var x :| d in At(m, x).owned;
      assert d in At(m', if x == t && d in At(m', u).owned then u else x).owned;
    }
  }

  lemma HandOverSlots(slot: Slot, m: Duties, m': Duties, t: int, u: int)
    requires Slots(slot, m) && HandsOver(m, m', t, u)
    ensures Slots(slot, m')
  {
    assert forall x :: At(m', x).live.Some? <==> x == u;
  }

  lemma HandOverWaiters(commits: nat, done: Option<nat>, m: Duties, m': Duties, t: int, u: int)
    requires Waiters(commits, done, m) && Awaited(done, m) && HandsOver(m, m', t, u)
    ensures Waiters(commits, done, m') && Awaited(done, m')
  {
    assert forall x :: At(m', x).job == At(m, x).job;
    assert forall x :: At(m', x).live.Some? ==> At(m', x).live == At(m, if x == u then t else x).live;
    forall x | At(m', x).live.Some? && done.None?
      ensures exists y :: At(m', y).job.Some? && At(m', y).job.value.ctx == At(m', x).live.value.done
    {
      var y :| At(m, y).job.Some? && At(m, y).job.value.ctx == At(m', x).live.value.done;
      assert At(m', y).job == At(m, y).job;
    }
  }

  lemma HandOverLines(commits: nat, lines: map<nat, seq<Event>>, silent: map<nat, nat>, m: Duties, m': Duties, t: int, u: int)
    requires Lines(commits, lines, silent, m) && HandsOver(m, m', t, u)
    ensures Lines(commits, lines, silent, m')
  {
    assert forall x :: At(m', x).carry.Some? ==> At(m', x).carry == At(m, if x == u then t else x).carry;
    forall l | Carried(m, l) ensures Carried(m', l) {
      var x :| At(m, x).carry.Some? && At(m, x).carry.value.line == l;
      assert At(m', if x == t then u else x).carry == At(m, x).carry;
    }
  }

  /** Goroutine t moves from duty was to duty now while the others keep theirs. */
  ghost predicate Turns(s: State, m: Duties, m': Duties, t: int, was: Duty, now: Duty) {
    Sound(s, m) && Others(m, m', t) && At(m, t) == was && At(m', t) == now
  }

  lemma Quiet(s: State, s': State, m: Duties, m': Duties, t: int, d: Duty)
    requires Turns(s, m, m', t, d, d)
    requires s' == s.(procs := s'.procs, loggedOut := s'.loggedOut, cancelled := s'.cancelled)
    ensures Sound(s', m')
  {
    ChannelsKept(s.nextCh, s.closed, m, m', t);
    SlotsKept(s.slot, s.slot, m, m', t);
    FatesKept(s.nextCh, s.fate, s.slot.done, m, m', t);
    WaitersKept(s.commits, s.slot.done, m, m', t);
    AwaitedKept(s.slot.done, m, m', t);
    LinesKept(s.commits, s.lines, s.silent, m, m', t);
  }

  lemma Commits(s: State, s': State, m: Duties, m': Duties, t: int, r: RunRef)
    requires Turns(s, m, m', t, Idle, Runs(r, false)) && r.done == s.nextCh && r.line == s.commits && !s.slot.connected
    requires s' == Evict(s, Displaced).(procs := s'.procs, nextCtx := s'.nextCtx, nextCh := s.nextCh + 1, commits := s.commits + 1,
                                        slot := Slot(true, Some(r.ctx), Some(r.done)), lines := s.lines[s.commits := []])
    ensures Sound(s', m')
  {
    ChannelMade(s.nextCh, s.closed, m, m', t);
    RunStarts(s.slot, s'.slot, m, m', t);
    Evicts(s.nextCh, s'.nextCh, s.fate, s'.fate, s.slot.done, Some(r.done), Displaced, m, m', t);
    WaitersStale(s.commits, s'.commits, s.slot.done, Some(r.done), m, m', t);
    LineBegins(s.commits, s.lines, s.silent, m, m', t);
  }

  lemma Tells(s: State, s': State, m: Duties, m': Duties, t: int, r: RunRef, announced: bool)
    requires Turns(s, m, m', t, Runs(r, announced), Runs(r, true))
    requires s' == Tell(s, r.line, if announced then Update else Connected).(procs := s'.procs)
    ensures Sound(s', m')
  {
    ChannelsKept(s.nextCh, s.closed, m, m', t);
    SlotsKept(s.slot, s.slot, m, m', t);
    FatesKept(s.nextCh, s.fate, s.slot.done, m, m', t);
    WaitersKept(s.commits, s.slot.done, m, m', t);
    AwaitedKept(s.slot.done, m, m', t);
    LineTold(s.commits, s.lines, s.silent, m, m', t, r.line, if announced then Update else Connected);
  }

  /** The lineage of an ended run stops: with a last event, or silently. */
  lemma Stops(s: State, s': State, m: Duties, m': Duties, t: int, r: RunRef, last: Option<Event>)
    requires Turns(s, m, m', t, Dying(r), Leaving(r)) && (last.Some? ==> Terminal(last.value))
    requires s' == (if last.Some? then Tell(s, r.line, last.value) else s.(silent := s.silent[r.line := r.done])).(procs := s'.procs)
    ensures Sound(s', m')
  {
    ChannelsKept(s.nextCh, s.closed, m, m', t);
    SlotsKept(s.slot, s.slot, m, m', t);
    FatesKept(s.nextCh, s.fate, s.slot.done, m, m', t);
    WaitersKept(s.commits, s.slot.done, m, m', t);
    AwaitedKept(s.slot.done, m, m', t);
    LineEnds(s.commits, s.lines, s'.lines, s.silent, s'.silent, m, m', t, r.line);
  }

  lemma Launches(s: State, s': State, m: Duties, m': Duties, t: int, u: int)
    requires Sound(s, m) && HandsOver(m, m', t, u) && s' == s.(procs := s'.procs)
    ensures Sound(s', m')
  {
    HandOverChannels(s.nextCh, s.closed, m, m', t, u);
    HandOverSlots(s.slot, m, m', t, u);
    assert forall x, d :: d in At(m', x).pristine ==> d in At(m, if x == u then t else x).pristine;
    HandOverWaiters(s.commits, s.slot.done, m, m', t, u);
    HandOverLines(s.commits, s.lines, s.silent, m, m', t, u);
  }

  lemma Clears(s: State, s': State, m: Duties, m': Duties, t: int, r: RunRef)
    requires Turns(s, m, m', t, Runs(r, true), Dying(r)) && s' == s.(procs := s'.procs, slot := EndSlot(s.slot))
    ensures Sound(s', m')
  {
    ChannelsKept(s.nextCh, s.closed, m, m', t);
    RunEnds(s.slot, s'.slot, m, m', t);
    FatesKept(s.nextCh, s.fate, s.slot.done, m, m', t);
    WaitersKept(s.commits, s.slot.done, m, m', t);
    AwaitedKept(s.slot.done, m, m', t);
    LinesKept(s.commits, s.lines, s.silent, m, m', t);
  }

  /** The done of an ended run is still in the slot only if nobody has connected since. */
  lemma OwnDoneMeansFree(s: State, m: Duties, t: int, r: RunRef)
    requires Sound(s, m) && At(m, t) == Dying(r) && s.slot.done == Some(r.done)
    ensures !s.slot.connected
  {
    assert forall u :: At(m, u).live.Some? ==> r.done in At(m, u).owned && r.done in At(m, t).owned;
  }

  lemma Reconnects(s: State, s': State, m: Duties, m': Duties, t: int, r: RunRef, n: RunRef)
    requires Turns(s, m, m', t, Dying(r), Relays(r, n)) && n.done == s.nextCh && n.line == r.line && s.slot.done == Some(r.done)
    requires s' == Evict(s, Succeeded(n.done)).(procs := s'.procs, nextCtx := s'.nextCtx, nextCh := s.nextCh + 1,
                                                slot := Slot(true, Some(n.ctx), Some(n.done)))
    ensures Sound(s', m')
  {
    OwnDoneMeansFree(s, m, t, r);
    ChannelMade(s.nextCh, s.closed, m, m', t);
    RunStarts(s.slot, s'.slot, m, m', t);
    Evicts(s.nextCh, s'.nextCh, s.fate, s'.fate, s.slot.done, Some(n.done), Succeeded(n.done), m, m', t);
    WaitersStale(s.commits, s'.commits, s.slot.done, Some(n.done), m, m', t);
    LinesKept(s.commits, s.lines, s.silent, m, m', t);
  }

  lemma Closes(s: State, s': State, m: Duties, m': Duties, t: int, r: RunRef)
    requires Turns(s, m, m', t, Leaving(r), Idle) && s' == s.(procs := s'.procs, closed := s.closed + {r.done})
    ensures Sound(s', m')
  {
    ChannelClosed(s.nextCh, s.closed, m, m', t, r.done);
    SlotsKept(s.slot, s.slot, m, m', t);
    FatesKept(s.nextCh, s.fate, s.slot.done, m, m', t);
    WaitersKept(s.commits, s.slot.done, m, m', t);
    AwaitedKept(s.slot.done, m, m', t);
    LinesKept(s.commits, s.lines, s.silent, m, m', t);
  }

  lemma Takes(s: State, s': State, m: Duties, m': Duties, t: int, j: Job)
    requires Turns(s, m, m', t, Idle, Waits(j)) && s.slot.done == Some(j.ctx) && j.epoch == s.commits
    requires s' == Evict(s, Taken).(procs := s'.procs, slot := TakeSlot(s.slot))
    ensures Sound(s', m')
  {
    ChannelsKept(s.nextCh, s.closed, m, m', t);
    SlotsKept(s.slot, s'.slot, m, m', t);
    Evicts(s.nextCh, s.nextCh, s.fate, s'.fate, s.slot.done, None, Taken, m, m', t);
    WaiterArrives(s.commits, s.slot, m, m', t);
    LinesKept(s.commits, s.lines, s.silent, m, m', t);
  }

  lemma Joins(s: State, s': State, m: Duties, m': Duties, t: int, j: Job)
    requires Turns(s, m, m', t, Waits(j), Idle) && j.ctx in s.closed && s' == s.(procs := s'.procs)
    ensures Sound(s', m')
  {
    ChannelsKept(s.nextCh, s.closed, m, m', t);
    SlotsKept(s.slot, s.slot, m, m', t);
    FatesKept(s.nextCh, s.fate, s.slot.done, m, m', t);
    WaitersKept(s.commits, s.slot.done, m, m', t);
    AwaitedKept(s.slot.done, m, m', t);
    LinesKept(s.commits, s.lines, s.silent, m, m', t);
  }

  // The actions

  predicate IsQuiet(s: State, a: Action) {
    match a
    case ConnectBegin(_) => true
    case VerifyReturns(_, _) => true
    case Commit(_) => s.slot.connected
    case PollReturns(_, _) => true
    case RefreshReturns(_, _) => true
    case CheckContext(_) => true
    case StoreLoggedOut(_) => true
    case Take(_, _) => s.slot.cancel.None?
    case CallCancel(_) => true
    case LogoutMark(_) => true
    case LogoutReturns(_, _) => true
    case _ => false
  }

  /** A quiet action moves one goroutine on and changes little else. */
  lemma QuietShared(s: State, a: Action)
    requires Ids(s) && Enabled(s, a) && IsQuiet(s, a)
    ensures var s' := Next(s, a);
      && a.t in s'.procs && s'.procs == s.procs[a.t := s'.procs[a.t]]
      && s' == s.(procs := s'.procs, loggedOut := s'.loggedOut, cancelled := s'.cancelled)
  {
    hide DoReconnect, DoAnnounce, DoLaunch, DoClearConnected, DoRelaunch, DoTellLast, DoCloseDone;
  }

  lemma QuietDuty(s: State, a: Action)
    requires Enabled(s, a) && IsQuiet(s, a)
    ensures a.t in Next(s, a).procs
    ensures DutyOf(Next(s, a).procs[a.t]) == if a.t in s.procs then DutyOf(s.procs[a.t]) else Idle
  {
    hide DoReconnect, DoAnnounce, DoLaunch, DoClearConnected, DoRelaunch, DoTellLast, DoCloseDone;
  }

  /** The duties after goroutine t has moved to pc. */
  lemma Moved(s: State, s': State, t: int, pc: Pc)
    requires s'.procs == s.procs[t := pc]
    ensures Others(DutiesOf(s), DutiesOf(s'), t)
    ensures At(DutiesOf(s'), t) == DutyOf(pc)
    ensures At(DutiesOf(s), t) == if t in s.procs then DutyOf(s.procs[t]) else Idle
  {
  }

  lemma Spawned(s: State, s': State, t: int, pc: Pc, u: int, child: Pc)
    requires s'.procs == s.procs[t := pc][u := child] && t in s.procs && u !in s.procs
    requires HandsOver(map[t := DutyOf(s.procs[t])], map[t := DutyOf(pc), u := DutyOf(child)], t, u)
    ensures HandsOver(DutiesOf(s), DutiesOf(s'), t, u)
  {
    var h, h' := map[t := DutyOf(s.procs[t])], map[t := DutyOf(pc), u := DutyOf(child)];
    assert At(DutiesOf(s), t) == At(h, t) && At(DutiesOf(s), u) == At(h, u);
    assert At(DutiesOf(s'), t) == At(h', t) && At(DutiesOf(s'), u) == At(h', u);
  }

  lemma KeepQuiet(s: State, a: Action)
    requires Sound(s, DutiesOf(s)) && Enabled(s, a) && Ids(s) && IsQuiet(s, a)
    ensures Sound(Next(s, a), DutiesOf(Next(s, a)))
  {
    hide Sound, DutiesOf;
    var s' := Next(s, a);
    QuietShared(s, a);
    QuietDuty(s, a);
    Moved(s, s', a.t, s'.procs[a.t]);
    Quiet(s, s', DutiesOf(s), DutiesOf(s'), a.t, DutyOf(s'.procs[a.t]));
  }

  lemma KeepLaunch(s: State, t: int, u: int, r: RunRef)
    requires Sound(s, DutiesOf(s)) && t in s.procs && s.procs[t] == Launching(r) && u !in s.procs
    ensures Sound(DoLaunch(s, t, u, r), DutiesOf(DoLaunch(s, t, u, r)))
  {
    hide Sound, DutiesOf;
    var s' := DoLaunch(s, t, u, r);
    Spawned(s, s', t, ConnectReturned(Started), u, Polling(r));
    Launches(s, s', DutiesOf(s), DutiesOf(s'), t, u);
  }

  lemma KeepRelaunch(s: State, t: int, u: int, r: RunRef, n: RunRef)
    requires Sound(s, DutiesOf(s)) && t in s.procs && s.procs[t] == Relaunching(r, n) && u !in s.procs
    requires n.line == r.line && n.done != r.done
    ensures Sound(DoRelaunch(s, t, u, r, n), DutiesOf(DoRelaunch(s, t, u, r, n)))
  {
    hide Sound, DutiesOf;
    var s' := DoRelaunch(s, t, u, r, n);
    Spawned(s, s', t, Closing(r), u, Polling(n));
    Launches(s, s', DutiesOf(s), DutiesOf(s'), t, u);
  }

  lemma KeepCommit(s: State, t: int)
    requires Sound(s, DutiesOf(s)) && t in s.procs && s.procs[t].Verified? && !s.slot.connected
    ensures Sound(DoCommit(s, t), DutiesOf(DoCommit(s, t)))
  {
    hide Sound, DutiesOf;
    var s', r := DoCommit(s, t), FreshRun(s, s.commits);
    Moved(s, s', t, Announcing(r));
    Commits(s, s', DutiesOf(s), DutiesOf(s'), t, r);
  }

  lemma KeepReconnect(s: State, t: int, r: RunRef)
    requires Sound(s, DutiesOf(s)) && t in s.procs && s.procs[t] == Relocking(r)
    ensures Sound(DoReconnect(s, t, r), DutiesOf(DoReconnect(s, t, r)))
  {
    hide Sound, DutiesOf;
    var s', n := DoReconnect(s, t, r), FreshRun(s, r.line);
    if s.slot.done == Some(r.done) {
      Moved(s, s', t, Relaunching(r, n));
      Reconnects(s, s', DutiesOf(s), DutiesOf(s'), t, r, n);
    } else {
      Moved(s, s', t, Closing(r));
      Stops(s, s', DutiesOf(s), DutiesOf(s'), t, r, None);
    }
  }

  lemma KeepAnnounce(s: State, t: int, r: RunRef)
    requires Sound(s, DutiesOf(s)) && t in s.procs && s.procs[t] == Announcing(r)
    ensures Sound(DoAnnounce(s, t, r), DutiesOf(DoAnnounce(s, t, r)))
  {
    hide Sound, DutiesOf;
    var s' := DoAnnounce(s, t, r);
    Moved(s, s', t, Launching(r));
    Tells(s, s', DutiesOf(s), DutiesOf(s'), t, r, false);
  }

  lemma KeepPollEvent(s: State, t: int, r: RunRef)
    requires Sound(s, DutiesOf(s)) && t in s.procs && s.procs[t] == Polling(r)
    ensures Sound(Tell(s, r.line, Update), DutiesOf(Tell(s, r.line, Update)))
  {
    hide Sound, DutiesOf;
    var s' := Tell(s, r.line, Update);
    Moved(s, s', t, Polling(r));
    Tells(s, s', DutiesOf(s), DutiesOf(s'), t, r, true);
  }

  lemma KeepTellLast(s: State, t: int, r: RunRef, last: Event)
    requires Sound(s, DutiesOf(s)) && t in s.procs && s.procs[t] == Telling(r, last) && Terminal(last)
    ensures Sound(DoTellLast(s, t, r, last), DutiesOf(DoTellLast(s, t, r, last)))
  {
    hide Sound, DutiesOf;
    var s' := DoTellLast(s, t, r, last);
    Moved(s, s', t, Closing(r));
    Stops(s, s', DutiesOf(s), DutiesOf(s'), t, r, Some(last));
  }

  lemma KeepClearConnected(s: State, t: int, r: RunRef, cause: Cause)
    requires Sound(s, DutiesOf(s)) && t in s.procs && s.procs[t] == PollReturned(r, cause)
    ensures Sound(DoClearConnected(s, t, r, cause), DutiesOf(DoClearConnected(s, t, r, cause)))
  {
    hide Sound, DutiesOf;
    var s' := DoClearConnected(s, t, r, cause);
    Moved(s, s', t, AfterPoll(r, cause));
    Clears(s, s', DutiesOf(s), DutiesOf(s'), t, r);
  }

  lemma KeepCloseDone(s: State, t: int, r: RunRef)
    requires Sound(s, DutiesOf(s)) && t in s.procs && s.procs[t] == Closing(r)
    ensures Sound(DoCloseDone(s, t, r), DutiesOf(DoCloseDone(s, t, r)))
  {
    hide Sound, DutiesOf;
    var s' := DoCloseDone(s, t, r);
    Moved(s, s', t, RunReturned);
    Closes(s, s', DutiesOf(s), DutiesOf(s'), t, r);
  }

  lemma KeepTake(s: State, t: int, logout: bool)
    requires Sound(s, DutiesOf(s)) && t !in s.procs && s.slot.cancel.Some? && s.slot.cancel == s.slot.done
    ensures Sound(DoTake(s, t, logout), DutiesOf(DoTake(s, t, logout)))
  {
    hide Sound, DutiesOf;
    var s', j := DoTake(s, t, logout), Job(s.slot.cancel.value, s.slot.done, s.commits, logout);
    Moved(s, s', t, Cancelling(j));
    Takes(s, s', DutiesOf(s), DutiesOf(s'), t, j);
  }

  lemma KeepJoin(s: State, t: int, j: Job)
    requires Sound(s, DutiesOf(s)) && t in s.procs && s.procs[t] == Joining(j) && j.ctx in s.closed
    ensures Sound(Put(s, t, AfterDisconnect(j.logout)), DutiesOf(Put(s, t, AfterDisconnect(j.logout))))
  {
    hide Sound, DutiesOf;
    var s' := Put(s, t, AfterDisconnect(j.logout));
    Moved(s, s', t, AfterDisconnect(j.logout));
    Joins(s, s', DutiesOf(s), DutiesOf(s'), t, j);
  }

  lemma KeepSound(s: State, a: Action)
    requires Ids(s) && Sound(s, DutiesOf(s)) && Enabled(s, a)
    ensures Sound(Next(s, a), DutiesOf(Next(s, a)))
  {
    hide Sound, DutiesOf;
    if IsQuiet(s, a) {
      KeepQuiet(s, a);
    } else {
      assert a.t in s.procs ==> PcOk(s, s.procs[a.t]);
      match a
      case Commit(t) => KeepCommit(s, t);
      case Announce(t) => KeepAnnounce(s, t, s.procs[t].run);
      case Launch(t, u) => KeepLaunch(s, t, u, s.procs[t].run);
      case PollEvent(t) => KeepPollEvent(s, t, s.procs[t].run);
      case ClearConnected(t) => KeepClearConnected(s, t, s.procs[t].run, s.procs[t].cause);
      case Reconnect(t) => KeepReconnect(s, t, s.procs[t].run);
      case Relaunch(t, u) => KeepRelaunch(s, t, u, s.procs[t].run, s.procs[t].next);
      case TellLast(t) => KeepTellLast(s, t, s.procs[t].run, s.procs[t].last);
      case CloseDone(t) => KeepCloseDone(s, t, s.procs[t].run);
      case Take(t, logout) => KeepTake(s, t, logout);
      case Join(t) => KeepJoin(s, t, s.procs[t].job);
    }
  }

  // Identifiers and records

  predicate Grows(s: State, s': State) {
    && s.nextCh <= s'.nextCh && s.commits <= s'.commits
    && s.cancelled <= s'.cancelled && (s.loggedOut ==> s'.loggedOut)
    && forall d :: d in s.fate ==> d in s'.fate && s'.fate[d] == s.fate[d]
  }

  lemma PcOkGrows(s: State, s': State, pc: Pc)
    requires PcOk(s, pc) && Grows(s, s')
    ensures PcOk(s', pc)
  {
  }

  lemma FateIsFinal(s: State)
    requires Sound(s, DutiesOf(s))
    ensures forall d :: d in s.fate ==> s.slot.done != Some(d)
  {
    assert Fates(s.nextCh, s.fate, s.slot.done, DutiesOf(s));
  }

  lemma FateStays(s: State, a: Action)
    requires Enabled(s, a) && (forall d :: d in s.fate ==> s.slot.done != Some(d))
    ensures forall d :: d in s.fate ==> d in Next(s, a).fate && Next(s, a).fate[d] == s.fate[d]
  {
    hide AfterPoll, AfterRefresh, AfterDisconnect;
  }

  lemma StepGrows(s: State, a: Action)
    requires Enabled(s, a) && (forall d :: d in s.fate ==> s.slot.done != Some(d))
    ensures Grows(s, Next(s, a))
  {
    FateStays(s, a);
    hide AfterPoll, AfterRefresh, AfterDisconnect, Evict;
  }

  lemma StepPairs(s: State, a: Action)
    requires Ids(s) && Enabled(s, a)
    ensures var s' := Next(s, a);
      s'.nextCtx == s'.nextCh && s'.slot.cancel == s'.slot.done && (s'.slot.done.Some? ==> s'.slot.done.value < s'.nextCh)
  {
  }

  lemma StepQuietActor(s: State, a: Action)
    requires Enabled(s, a) && IsQuiet(s, a) && (a.t in s.procs ==> PcOk(s, s.procs[a.t]))
    requires s.slot.cancel == s.slot.done
    ensures a.t in Next(s, a).procs && PcOk(Next(s, a), Next(s, a).procs[a.t])
  {
    hide DoReconnect, DoAnnounce, DoLaunch, DoClearConnected, DoRelaunch, DoTellLast, DoCloseDone;
  }

  predicate ChangesSlot(a: Action) { a.Commit? || a.Reconnect? || a.Take? }

  lemma StepSlotActor(s: State, a: Action)
    requires Enabled(s, a) && !IsQuiet(s, a) && ChangesSlot(a) && (a.t in s.procs ==> PcOk(s, s.procs[a.t]))
    requires s.nextCtx == s.nextCh && s.slot.cancel == s.slot.done && (s.slot.done.Some? ==> s.slot.done.value < s.nextCh)
    ensures a.t in Next(s, a).procs && PcOk(Next(s, a), Next(s, a).procs[a.t])
  {
  }

  lemma StepActor(s: State, a: Action)
    requires Enabled(s, a) && !IsQuiet(s, a) && (a.t in s.procs ==> PcOk(s, s.procs[a.t]))
    requires s.nextCtx == s.nextCh && s.slot.cancel == s.slot.done && (s.slot.done.Some? ==> s.slot.done.value < s.nextCh)
    ensures a.t in Next(s, a).procs && PcOk(Next(s, a), Next(s, a).procs[a.t])
  {
    if ChangesSlot(a) {
      hide Next;
      StepSlotActor(s, a);
    }
  }

  lemma StepProcs(s: State, a: Action)
    requires Enabled(s, a) && !IsQuiet(s, a) && a.t in Next(s, a).procs
    ensures Next(s, a).procs ==
      if a.Launch? then s.procs[a.t := ConnectReturned(Started)][a.child := Polling(s.procs[a.t].run)]
      else if a.Relaunch? then s.procs[a.t := Closing(s.procs[a.t].run)][a.child := Polling(s.procs[a.t].next)]
      else s.procs[a.t := Next(s, a).procs[a.t]]
  {
  }

  lemma StepPcs(s: State, a: Action, t: int)
    requires Enabled(s, a) && Ids(s) && Grows(s, Next(s, a)) && t in Next(s, a).procs
    ensures PcOk(Next(s, a), Next(s, a).procs[t])
  {
    hide Next;
    assert a.t in s.procs ==> PcOk(s, s.procs[a.t]);
    if IsQuiet(s, a) {
      StepQuietActor(s, a);
      QuietShared(s, a);
    } else {
      StepActor(s, a);
      StepProcs(s, a);
    }
    if t != a.t {
      PcOkGrows(s, Next(s, a), s.procs[if t in s.procs then t else a.t]);
    }
  }

  /** A run that finds its done gone from the slot lost it to a Disconnect or a Connect. */
  lemma LostTheSlot(s: State, t: int)
    requires Ids(s) && Sound(s, DutiesOf(s))
    requires t in s.procs && s.procs[t].Relocking? && s.slot.done != Some(s.procs[t].run.done)
    ensures var d := s.procs[t].run.done; d in s.fate && !s.fate[d].Succeeded?
  {
    var d := s.procs[t].run.done;
    assert PcOk(s, s.procs[t]);
    assert Fates(s.nextCh, s.fate, s.slot.done, DutiesOf(s));
    assert d in At(DutiesOf(s), t).pristine;
  }

  lemma StepSilent(s: State, a: Action)
    requires Enabled(s, a) && SilentOk(s) && Grows(s, Next(s, a))
    requires a.Reconnect? && s.slot.done != Some(s.procs[a.t].run.done) ==>
      s.procs[a.t].run.done in s.fate && !s.fate[s.procs[a.t].run.done].Succeeded?
    ensures SilentOk(Next(s, a))
  {
    assert Next(s, a).silent == if a.Reconnect? && s.slot.done != Some(s.procs[a.t].run.done)
      then s.silent[s.procs[a.t].run.line := s.procs[a.t].run.done] else s.silent;
  }

  lemma StepLoggedOut(s: State, a: Action)
    requires Enabled(s, a) && LoggedOutOk(s) && (a.t in s.procs ==> PcOk(s, s.procs[a.t]))
    ensures LoggedOutOk(Next(s, a))
  {
  }

  lemma StepCancelled(s: State, a: Action)
    requires Enabled(s, a) && CancelledOk(s) && (a.t in s.procs ==> PcOk(s, s.procs[a.t])) && Grows(s, Next(s, a))
    ensures CancelledOk(Next(s, a))
  {
    assert Next(s, a).cancelled == if a.CallCancel? then s.cancelled + {s.procs[a.t].job.ctx} else s.cancelled;
  }

  lemma KeepInv(s: State, a: Action)
    requires Inv(s) && Enabled(s, a)
    ensures Inv(Next(s, a))
  {
    hide Sound, Next, DutiesOf;
    KeepSound(s, a);
    FateIsFinal(s);
    StepGrows(s, a);
    StepPairs(s, a);
    forall t | t in Next(s, a).procs ensures PcOk(Next(s, a), Next(s, a).procs[t]) { StepPcs(s, a, t); }
    assert a.t in s.procs ==> PcOk(s, s.procs[a.t]);
    if a.Reconnect? && s.slot.done != Some(s.procs[a.t].run.done) { LostTheSlot(s, a.t); }
    StepSilent(s, a);
    StepLoggedOut(s, a);
    StepCancelled(s, a);
  }
}
