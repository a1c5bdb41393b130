/** Crash atomicity of file storage. */
module StorageTheorems {
  import opened Storage

  /** What path holds after the installs, from the initial files. */
  function Contents(paths: map<string, Bytes>, installed: seq<Install>): map<string, Bytes>
    decreases |installed|
  {
    if installed == [] then paths
    else
      var last := installed[|installed| - 1];
      Contents(paths, installed[..|installed| - 1])[last.path := last.data]
  }

  predicate InCriticalSection(pc: Pc) { pc.Locked? || pc.DirReady? || HasTmp(pc) }

  predicate Installed(installed: seq<Install>, t: int) {
    exists k :: 0 <= k < |installed| && installed[k].caller == t
  }

  /** A call's own view: its temporary file holds a prefix of its data, all of it once
      written; it has installed its data exactly if it has returned nil. */
  ghost predicate ProcOk(s: State, t: int, pc: Pc) {
    && t in s.calls
    && (Installed(s.installed, t) <==> pc.Stored?)
    && (HasTmp(pc) ==> pc.tmp in s.temps && pc.tmp < s.nextTmp && pc.tmp !in s.lost)
    && (pc.Writing? ==> pc.n <= |s.calls[t].data| && s.temps[pc.tmp] == s.calls[t].data[..pc.n])
    && (pc.Written? || pc.Closed? ==> s.temps[pc.tmp] == s.calls[t].data)
    && (InCriticalSection(pc) ==> s.calls[t].file in s.held)
    && (pc.Failed? && pc.leak.Some? ==> pc.leak.value in s.lost)
  }

  ghost predicate Procs(s: State) {
    && (forall t :: t in s.procs ==> ProcOk(s, t, s.procs[t]))
    && (forall t, u | t in s.procs && u in s.procs && HasTmp(s.procs[t]) && HasTmp(s.procs[u]) ::
          s.procs[t].tmp == s.procs[u].tmp ==> t == u)
    && (forall t, u | t in s.procs && u in s.procs && InCriticalSection(s.procs[t]) && InCriticalSection(s.procs[u]) ::
          t in s.calls && u in s.calls && s.calls[t].file == s.calls[u].file ==> t == u)
  }

  ghost predicate Installs(init: map<string, Bytes>, s: State) {
    && s.paths == Contents(init, s.installed)
    && (forall k :: 0 <= k < |s.installed| ==>
          var i := s.installed[k];
          i.caller in s.calls && i.path == s.calls[i.caller].path && i.data == s.calls[i.caller].data)
    && (forall j, k | 0 <= j < |s.installed| && 0 <= k < |s.installed| :: s.installed[j].caller == s.installed[k].caller ==> j == k)
  }

  ghost predicate Temps(s: State) {
    && (forall d :: d in s.temps ==> d < s.nextTmp)
    && s.temps.Keys == s.lost + TempsOf(s.procs)
  }

  ghost predicate Inv(init: map<string, Bytes>, s: State) { Procs(s) && Installs(init, s) && Temps(s) }

  lemma InitInv(init: map<string, Bytes>)
    ensures Inv(init, Init(init))
  {
  }

  /** What a step of call t leaves to the other calls. */
  ghost predicate Local(s: State, r: State, t: int) { LocalPcs(s, r, t) && LocalFiles(s, r, t) }

  ghost predicate LocalPcs(s: State, r: State, t: int) {
    && (forall u :: u in s.procs || u == t <==> u in r.procs)
    && (forall u :: u in s.procs && u != t ==> r.procs[u] == s.procs[u])
    && (forall u :: u in s.calls ==> u in r.calls && r.calls[u] == s.calls[u])
    && (forall d :: Owns(r, t, d) ==> Owns(s, t, d) || d == s.nextTmp)
    && (InCritical(r, t) ==> InCritical(s, t) || (t in s.calls && s.calls[t].file !in s.held))
  }

  ghost predicate LocalFiles(s: State, r: State, t: int) {
    && (forall u :: u != t ==> (Installed(s.installed, u) <==> Installed(r.installed, u)))
    && (forall d :: d in s.temps && !Owns(s, t, d) ==> d in r.temps && r.temps[d] == s.temps[d])
    && (forall d :: d in r.lost ==> d in s.lost || Owns(s, t, d))
    && s.lost <= r.lost
    && (forall f :: f in s.held ==> f in r.held || (InCritical(s, t) && t in s.calls && f == s.calls[t].file))
    && s.nextTmp <= r.nextTmp
  }

  predicate Owns(s: State, t: int, d: nat) { t in s.procs && HasTmp(s.procs[t]) && s.procs[t].tmp == d }

  predicate InCritical(s: State, t: int) { t in s.procs && InCriticalSection(s.procs[t]) }

  lemma LocalKeeps(s: State, r: State, t: int)
    requires Procs(s) && Local(s, r, t) && ProcOk(r, t, r.procs[t])
    ensures Procs(r)
  {
    forall u | u in r.procs
      ensures ProcOk(r, u, r.procs[u])
    {
      if u != t { OthersKeep(s, r, t, u); }
    }
    hide ProcOk, Installed;
    forall u, v | u in r.procs && v in r.procs && HasTmp(r.procs[u]) && HasTmp(r.procs[v]) && r.procs[u].tmp == r.procs[v].tmp
      ensures u == v
    {
      assert Owns(r, u, r.procs[u].tmp) && Owns(r, v, r.procs[u].tmp);
      TempsDiffer(s, r, t, u, v);
    }
    forall u, v | u in r.procs && v in r.procs && InCriticalSection(r.procs[u]) && InCriticalSection(r.procs[v])
        && u in r.calls && v in r.calls && r.calls[u].file == r.calls[v].file
      ensures u == v
    {
      FilesDiffer(s, r, t, u, v);
    }
  }

  lemma TempsDiffer(s: State, r: State, t: int, u: int, v: int)
    requires Procs(s) && Local(s, r, t) && u in r.procs && v in r.procs
    requires HasTmp(r.procs[u]) && HasTmp(r.procs[v]) && r.procs[u].tmp == r.procs[v].tmp
    ensures u == v
  {
    hide Installed;
    assert u != t ==> ProcOk(s, u, s.procs[u]);
    assert v != t ==> ProcOk(s, v, s.procs[v]);
    if u == t { assert Owns(r, t, r.procs[u].tmp); }
    if v == t { assert Owns(r, t, r.procs[v].tmp); }
  }

  lemma FilesDiffer(s: State, r: State, t: int, u: int, v: int)
    requires Procs(s) && Local(s, r, t) && InCritical(r, u) && InCritical(r, v)
    requires u in r.calls && v in r.calls && r.calls[u].file == r.calls[v].file
    ensures u == v
  {
    hide Installed;
    assert u != t ==> ProcOk(s, u, s.procs[u]);
    assert v != t ==> ProcOk(s, v, s.procs[v]);
  }

  lemma OthersKeep(s: State, r: State, t: int, u: int)
    requires Procs(s) && Local(s, r, t) && u in s.procs && u != t
    ensures ProcOk(r, u, r.procs[u])
  {
    hide Installed;
    assert ProcOk(s, u, s.procs[u]);
    if HasTmp(s.procs[u]) { assert !Owns(s, t, s.procs[u].tmp); }
    if InCritical(s, u) && InCritical(s, t) && t in s.calls { assert s.calls[t].file != s.calls[u].file; }
  }

  lemma InstalledSnoc(installed: seq<Install>, i: Install, t: int)
    ensures Installed(installed + [i], t) <==> Installed(installed, t) || i.caller == t
  {
    var longer := installed + [i];
    if i.caller == t { assert longer[|installed|].caller == t; }
    forall k | 0 <= k < |installed| && installed[k].caller == t ensures Installed(longer, t) {
      assert longer[k].caller == t;
    }
  }

  predicate Acts(a: Action, t: int) { !a.Crash? && a.t == t }

  lemma InstalledAfter(s: State, a: Action)
    requires Enabled(s, a)
    ensures forall u :: Installed(Next(s, a).installed, u) <==> Installed(s.installed, u) || (a.Rename? && a.ok && u == a.t)
  {
    if a.Rename? && a.ok {
      var last := Next(s, a).installed[|s.installed|];
      forall u ensures Installed(Next(s, a).installed, u) <==> Installed(s.installed, u) || u == a.t {
        InstalledSnoc(s.installed, last, u);
      }
    }
  }

  lemma StepPcs(s: State, a: Action, t: int)
    requires Enabled(s, a) && Acts(a, t)
    ensures LocalPcs(s, Next(s, a), t)
  {
  }

  lemma StepFiles(s: State, a: Action, t: int)
    requires Enabled(s, a) && Acts(a, t) && Temps(s)
    ensures LocalFiles(s, Next(s, a), t)
  {
    InstalledAfter(s, a);
    assert s.nextTmp !in s.temps;
    hide Installed, TempsOf, Temps;
  }

  lemma StepOwn(s: State, a: Action, t: int)
    requires Enabled(s, a) && Acts(a, t) && Temps(s)
    requires if a.Begin? then !Installed(s.installed, t) else ProcOk(s, t, s.procs[t])
    ensures ProcOk(Next(s, a), t, Next(s, a).procs[t])
  {
    InstalledAfter(s, a);
    hide Installed;
    assert forall d :: d in s.temps || d in s.lost ==> d < s.nextTmp;
    hide TempsOf, Temps;
  }

  lemma StepKeepsProcs(init: map<string, Bytes>, s: State, a: Action)
    requires Inv(init, s) && Enabled(s, a)
    ensures Procs(Next(s, a))
  {
    if !a.Crash? {
      StepFiles(s, a, a.t);
      StepPcs(s, a, a.t);
      StepOwn(s, a, a.t);
      LocalKeeps(s, Next(s, a), a.t);
    }
  }

  /** Only a rename that succeeds replaces anything. */
  lemma StepRecord(s: State, a: Action)
    requires Enabled(s, a)
    ensures var r := Next(s, a);
      if a.Rename? && a.ok then
        var i := Install(a.t, s.calls[a.t].path, s.temps[s.procs[a.t].tmp]);
        s.procs[a.t].Closed? && r.installed == s.installed + [i] && r.paths == s.paths[i.path := i.data]
      else r.installed == s.installed && r.paths == s.paths
    ensures forall t :: t in s.calls ==> t in Next(s, a).calls && Next(s, a).calls[t] == s.calls[t]
  {
  }

  lemma InstallsKept(init: map<string, Bytes>, s: State, r: State)
    requires Installs(init, s) && r.installed == s.installed && r.paths == s.paths
    requires forall t :: t in s.calls ==> t in r.calls && r.calls[t] == s.calls[t]
    ensures Installs(init, r)
  {
    hide Contents;
  }

  lemma InstallsSnoc(init: map<string, Bytes>, s: State, r: State, i: Install)
    requires Installs(init, s) && r.installed == s.installed + [i] && r.paths == s.paths[i.path := i.data]
    requires forall t :: t in s.calls ==> t in r.calls && r.calls[t] == s.calls[t]
    requires i.caller in s.calls && i.path == s.calls[i.caller].path && i.data == s.calls[i.caller].data
    requires !Installed(s.installed, i.caller)
    ensures Installs(init, r)
  {
    assert r.installed[..|r.installed| - 1] == s.installed;
    assert Contents(init, r.installed) == Contents(init, s.installed)[i.path := i.data];
    hide Contents;
    assert forall k :: 0 <= k < |s.installed| ==> s.installed[k].caller != i.caller;
  }

  lemma StepKeepsInstalls(init: map<string, Bytes>, s: State, a: Action)
    requires Inv(init, s) && Enabled(s, a)
    ensures Installs(init, Next(s, a))
  {
    assert a.Rename? ==> ProcOk(s, a.t, s.procs[a.t]);
    StepRecord(s, a);
    hide Next, Enabled, Installs, Installed, Temps, Procs;
    var r := Next(s, a);
    if a.Rename? && a.ok {
      InstallsSnoc(init, s, r, r.installed[|s.installed|]);
    } else {
      InstallsKept(init, s, r);
    }
  }

  lemma TempsOfPut(procs: map<int, Pc>, t: int, pc: Pc)
    requires forall t, u | t in procs && u in procs && HasTmp(procs[t]) && HasTmp(procs[u]) ::
               procs[t].tmp == procs[u].tmp ==> t == u
    ensures TempsOf(procs[t := pc]) ==
            TempsOf(procs) - (if t in procs && HasTmp(procs[t]) then {procs[t].tmp} else {}) + (if HasTmp(pc) then {pc.tmp} else {})
  {
    var after := procs[t := pc];
    forall d | d in TempsOf(procs) && !(t in procs && HasTmp(procs[t]) && procs[t].tmp == d) ensures d in TempsOf(after) {
      var u :| u in procs && HasTmp(procs[u]) && procs[u].tmp == d;
      assert u in after && after[u] == procs[u];
    }
    if HasTmp(pc) { assert t in after && after[t] == pc; }
  }

  lemma StepTemps(s: State, a: Action)
    requires Enabled(s, a) && Temps(s) && !a.Crash?
    requires a.t in s.procs && HasTmp(s.procs[a.t]) ==> s.procs[a.t].tmp in TempsOf(s.procs) && s.procs[a.t].tmp !in s.lost
    requires TempsOf(Next(s, a).procs) == TempsOf(s.procs)
               - (if a.t in s.procs && HasTmp(s.procs[a.t]) then {s.procs[a.t].tmp} else {})
               + (if HasTmp(Next(s, a).procs[a.t]) then {Next(s, a).procs[a.t].tmp} else {})
    ensures Temps(Next(s, a))
  {
    hide TempsOf;
  }

  lemma StepKeepsTemps(init: map<string, Bytes>, s: State, a: Action)
    requires Inv(init, s) && Enabled(s, a)
    ensures Temps(Next(s, a))
  {
    if !a.Crash? {
      assert a.t in s.procs ==> ProcOk(s, a.t, s.procs[a.t]);
      TempsOfPut(s.procs, a.t, Next(s, a).procs[a.t]);
      StepTemps(s, a);
    }
  }

  lemma {:induction false} RunKeepsInv(init: map<string, Bytes>, s: State, acts: seq<Action>)
    requires Inv(init, s) && Runnable(s, acts)
    ensures Inv(init, After(s, acts))
    decreases |acts|
  {
    if acts != [] {
      StepKeepsProcs(init, s, acts[0]);
      StepKeepsInstalls(init, s, acts[0]);
      StepKeepsTemps(init, s, acts[0]);
      RunKeepsInv(init, Next(s, acts[0]), acts[1..]);
    }
  }

  lemma Reach(init: map<string, Bytes>, acts: seq<Action>)
    requires Runnable(Init(init), acts)
    ensures Inv(init, After(Init(init), acts))
  {
    InitInv(init);
    RunKeepsInv(init, Init(init), acts);
  }

  predicate Touches(installed: seq<Install>, path: string) {
    exists k :: 0 <= k < |installed| && installed[k].path == path
  }

  lemma {:induction false} LastInstallWins(init: map<string, Bytes>, installed: seq<Install>, path: string)
    ensures var now := Contents(init, installed);
      if Touches(installed, path) then
        path in now
        && (exists k :: 0 <= k < |installed| && installed[k].path == path && installed[k].data == now[path]
              && forall j :: k < j < |installed| ==> installed[j].path != path)
      else (path in now <==> path in init) && (path in init ==> now[path] == init[path])
    decreases |installed|
  {
    if installed != [] {
      var n := |installed| - 1;
      var prior := installed[..n];
      LastInstallWins(init, prior, path);
      if installed[n].path == path {
        assert Contents(init, installed)[path] == installed[n].data;
      } else {
        assert Touches(prior, path) <==> Touches(installed, path) by {
          if k: nat :| k < |installed| && installed[k].path == path { assert prior[k].path == path; }
        }
        if Touches(prior, path) {
          var k :| 0 <= k < |prior| && prior[k].path == path && prior[k].data == Contents(init, prior)[path]
            && forall j :: k < j < |prior| ==> prior[j].path != path;
          assert installed[k].path == path && forall j :: k < j < |installed| ==> installed[j].path != path;
        }
      }
    }
  }

  /**
   Crash atomicity. After any steps of any calls, crashes included, a path holds what it
   held at first if no call has replaced it, and otherwise the whole data of the last
   call that did.
   */
  lemma PathIsWhole(init: map<string, Bytes>, acts: seq<Action>, path: string)
    requires Runnable(Init(init), acts)
    ensures var s := After(Init(init), acts);
      if Touches(s.installed, path) then
        exists k :: 0 <= k < |s.installed| && Replaced(s, k, path)
          && forall j :: k < j < |s.installed| ==> s.installed[j].path != path
      else (path in s.paths <==> path in init) && (path in init ==> s.paths[path] == init[path])
  {
    var s := After(Init(init), acts);
    Reach(init, acts);
    LastInstallWins(init, s.installed, path);
    if Touches(s.installed, path) {
      var k :| 0 <= k < |s.installed| && s.installed[k].path == path && s.installed[k].data == s.paths[path]
        && forall j :: k < j < |s.installed| ==> s.installed[j].path != path;
      assert Replaced(s, k, path);
    }
  }

  /** The k-th replacement put at path the whole data of the call that made it, and the
      path holds it now. */
  predicate Replaced(s: State, k: nat, path: string) {
    && k < |s.installed|
    && s.installed[k].caller in s.calls
    && s.calls[s.installed[k].caller].path == path
    && path in s.paths
    && s.paths[path] == s.calls[s.installed[k].caller].data
  }

  /** A call that returned nil replaced its path once, with its own data; a call that
      returned an error, or has not returned, never did. */
  lemma NilMeansReplaced(init: map<string, Bytes>, acts: seq<Action>, t: int)
    requires Runnable(Init(init), acts)
    requires t in After(Init(init), acts).procs
    ensures var s := After(Init(init), acts);
      t in s.calls &&
      if s.procs[t].Stored? then
        exists k :: 0 <= k < |s.installed| && s.installed[k] == Install(t, s.calls[t].path, s.calls[t].data)
          && forall j :: 0 <= j < |s.installed| && j != k ==> s.installed[j].caller != t
      else forall j :: 0 <= j < |s.installed| ==> s.installed[j].caller != t
  {
    var s := After(Init(init), acts);
    Reach(init, acts);
    assert ProcOk(s, t, s.procs[t]);
    if s.procs[t].Stored? {
      var k :| 0 <= k < |s.installed| && s.installed[k].caller == t;
      assert s.installed[k] == Install(t, s.calls[t].path, s.calls[t].data);
    } else {
      forall j | 0 <= j < |s.installed| ensures s.installed[j].caller != t {
        assert !Installed(s.installed, t);
      }
    }
  }

  /** Replacements stay on record, and so do the calls that made them. */
  lemma {:induction false} RecordsLast(s: State, more: seq<Action>)
    requires Runnable(s, more)
    ensures var r := After(s, more);
      && |s.installed| <= |r.installed| && r.installed[..|s.installed|] == s.installed
      && forall t :: t in s.calls ==> t in r.calls && r.calls[t] == s.calls[t]
    decreases |more|
  {
    hide Enabled, Next;
    if more != [] {
      StepRecord(s, more[0]);
      RecordsLast(Next(s, more[0]), more[1..]);
      assert After(s, more).installed[..|s.installed|] == After(s, more).installed[..|Next(s, more[0]).installed|][..|s.installed|];
    }
  }

  /** The call has failed, or a crash ended it. */
  predicate Over(s: State, t: int) { t in s.calls && (t in s.procs ==> s.procs[t].Failed?) }

  lemma OverStep(s: State, a: Action, t: int)
    requires Enabled(s, a) && Over(s, t)
    ensures Over(Next(s, a), t)
    ensures Installed(Next(s, a).installed, t) <==> Installed(s.installed, t)
  {
    InstalledAfter(s, a);
  }

  lemma {:induction false} OverStays(s: State, more: seq<Action>, t: int)
    requires Runnable(s, more) && Over(s, t)
    ensures Installed(After(s, more).installed, t) <==> Installed(s.installed, t)
    decreases |more|
  {
    hide Enabled, Next, Installed, Over;
    if more != [] {
      OverStep(s, more[0], t);
      OverStays(Next(s, more[0]), more[1..], t);
    }
  }

  lemma {:induction false} RunsJoin(s: State, acts: seq<Action>, more: seq<Action>)
    requires Runnable(s, acts) && Runnable(After(s, acts), more)
    ensures Runnable(s, acts + more) && After(s, acts + more) == After(After(s, acts), more)
    decreases |acts|
  {
    hide Enabled, Next;
    if acts == [] {
      assert acts + more == more;
    } else {
      RunsJoin(Next(s, acts[0]), acts[1..], more);
      assert (acts + more)[1..] == acts[1..] + more;
    }
  }

  /** And that is final, whatever happens later, crashes included: of a call that has
      returned nil the replacement stays on record, its only one; a call that has failed,
      or was ended by a crash before it replaced its path, never will. */
  lemma ReturnIsFinal(init: map<string, Bytes>, acts: seq<Action>, more: seq<Action>, t: int)
    requires Runnable(Init(init), acts) && Runnable(After(Init(init), acts), more)
    ensures var s := After(Init(init), acts);
      var r := After(s, more);
      && (t in s.procs && s.procs[t].Stored? ==> t in s.calls)
      && (t in s.procs && s.procs[t].Stored? ==>
            exists k :: 0 <= k < |r.installed| && r.installed[k] == Install(t, s.calls[t].path, s.calls[t].data)
              && forall j :: 0 <= j < |r.installed| && j != k ==> r.installed[j].caller != t)
      && (Over(s, t) && !Installed(s.installed, t) ==> !Installed(r.installed, t))
  {
    var s := After(Init(init), acts);
    var r := After(s, more);
    RunsJoin(Init(init), acts, more);
    Reach(init, acts + more);
    RecordsLast(s, more);
    if Over(s, t) { OverStays(s, more, t); }
    if t in s.procs && s.procs[t].Stored? {
      NilMeansReplaced(init, acts, t);
      var k :| 0 <= k < |s.installed| && s.installed[k] == Install(t, s.calls[t].path, s.calls[t].data);
      assert r.installed[..|s.installed|][k] == s.installed[k];
    }
  }

  /** What LoadSession finds at path, in any reachable state: nothing exactly if there was
      nothing at first and no call has replaced it; else the first content, if no call
      has, or the whole data of the last call that did. */
  lemma LoadedIsWhole(init: map<string, Bytes>, acts: seq<Action>, path: string)
    requires Runnable(Init(init), acts)
    ensures var s := After(Init(init), acts);
      && (path !in s.paths <==> path !in init && !Touches(s.installed, path))
      && (path in s.paths ==> FromWholeCall(init, s, path, s.paths[path]))
  {
    PathIsWhole(init, acts, path);
  }

  predicate FromWholeCall(init: map<string, Bytes>, s: State, path: string, data: Bytes) {
    if Touches(s.installed, path) then
      exists k :: 0 <= k < |s.installed| && Replaced(s, k, path) && s.calls[s.installed[k].caller].data == data
    else path in init && init[path] == data
  }

  /** Calls through one File value exclude each other. */
  lemma OneCallPerFile(init: map<string, Bytes>, acts: seq<Action>, t: int, u: int)
    requires Runnable(Init(init), acts)
    requires var s := After(Init(init), acts);
      && InCritical(s, t) && InCritical(s, u) && t in s.calls && u in s.calls && s.calls[t].file == s.calls[u].file
    ensures t == u
  {
    Reach(init, acts);
  }

  /** The temporary files that returned calls failed to remove. */
  function Leaks(procs: map<int, Pc>): set<nat> {
    set t | t in procs && Leaks1(procs[t]) :: procs[t].leak.value
  }

  predicate Leaks1(pc: Pc) { pc.Failed? && pc.leak.Some? }

  lemma LeaksPut(procs: map<int, Pc>, t: int, pc: Pc)
    requires t in procs ==> !Leaks1(procs[t])
    ensures Leaks(procs[t := pc]) == Leaks(procs) + if Leaks1(pc) then {pc.leak.value} else {}
  {
    var after := procs[t := pc];
    forall d | d in Leaks(procs) ensures d in Leaks(after) {
      var u :| u in procs && Leaks1(procs[u]) && procs[u].leak.value == d;
      assert u in after && after[u] == procs[u];
    }
    if Leaks1(pc) { assert t in after && after[t] == pc; }
  }

  lemma {:induction false} LostIsLeaked(s: State, acts: seq<Action>)
    requires Runnable(s, acts) && s.lost == Leaks(s.procs)
    requires forall i :: 0 <= i < |acts| ==> !acts[i].Crash?
    ensures After(s, acts).lost == Leaks(After(s, acts).procs)
    decreases |acts|
  {
    if acts != [] {
      assert !acts[0].Crash?;
      var r := Next(s, acts[0]);
      LeaksPut(s.procs, acts[0].t, r.procs[acts[0].t]);
      hide Leaks;
      LostIsLeaked(r, acts[1..]);
    }
  }

  /** Unless the process crashes, the only temporary files are those of calls still
      writing and those a returned call tried and failed to remove. */
  lemma TempsAreRemoved(init: map<string, Bytes>, acts: seq<Action>)
    requires Runnable(Init(init), acts)
    requires forall i :: 0 <= i < |acts| ==> !acts[i].Crash?
    ensures var s := After(Init(init), acts); s.temps.Keys == TempsOf(s.procs) + Leaks(s.procs)
  {
    Reach(init, acts);
    LostIsLeaked(Init(init), acts);
  }
}
