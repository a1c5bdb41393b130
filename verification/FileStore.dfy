/**
 session/storage.go as written: File.StoreSession step by step on a file system whose
 operations may fail, and Memory with its copied buffers.
 */
module FileStore {
  import opened Common
  import opened Storage
  import T = StorageTheorems

  /** The operation that fails, if any, and for Write how much was written. */
  datatype Fault = NoFault | AtMkdir | AtCreate | AtChmod | AtWrite(n: nat) | AtClose | AtRename

  class FileSystem {
    var paths: map<string, Bytes>
    var temps: map<nat, Bytes>
    var nextTmp: nat
    const fault: Fault
    const removable: bool

    constructor (paths: map<string, Bytes>, fault: Fault, removable: bool)
      ensures this.paths == paths && temps == map[] && nextTmp == 0
      ensures this.fault == fault && this.removable == removable
    {
      this.paths, temps, nextTmp := paths, map[], 0;
      this.fault, this.removable := fault, removable;
    }

    predicate Shows(s: State)
      reads this
    {
      paths == s.paths && temps == s.temps && nextTmp == s.nextTmp
    }

    method CreateTemp() returns (d: nat, ok: bool)
      modifies this`temps, this`nextTmp
      ensures d == old(nextTmp) && ok == !fault.AtCreate?
      ensures if ok then temps == old(temps)[d := ""] && nextTmp == d + 1 else temps == old(temps) && nextTmp == old(nextTmp)
    {
      d, ok := nextTmp, !fault.AtCreate?;
      if ok { temps, nextTmp := temps[d := ""], d + 1; }
    }

    method Write(d: nat, data: Bytes) returns (n: nat, ok: bool)
      requires d in temps && temps[d] == ""
      modifies this`temps
      ensures n <= |data| && temps == old(temps)[d := data[..n]] && (ok ==> n == |data|) && ok == !fault.AtWrite?
    {
      n := if fault.AtWrite? && fault.n <= |data| then fault.n else |data|;
      temps := temps[d := data[..n]];
      ok := !fault.AtWrite?;
    }

    method Rename(d: nat, path: string) returns (ok: bool)
      requires d in temps
      modifies this`temps, this`paths
      ensures ok == !fault.AtRename?
      ensures if ok then paths == old(paths)[path := old(temps)[d]] && temps == old(temps) - {d}
              else paths == old(paths) && temps == old(temps)
    {
      ok := !fault.AtRename?;
      if ok { paths, temps := paths[path := temps[d]], temps - {d}; }
    }

    method Remove(d: nat)
      modifies this`temps
      ensures temps == if removable then old(temps) - {d} else old(temps)
    {
      if removable { temps := temps - {d}; }
    }
  }

  lemma {:induction false} Snoc(s: State, acts: seq<Action>, a: Action)
    requires Runnable(s, acts) && Enabled(After(s, acts), a)
    ensures Runnable(s, acts + [a]) && After(s, acts + [a]) == Next(After(s, acts), a)
    decreases |acts|
  {
    if acts != [] {
      assert (acts + [a])[1..] == acts[1..] + [a];
      Snoc(Next(s, acts[0]), acts[1..], a);
    }
  }

  class File {
    const path: string
    const id: int

    constructor (path: string, id: int)
      ensures this.path == path && this.id == id
    {
      this.path, this.id := path, id;
    }

    /**
     The call's effect, and that it is a run (acts) of the transition system from any
     state s that shows the same files and has this File unlocked.
     */
    method StoreSession(fs: FileSystem, data: Bytes, ghost s: State, ghost t: int) returns (ok: bool, ghost acts: seq<Action>)
      requires fs.Shows(s) && t !in s.calls && t !in s.procs && id !in s.held
      requires forall d :: d in fs.temps ==> d < fs.nextTmp
      modifies fs
      ensures ok <==> fs.fault.NoFault?
      ensures fs.paths == if ok then old(fs.paths)[path := data] else old(fs.paths)
      ensures ok || fs.removable ==> fs.temps == old(fs.temps)
      ensures Runnable(s, acts) && fs.Shows(After(s, acts))
      ensures var r := After(s, acts); t in r.procs && (if ok then r.procs[t].Stored? else r.procs[t].Failed?) && r.held == s.held
    {
      ghost var g;
      acts, g := Enter(s, t, Call(id, path, data), !fs.fault.AtMkdir?);
      hide Runnable, After;
      if fs.fault.AtMkdir? { return false, acts; }
      var d, created := fs.CreateTemp();
      acts, g := Do(s, acts, Storage.CreateTemp(t, created));
      if !created { return false, acts; }
      ok, acts, g := Replace(fs, d, data, s, acts, t);
      assert ok || fs.removable ==> fs.temps == old(fs.temps);
    }

    /** The rest of StoreSession, once it has its temporary file d. */
    method Replace(fs: FileSystem, d: nat, data: Bytes, ghost s: State, ghost before: seq<Action>, ghost t: int)
      returns (ok: bool, ghost acts: seq<Action>, ghost g: State)
      requires Runnable(s, before) && fs.Shows(After(s, before)) && d in fs.temps && fs.temps[d] == ""
      requires var r := After(s, before); At(r, t) && r.procs[t] == Writing(d, 0) && r.calls[t] == Call(id, path, data)
      modifies fs`temps, fs`paths
      ensures ok <==> !fs.fault.AtChmod? && !fs.fault.AtWrite? && !fs.fault.AtClose? && !fs.fault.AtRename?
      ensures fs.paths == if ok then old(fs.paths)[path := data] else old(fs.paths)
      ensures ok || fs.removable ==> fs.temps == old(fs.temps) - {d}
      ensures Runnable(s, acts) && g == After(s, acts) && fs.Shows(g)
      ensures t in g.procs && (if ok then g.procs[t].Stored? else g.procs[t].Failed?) && g.held == After(s, before).held - {id}
    {
      hide Runnable, After;
      acts := before;
      if fs.fault.AtChmod? {
        acts, g := Do(s, acts, Chmod(t));
        acts, g := Cleanup(fs, d, s, acts, t);
        return false, acts, g;
      }
      var n, written := fs.Write(d, data);
      acts, g := Fill(s, acts, t, n, written);
      if !written {
        acts, g := Cleanup(fs, d, s, acts, t);
        return false, acts, g;
      }
      assert data[..|data|] == data;
      acts, g := Do(s, acts, Close(t, !fs.fault.AtClose?));
      if fs.fault.AtClose? {
        acts, g := Cleanup(fs, d, s, acts, t);
        return false, acts, g;
      }
      var renamed := fs.Rename(d, path);
      acts, g := Do(s, acts, Storage.Rename(t, renamed));
      if !renamed {
        acts, g := Cleanup(fs, d, s, acts, t);
        return false, acts, g;
      }
      return true, acts, g;
    }

    method Cleanup(fs: FileSystem, d: nat, ghost s: State, ghost before: seq<Action>, ghost t: int)
      returns (ghost acts: seq<Action>, ghost g: State)
      requires Runnable(s, before) && fs.Shows(After(s, before))
      requires var r := After(s, before); At(r, t) && r.procs[t] == Removing(d)
      modifies fs`temps
      ensures fs.temps == if fs.removable then old(fs.temps) - {d} else old(fs.temps)
      ensures Runnable(s, acts) && g == After(s, acts) && fs.Shows(g)
      ensures t in g.procs && g.procs[t].Failed? && g.held == After(s, before).held - {After(s, before).calls[t].file}
    {
      fs.Remove(d);
      acts, g := Do(s, before, Storage.Remove(t, fs.removable));
    }

    /** What LoadSession finds: None is ErrNotFound. */
    function Found(fs: FileSystem): Option<Bytes>
      reads fs
    {
      if path in fs.paths then Some(fs.paths[path]) else None
    }

    /** In every state that calls and crashes can lead to, LoadSession finds nothing
        exactly if there never was anything, and otherwise the whole data of a call or
        the content from before all calls. */
    method LoadSession(fs: FileSystem, ghost init: map<string, Bytes>, ghost acts: seq<Action>) returns (data: Option<Bytes>)
      requires Runnable(Init(init), acts) && fs.Shows(After(Init(init), acts))
      ensures data == Found(fs)
      ensures data.None? <==> path !in init && !T.Touches(After(Init(init), acts).installed, path)
      ensures data.Some? ==> T.FromWholeCall(init, After(Init(init), acts), path, data.value)
    {
      T.LoadedIsWhole(init, acts, path);
      data := if path in fs.paths then Some(fs.paths[path]) else None;
    }

    /** The read-back: after a store that returned nil any File value of the path finds
        the data; after one that failed it finds what it found before. */
    method StoreAndLoad(other: File, fs: FileSystem, data: Bytes, ghost init: map<string, Bytes>, ghost acts: seq<Action>, ghost t: int)
      returns (ok: bool, found: Option<Bytes>)
      requires other.path == path && Runnable(Init(init), acts)
      requires var s := After(Init(init), acts); fs.Shows(s) && t !in s.calls && t !in s.procs && id !in s.held
      modifies fs
      ensures ok <==> fs.fault.NoFault?
      ensures found == if ok then Some(data) else old(other.Found(fs))
    {
      ghost var s := After(Init(init), acts);
      T.Reach(init, acts);
      ghost var own;
      ok, own := StoreSession(fs, data, s, t);
      T.RunsJoin(Init(init), acts, own);
      found := other.LoadSession(fs, init, acts + own);
    }
  }

  ghost method Do(s: State, before: seq<Action>, a: Action) returns (acts: seq<Action>, g: State)
    requires Runnable(s, before) && Enabled(After(s, before), a)
    ensures acts == before + [a] && Runnable(s, acts) && g == After(s, acts) == Next(After(s, before), a)
  {
    Snoc(s, before, a);
    acts := before + [a];
    g := After(s, acts);
  }

  ghost method Enter(s: State, t: int, call: Call, ok: bool) returns (acts: seq<Action>, g: State)
    requires t !in s.calls && t !in s.procs && call.file !in s.held
    ensures Runnable(s, acts) && g == After(s, acts)
    ensures g == s.(
              procs := s.procs[t := if ok then DirReady else Failed(None)],
              calls := s.calls[t := call],
              held := if ok then s.held + {call.file} else s.held)
  {
    acts := [];
    acts, g := Do(s, acts, Begin(t, call));
    acts, g := Do(s, acts, Lock(t));
    acts, g := Do(s, acts, Mkdir(t, ok));
    assert s.held == s.held + {call.file} - {call.file};
    assert s.procs[t := Queued][t := Locked][t := g.procs[t]] == s.procs[t := g.procs[t]];
  }

  ghost method Fill(s: State, before: seq<Action>, t: int, n: nat, ok: bool) returns (acts: seq<Action>, g: State)
    requires Runnable(s, before) && At(After(s, before), t)
    requires var r := After(s, before);
      r.procs[t].Writing? && r.procs[t].n == 0 && n <= |r.calls[t].data| && (ok ==> n == |r.calls[t].data|)
    ensures Runnable(s, acts) && g == After(s, acts)
    ensures var r := After(s, before);
      g == r.(
        procs := r.procs[t := if ok then Written(r.procs[t].tmp) else Removing(r.procs[t].tmp)],
        temps := r.temps[r.procs[t].tmp := r.calls[t].data[..n]])
  {
    acts, g := Do(s, before, Storage.Write(t, n));
    acts, g := Do(s, acts, WriteEnds(t, ok));
    assert g.procs == After(s, before).procs[t := g.procs[t]];
  }

  /** Memory. A nil buffer means no session; a copy of an empty buffer is nil. */
  class Memory {
    var data: array?<char>

    constructor ()
      ensures data == null
    {
      data := null;
    }

    function Held(): (r: Option<Bytes>)
      reads this, data
    {
      if data == null then None else Some(data[..])
    }

    /** What is kept is a copy: the caller's buffer is not shared. */
    method StoreSession(b: array<char>)
      modifies this
      ensures Held() == if b.Length == 0 then None else Some(old(b[..]))
      ensures data == null || fresh(data)
    {
      data := null;
      if b.Length > 0 { data := Copy(b); }
    }

    method LoadSession() returns (b: array?<char>)
      ensures (b == null) == Held().None?
      ensures b != null ==> fresh(b) && b[..] == Held().value
    {
      b := null;
      if data != null { b := Copy(data); }
    }
  }

  method Copy(a: array<char>) returns (b: array<char>)
    ensures fresh(b) && b[..] == a[..]
  {
    b := new char[a.Length](i requires 0 <= i < a.Length reads a => a[i]);
  }
}
