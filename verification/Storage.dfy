/**
 File storage: any number of StoreSession calls, through any number of File values
 (each with its own mutex), on a file system with atomic rename and unique temporary
 names, as a transition system whose processes can crash at any point.
 */
module Storage {
  import opened Common

  type Bytes = string

  /** A StoreSession call: the File value, its Path, the data. */
  datatype Call = Call(file: int, path: string, data: Bytes)

  datatype Pc =
    | Queued
    | Locked
    | DirReady
    | Writing(tmp: nat, n: nat)
    | Written(tmp: nat)
    | Closed(tmp: nat)
    | Removing(tmp: nat)
    | Stored
    | Failed(leak: Option<nat>)

  datatype Install = Install(caller: int, path: string, data: Bytes)

  /**
   paths and temps are the file system (a temporary file is named by a number);
   held are the locked File values. calls (every call ever made), installed (the
   renames that happened, in order) and lost (temporary files nobody will remove)
   are history.
   */
  datatype State = State(
    paths: map<string, Bytes>,
    temps: map<nat, Bytes>,
    held: set<int>,
    nextTmp: nat,
    procs: map<int, Pc>,
    calls: map<int, Call>,
    installed: seq<Install>,
    lost: set<nat>)

  function Init(paths: map<string, Bytes>): State {
    State(paths, map[], {}, 0, map[], map[], [], {})
  }

  datatype Action =
    | Begin(t: int, call: Call)
    | Lock(t: int)
    | Mkdir(t: int, ok: bool)
    | CreateTemp(t: int, ok: bool)
    | Chmod(t: int)
    | Write(t: int, more: nat)
    | WriteEnds(t: int, ok: bool)
    | Close(t: int, ok: bool)
    | Rename(t: int, ok: bool)
    | Remove(t: int, ok: bool)
    | Crash

  predicate At(s: State, t: int) { t in s.procs && t in s.calls }

  predicate Enabled(s: State, a: Action) {
    match a
    case Begin(t, _) => t !in s.calls && t !in s.procs
    case Lock(t) => At(s, t) && s.procs[t].Queued? && s.calls[t].file !in s.held
    case Mkdir(t, _) => At(s, t) && s.procs[t].Locked?
    case CreateTemp(t, _) => At(s, t) && s.procs[t].DirReady?
    case Chmod(t) => At(s, t) && s.procs[t].Writing? && s.procs[t].n == 0
    case Write(t, more) => At(s, t) && s.procs[t].Writing? && s.procs[t].n + more <= |s.calls[t].data|
    case WriteEnds(t, ok) => At(s, t) && s.procs[t].Writing? && (ok ==> s.procs[t].n == |s.calls[t].data|)
    case Close(t, _) => At(s, t) && s.procs[t].Written?
    case Rename(t, _) => At(s, t) && s.procs[t].Closed? && s.procs[t].tmp in s.temps
    case Remove(t, _) => At(s, t) && s.procs[t].Removing?
    case Crash => true
  }

  function Put(s: State, t: int, pc: Pc): State {
    s.(procs := s.procs[t := pc])
  }

  /** Leaves the critical section with a result. */
  function Return(s: State, t: int, pc: Pc): State
    requires At(s, t)
  {
    Put(s, t, pc).(held := s.held - {s.calls[t].file})
  }

  /** The temporary files of calls in progress. */
  function TempsOf(procs: map<int, Pc>): set<nat> {
    set t | t in procs && HasTmp(procs[t]) :: procs[t].tmp
  }

  predicate HasTmp(pc: Pc) { pc.Writing? || pc.Written? || pc.Closed? || pc.Removing? }

  /** Chmod failing leads to Removing; so does every later failure. */
  function Next(s: State, a: Action): State
    requires Enabled(s, a)
  {
    match a
    case Begin(t, call) => Put(s, t, Queued).(calls := s.calls[t := call])
    case Lock(t) => Put(s, t, Locked).(held := s.held + {s.calls[t].file})
    case Mkdir(t, ok) => if ok then Put(s, t, DirReady) else Return(s, t, Failed(None))
    case CreateTemp(t, ok) =>
      if ok then Put(s, t, Writing(s.nextTmp, 0)).(temps := s.temps[s.nextTmp := ""], nextTmp := s.nextTmp + 1)
      else Return(s, t, Failed(None))
    case Chmod(t) => Put(s, t, Removing(s.procs[t].tmp))
    case Write(t, more) =>
      var n := s.procs[t].n + more;
      Put(s, t, Writing(s.procs[t].tmp, n)).(temps := s.temps[s.procs[t].tmp := s.calls[t].data[..n]])
    case WriteEnds(t, ok) => Put(s, t, if ok then Written(s.procs[t].tmp) else Removing(s.procs[t].tmp))
    case Close(t, ok) => Put(s, t, if ok then Closed(s.procs[t].tmp) else Removing(s.procs[t].tmp))
    case Rename(t, ok) =>
      var tmp := s.procs[t].tmp;
      if ok then
        Return(s, t, Stored).(
          paths := s.paths[s.calls[t].path := s.temps[tmp]], temps := s.temps - {tmp},
          installed := s.installed + [Install(t, s.calls[t].path, s.temps[tmp])])
      else Put(s, t, Removing(tmp))
    case Remove(t, ok) =>
      var tmp := s.procs[t].tmp;
      if ok then Return(s, t, Failed(None)).(temps := s.temps - {tmp})
      else Return(s, t, Failed(Some(tmp))).(lost := s.lost + {tmp})
    case Crash => s.(procs := map[], held := {}, lost := s.lost + TempsOf(s.procs))
  }

  predicate Runnable(s: State, acts: seq<Action>)
    decreases |acts|
  {
    acts == [] || (Enabled(s, acts[0]) && Runnable(Next(s, acts[0]), acts[1..]))
  }

  function After(s: State, acts: seq<Action>): State
    requires Runnable(s, acts)
    decreases |acts|
  {
    if acts == [] then s else After(Next(s, acts[0]), acts[1..])
  }
}
