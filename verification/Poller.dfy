/** The long poll loop, in place, and that its history is one Cursor accepts. */
module Poller {
  import opened Common
  import opened Errors
  import opened Cursor
  import T = CursorTheorems
  import Decoder

  /** What the environment answers to one interaction; each reads the field it needs. */
  datatype Answer = Answer(
    ctx: Option<Error>,
    server: Result<Server, Error>,
    poll: Result<Response, Error>,
    sleep: Option<Error>)

  /**
   The environment of a poller: a finite tape of answers, after which the context is
   cancelled, and the history of what was done with it.
   */
  class World {
    const tape: seq<Answer>
    var pos: nat
    var log: seq<Entry>

    constructor (tape: seq<Answer>)
      ensures this.tape == tape && pos == 0 && log == []
    {
      this.tape := tape;
      pos, log := 0, [];
    }

    predicate InTape()
      reads this
    {
      pos <= |tape|
    }

    /** ctx.Err(). */
    method Check() returns (e: Option<Error>)
      requires InTape()
      modifies this
      ensures InTape() && log == old(log) + [Checked(e)]
      ensures if old(pos) == |tape| then e == Some(Canceled) && pos == old(pos)
              else e == tape[old(pos)].ctx && pos == old(pos) + 1
    {
      if pos == |tape| {
        e := Some(Canceled);
      } else {
        e := tape[pos].ctx;
        pos := pos + 1;
      }
      log := log + [Checked(e)];
    }

    /** messages.getLongPollServer; a response without key or server is an error. */
    method GetServer() returns (r: Result<Server, Error>)
      requires InTape()
      modifies this
      ensures InTape() && log == old(log) + [Fetched(r)]
      ensures if old(pos) == |tape| then r == Err(Canceled) && pos == old(pos) else pos == old(pos) + 1
      ensures r.Ok? ==> r.value.key != "" && r.value.url != ""
    {
      if pos == |tape| {
        r := Err(Canceled);
      } else {
        r := tape[pos].server;
        pos := pos + 1;
        if r.Ok? && (r.value.key == "" || r.value.url == "") {
          r := Err(Other);
        }
      }
      log := log + [Fetched(r)];
    }

    /** One poll request and its answer. */
    method Poll(q: Request) returns (r: Result<Response, Error>)
      requires InTape()
      modifies this
      ensures InTape() && log == old(log) + [Polled(q, r)]
      ensures if old(pos) == |tape| then r == Err(Canceled) && pos == old(pos) else pos == old(pos) + 1
    {
      if pos == |tape| {
        r := Err(Canceled);
      } else {
        r := tape[pos].poll;
        pos := pos + 1;
      }
      log := log + [Polled(q, r)];
    }

    method Sleep(d: int) returns (e: Option<Error>)
      requires InTape()
      modifies this
      ensures InTape() && log == old(log) + [Slept(d, e)]
      ensures if old(pos) == |tape| then e == Some(Canceled) && pos == old(pos) else pos == old(pos) + 1
    {
      if pos == |tape| {
        e := Some(Canceled);
      } else {
        e := tape[pos].sleep;
        pos := pos + 1;
      }
      log := log + [Slept(d, e)];
    }

    /** Records an entry that needs no answer. */
    method Note(e: Entry)
      modifies this
      ensures log == old(log) + [e] && pos == old(pos)
    {
      log := log + [e];
    }
  }

  class Poller {
    const cap: int
    const w: World
    var server: Option<Server>
    var ts: string
    var pts: string

    constructor (cap: int, w: World)
      requires cap > 0 && w.log == [] && w.InTape()
      ensures this.w == w && this.cap == cap && Valid() && Now() == Outside
    {
      this.cap, this.w := cap, w;
      server, ts, pts := None, "", "";
    }

    /** Where the history says the poller is. */
    function Now(): Stage
      reads w
    {
      StageOf(w.log)
    }

    function Place(): Position
      reads w
    {
      At(w.log)
    }

    /** The history is accepted, and its fold is what the fields hold. */
    predicate Valid()
      reads this, w
    {
      && cap > 0 && w.InTape() && Accepts(cap, w.log)
      && Holds(Place())
    }

    /** No refresh is pending. */
    predicate Settled()
      reads w
    {
      !Place().refetch && !Place().keep && Place().streak == 0
    }

    predicate Holds(p: Position)
      reads this
    {
      && p.fetched == server.Some? && p.ts == ts && p.pts == pts
      && (server.Some? ==> p.key == server.value.key && p.url == server.value.url)
    }

    /** The cached server with the current ts, or a new one when forced or missing.
        A new server's ts replaces the old one here; RefreshServer puts it back. */
    method EnsureServer(force: bool) returns (r: Result<Server, Error>)
      requires Valid() && (if force then Now() == Refetching && server.Some? else Now() == Ready)
      modifies this, w
      ensures w.InTape() && Accepts(cap, w.log)
      ensures if !force && old(server).Some? then w.log == old(w.log) && w.pos == old(w.pos)
              else w.log == old(w.log) + [Fetched(r)] && w.pos >= old(w.pos) && (w.pos > old(w.pos) || r == Err(Canceled))
      ensures r.Err? ==> server == old(server) && ts == old(ts) && pts == old(pts)
      ensures r.Ok? ==>
        && server.Some? && server.value.key == r.value.key && server.value.url == r.value.url && ts == r.value.ts
        && pts == (if !force && old(server).Some? then old(pts) else Latest(old(pts), r.value.pts))
      ensures !force && old(server).Some? ==> r.Ok? && ts == old(ts) && server == old(server)
    {
      if server.Some? && !force {
        return Ok(server.value.(ts := ts));
      }
      ghost var before := w.log;
      r := w.GetServer();
      Extend(cap, before, Fetched(r));
      if r.Err? {
        return;
      }
      server := Some(r.value);
      ts := r.value.ts;
      if r.value.pts != "" {
        pts := r.value.pts;
      }
    }

    /** Fetches a new server; the ts survives it when keepTS is set and it is not empty. */
    method RefreshServer(keepTS: bool) returns (e: Option<Error>)
      requires Valid() && Now() == Refetching && server.Some? && Place().refetch && Place().keep == keepTS
      modifies this, w
      ensures Valid() && server.Some?
      ensures w.pos >= old(w.pos) && (w.pos > old(w.pos) || e == Some(Canceled)) && |w.log| >= |old(w.log)|
      ensures e.None? ==> Now() == Head && Settled()
      ensures e.Some? ==> Now() == if Fatal(e.value) then Ending(e.value) else Backing
      ensures e.Some? ==> Place() == old(Place()).(streak := old(Place()).streak + 1)
    {
      var oldTS := ts;
      ghost var before := w.log;
      var r := EnsureServer(true);
      Extend(cap, before, Fetched(r));
      if r.Err? {
        return Some(r.error);
      }
      if keepTS && oldTS != "" {
        ts := oldTS;
      }
      return None;
    }

    /** Sleeps before retry n. */
    method Backoff(n: nat) returns (e: Option<Error>)
      requires Valid() && Now() == Backing && n >= 1 && n == Place().streak
      modifies w
      ensures Valid() && w.pos >= old(w.pos) && (w.pos > old(w.pos) || e == Some(Canceled)) && |w.log| >= |old(w.log)|
      ensures Now() == (if e.Some? then Ending(e.value) else if old(Place()).refetch then Refetching else Head)
      ensures Place() == old(Place()).(waited := Place().waited)
    {
      var d := SECOND * Pow2(if n - 1 < 6 then n - 1 else 6);
      if d > cap {
        d := cap;
      }
      ghost var before := w.log;
      e := w.Sleep(d);
      Extend(cap, before, Slept(d, e));
    }

    /** Retries until there is a new server, a fatal error or a failing sleep. */
    method RetryRefresh(keepTS: bool) returns (e: Option<Error>)
      requires Valid() && Now() == Refetching && server.Some?
      requires Place().refetch && Place().keep == keepTS && Place().streak == 0
      modifies this, w
      ensures Valid() && server.Some?
      ensures w.pos >= old(w.pos) && |w.log| >= |old(w.log)|
      ensures Now() == if e.Some? then Ending(e.value) else Head
      ensures e.None? ==> Settled()
    {
      hide At, StageOf, Accepts, Delay, Pow2;
      var attempt := 1;
      while true
        invariant Valid() && Now() == Refetching && server.Some?
        invariant Place().refetch && Place().keep == keepTS && Place().streak == attempt - 1
        invariant attempt >= 1 && w.pos >= old(w.pos) && |w.log| >= |old(w.log)|
        decreases |w.tape| - w.pos
      {
        ghost var before := w.log;
        e := RefreshServer(keepTS);
        if e.None? {
          return;
        }
        if Fatal(e.value) {
          return;
        }
        e := Backoff(attempt);
        if e.Some? {
          return;
        }
        attempt := attempt + 1;
      }
    }

    /** The recovery that a failure code asks for. */
    method HandleFailed(r: Response) returns (e: Option<Error>)
      requires w.InTape() && cap > 0 && Accepts(cap, w.log) && server.Some? && r.failed != 0
      requires |w.log| > 0 && w.log[|w.log| - 1].Polled? && w.log[|w.log| - 1].resp == Ok(r)
      requires Holds(At(w.log[..|w.log| - 1])) && !At(w.log[..|w.log| - 1]).refetch && !At(w.log[..|w.log| - 1]).keep
      modifies this, w
      ensures Valid() && server.Some?
      ensures w.pos >= old(w.pos) && |w.log| >= |old(w.log)|
      ensures Now() == if e.Some? then Ending(e.value) else Head
      ensures e.None? ==> Settled()
    {
      if r.failed == 1 {
        if r.ts != "" {
          ts := r.ts;
        }
        return None;
      } else if r.failed == 2 {
        e := RetryRefresh(true);
      } else if r.failed == 4 {
        return Some(BadVersion);
      } else {
        e := RetryRefresh(false);
      }
    }

    /** Hands the batch over, event by event; nothing can cut it short. */
    method Deliver(updates: seq<Decoder.Json>)
      requires Valid() && Now() == Settle(Delivering(updates)) && Place().streak == 0
      modifies w
      ensures Valid() && Now() == Head && Place() == old(Place()) && w.pos == old(w.pos) && |w.log| >= |old(w.log)|
    {
      hide Decoder.Decode;
      for i := 0 to |updates|
        invariant Valid() && Now() == Settle(Delivering(updates[i..])) && Place() == old(Place()) && w.pos == old(w.pos) && |w.log| >= |old(w.log)|
      {
        ghost var before := w.log;
        assert updates[i..][0] == updates[i] && updates[i..][1..] == updates[i + 1..];
        w.Note(Handled(Decoder.Decode(updates[i])));
        Extend(cap, before, Handled(Decoder.Decode(updates[i])));
      }
    }

    /** Polls until the context ends, a fatal error or failed 4. */
    method Run() returns (e: Error)
      requires Valid() && Now() == Outside
      modifies this, w
      ensures Valid() && Now() == Outside
      ensures |w.log| > |old(w.log)| && w.log[|w.log| - 1] == Returned(e)
      ensures T.Delivered(w.log) == T.DecodeAll(T.Acknowledged(w.log))
    {
      Extend(cap, w.log, Started);
      w.Note(Started);
      e := Loop();
      Extend(cap, w.log, Returned(e));
      w.Note(Returned(e));
      T.AcknowledgedIsDelivered(cap, w.log);
    }

    method Loop() returns (e: Error)
      requires Valid() && Now() == Head && Settled()
      modifies this, w
      ensures Valid() && Now() == Ending(e) && |w.log| >= |old(w.log)|
    {
      hide At, StageOf, Accepts, Delay, Pow2;
      var failures := 0;
      while true
        invariant Valid() && Now() == Head && |w.log| >= |old(w.log)|
        invariant !Place().refetch && !Place().keep && Place().streak == failures
        decreases |w.tape| - w.pos
      {
        ghost var l := w.log;
        var stop := w.Check();
        Extend(cap, l, Checked(stop));
        if stop.Some? {
          return stop.value;
        }
        l := w.log;
        var srv := EnsureServer(false);
        if srv.Err? {
          Extend(cap, l, Fetched(srv));
          if Fatal(srv.error) {
            return srv.error;
          }
          failures := failures + 1;
          var slept := Backoff(failures);
          if slept.Some? {
            return slept.value;
          }
          continue;
        }
        if w.log != l {
          Extend(cap, l, Fetched(srv));
        }
        l := w.log;
        var q := Request(srv.value.key, srv.value.url, srv.value.ts);
        var resp := w.Poll(q);
        Extend(cap, l, Polled(q, resp));
        if resp.Err? {
          failures := failures + 1;
          var slept := PollFailed(failures);
          if slept.Some? {
            return slept.value;
          }
          continue;
        }
        failures := 0;
        assert w.log[..|w.log| - 1] == l;
        var failed := OnResponse(resp.value);
        if failed.Some? {
          return failed.value;
        }
      }
    }

    /** A failed poll ends the run if the context has ended, else backs off. */
    method PollFailed(n: nat) returns (e: Option<Error>)
      requires Valid() && Now() == Checking && n >= 1 && n == Place().streak && !Place().refetch
      modifies w
      ensures Valid() && w.pos >= old(w.pos) && |w.log| >= |old(w.log)|
      ensures Now() == if e.Some? then Ending(e.value) else Head
      ensures Place() == old(Place()).(waited := Place().waited)
    {
      hide At, StageOf, Accepts, Delay, Pow2;
      ghost var before := w.log;
      e := w.Check();
      Extend(cap, before, Checked(e));
      if e.None? {
        e := Backoff(n);
      }
    }

    /** A decoded body: a failure code is handled, a batch acknowledged and delivered. */
    method OnResponse(r: Response) returns (e: Option<Error>)
      requires w.InTape() && cap > 0 && Accepts(cap, w.log) && server.Some?
      requires |w.log| > 0 && w.log[|w.log| - 1].Polled? && w.log[|w.log| - 1].resp == Ok(r)
      requires Holds(At(w.log[..|w.log| - 1])) && !At(w.log[..|w.log| - 1]).refetch && !At(w.log[..|w.log| - 1]).keep
      modifies this, w
      ensures Valid() && w.pos >= old(w.pos) && |w.log| >= |old(w.log)|
      ensures Now() == if e.Some? then Ending(e.value) else Head
      ensures e.None? ==> Settled()
    {
      if r.failed != 0 {
        e := HandleFailed(r);
        return;
      }
      ts := r.ts;
      if r.pts != "" {
        pts := r.pts;
      }
      Deliver(r.updates);
      return None;
    }
  }
}
