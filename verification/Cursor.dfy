/**
 What a long poller may do, stated on its observable history: the log of server
 fetches, poll requests, sleeps and deliveries over any number of Runs. The cursor
 is a fold over the answers in the log; Accepts says which entry may follow.
 */
module Cursor {
  import opened Common
  import opened Errors
  import Decoder

  datatype Server = Server(key: string, url: string, ts: string, pts: string)

  datatype Response = Response(ts: string, pts: string, updates: seq<Decoder.Json>, failed: int)

  /** What a poll request carries. */
  datatype Request = Request(key: string, url: string, ts: string)

  datatype Entry =
    | Started
    | Checked(ctx: Option<Error>)
    | Fetched(server: Result<Server, Error>)
    | Polled(req: Request, resp: Result<Response, Error>)
    | Slept(delay: int, woke: Option<Error>)
    | Handled(event: Decoder.Event)
    | Returned(error: Error)

  // The fold

  /** key, url, ts and pts are what the next request and the accessors show; fetched
      says whether there is a server at all; refetch is set while a failure code asks
      for a new server, and keep says that the ts survives it; streak counts the
      consecutive failures, waited the time slept since the streak began. */
  datatype Position = Position(
    fetched: bool,
    key: string,
    url: string,
    ts: string,
    pts: string,
    refetch: bool,
    keep: bool,
    streak: nat,
    waited: int)

  const Fresh := Position(false, "", "", "", "", false, false, 0, 0)

  function Latest(was: string, seen: string): string { if seen != "" then seen else was }

  function Calm(p: Position): Position { p.(streak := 0, waited := 0) }

  function Move(p: Position, e: Entry): Position {
    match e
    case Started => Calm(p).(refetch := false, keep := false)
    case Fetched(Err(_)) => p.(streak := p.streak + 1)
    case Fetched(Ok(s)) =>
      (if p.refetch then Calm(p) else p).(
        fetched := true, key := s.key, url := s.url,
        ts := if p.keep && p.ts != "" then p.ts else s.ts,
        pts := Latest(p.pts, s.pts), refetch := false, keep := false)
    case Polled(_, Err(_)) => p.(streak := p.streak + 1)
    case Polled(_, Ok(r)) =>
      if r.failed == 0 then Calm(p).(ts := r.ts, pts := Latest(p.pts, r.pts))
      else if r.failed == 1 then Calm(p).(ts := Latest(p.ts, r.ts))
      else Calm(p).(refetch := r.failed != 4, keep := r.failed == 2)
    case Slept(d, _) => p.(waited := p.waited + d)
    case _ => p
  }

  function At(log: seq<Entry>): Position
    decreases |log|
  {
    if log == [] then Fresh else Move(At(log[..|log| - 1]), log[|log| - 1])
  }

  // The delay between retries

  /** The delay before retry n, counted from 1: one second doubled up to six times. */
  function Delay(n: nat, cap: int): int
    requires n >= 1
  {
    var d := SECOND * Pow2(if n - 1 < 6 then n - 1 else 6);
    if d > cap then cap else d
  }

  // What may come next

  /** Where Run is between two entries. */
  datatype Stage =
    | Outside
    | Head
    | Ready
    | Checking
    | Backing
    | Delivering(rest: seq<Decoder.Json>)
    | Refetching
    | Ending(error: Error)

  function StageAfter(p: Position, st: Stage, e: Entry): Stage {
    match e
    case Started => Head
    case Checked(Some(err)) => Ending(err)
    case Checked(None) => if st == Checking then Backing else Ready
    case Fetched(Err(err)) => if Fatal(err) then Ending(err) else Backing
    case Fetched(Ok(_)) => if p.refetch then Head else Ready
    case Polled(_, Err(_)) => Checking
    case Polled(_, Ok(r)) =>
      if r.failed == 0 then Delivering(r.updates)
      else if r.failed == 1 then Head
      else if r.failed == 4 then Ending(BadVersion)
      else Refetching
    case Slept(_, Some(err)) => Ending(err)
    case Slept(_, None) => if p.refetch then Refetching else Head
    case Handled(_) =>
      if st.Delivering? && |st.rest| > 1 then Delivering(st.rest[1..]) else Head
    case Returned(_) => Outside
  }

  /** A batch with nothing (left) in it is over. */
  function Settle(st: Stage): Stage {
    if st.Delivering? && st.rest == [] then Head else st
  }

  function StageOf(log: seq<Entry>): Stage
    decreases |log|
  {
    if log == [] then Outside
    else Settle(StageAfter(At(log[..|log| - 1]), StageOf(log[..|log| - 1]), log[|log| - 1]))
  }

  predicate Allowed(cap: int, p: Position, st: Stage, e: Entry) {
    match e
    case Started => st == Outside
    case Checked(_) => st == Head || st == Checking
    case Fetched(_) => (st == Ready && !p.fetched) || st == Refetching
    case Polled(q, _) => st == Ready && p.fetched && q == Request(p.key, p.url, p.ts)
    case Slept(d, _) => st == Backing && p.streak >= 1 && d == Delay(p.streak, cap)
    case Handled(ev) => st.Delivering? && |st.rest| > 0 && ev == Decoder.Decode(st.rest[0])
    case Returned(err) => st == Ending(err)
  }

  predicate Accepts(cap: int, log: seq<Entry>)
    decreases |log|
  {
    log == [] ||
    var before := log[..|log| - 1];
    Accepts(cap, before) && Allowed(cap, At(before), StageOf(before), log[|log| - 1])
  }

  /** Adding one allowed entry. */
  lemma Extend(cap: int, log: seq<Entry>, e: Entry)
    requires Accepts(cap, log) && Allowed(cap, At(log), StageOf(log), e)
    ensures Accepts(cap, log + [e])
    ensures At(log + [e]) == Move(At(log), e)
    ensures StageOf(log + [e]) == Settle(StageAfter(At(log), StageOf(log), e))
  {
    assert (log + [e])[..|log|] == log;
  }
}
