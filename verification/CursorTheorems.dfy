/** What every history that Cursor accepts has to satisfy. */
module CursorTheorems {
  import opened Common
  import opened Errors
  import opened Cursor
  import Decoder

  /** Any prefix of an accepted history is accepted, and what follows it is allowed. */
  lemma {:induction false} Prefix(cap: int, log: seq<Entry>, i: nat)
    requires Accepts(cap, log) && i <= |log|
    ensures Accepts(cap, log[..i])
    ensures i < |log| ==>
      && Allowed(cap, At(log[..i]), StageOf(log[..i]), log[i])
      && log[..i + 1] == log[..i] + [log[i]]
      && At(log[..i + 1]) == Move(At(log[..i]), log[i])
      && StageOf(log[..i + 1]) == Settle(StageAfter(At(log[..i]), StageOf(log[..i]), log[i]))
    decreases |log|
  {
    if i == |log| {
      assert log[..i] == log;
    } else if i == |log| - 1 {
      assert log[..i + 1] == log;
    } else {
      var shorter := log[..|log| - 1];
      Prefix(cap, shorter, i);
      assert shorter[..i] == log[..i] && shorter[..i + 1] == log[..i + 1];
    }
  }

  /** A refresh is pending exactly where Run is looking for a new server. */
  predicate Pending(p: Position, st: Stage) {
    && (st == Refetching ==> p.refetch)
    && (st == Head || st == Ready || st == Checking || st.Delivering? ==> !p.refetch)
    && (p.keep ==> p.refetch)
    && (st == Checking ==> p.streak > 0) && (st == Backing ==> p.streak > 0)
  }

  lemma {:induction false} PendingHolds(cap: int, log: seq<Entry>)
    requires Accepts(cap, log)
    ensures Pending(At(log), StageOf(log))
    decreases |log|
  {
    if log != [] {
      PendingHolds(cap, log[..|log| - 1]);
    }
  }

  // The cursor, from one request to the next

  predicate AsksForServer(r: Response) { r.failed != 0 && r.failed != 1 && r.failed != 4 }

  /** The request after q, given q's answer and the server fetched in between, if any. */
  function FollowingRequest(q: Request, resp: Result<Response, Error>, fetched: Option<Server>): Request {
    match resp
    case Err(_) => q
    case Ok(r) =>
      if r.failed == 0 then q.(ts := r.ts)
      else if r.failed == 1 then q.(ts := Latest(q.ts, r.ts))
      else if fetched.Some? && AsksForServer(r) then
        Request(fetched.value.key, fetched.value.url,
                if r.failed == 2 && q.ts != "" then q.ts else fetched.value.ts)
      else q
  }

  /** The server fetched last in log[i..j), if any. */
  function FetchedIn(log: seq<Entry>, i: nat, j: nat): Option<Server>
    requires i <= j <= |log|
    decreases j
  {
    if i == j then None
    else if log[j - 1].Fetched? && log[j - 1].server.Ok? then Some(log[j - 1].server.value)
    else FetchedIn(log, i, j - 1)
  }

  predicate NoneIn(log: seq<Entry>, i: nat, j: nat, polled: bool)
    requires i <= j <= |log|
  {
    forall m :: i <= m < j ==> if polled then !log[m].Polled? else !log[m].Started?
  }

  lemma {:induction false} Between(cap: int, log: seq<Entry>, i: nat, j: nat)
    requires Accepts(cap, log) && i < j <= |log| && log[i].Polled? && NoneIn(log, i + 1, j, true)
    ensures var p := At(log[..j]);
      var f := FetchedIn(log, i + 1, j);
      && p.fetched && Request(p.key, p.url, p.ts) == FollowingRequest(log[i].req, log[i].resp, f)
      && (p.refetch ==> f.None? && log[i].resp.Ok? && AsksForServer(log[i].resp.value)
                        && p.keep == (log[i].resp.value.failed == 2))
      && (log[i].resp.Ok? && AsksForServer(log[i].resp.value) && NoneIn(log, i + 1, j, false) ==>
            f.Some? || p.refetch)
    decreases j
  {
    hide Accepts, At, StageOf;
    if j == i + 1 {
      Prefix(cap, log, i);
      PendingHolds(cap, log[..i]) by { Prefix(cap, log, i); }
    } else {
      Between(cap, log, i, j - 1);
      Prefix(cap, log, j - 1);
      PendingHolds(cap, log[..j - 1]);
    }
  }

  /** Each poll request is determined by the one before it, its answer, and the server
      fetched in between: success takes the answer's ts, failed 1 a nonempty one,
      failed 2 a new key and server but its own nonempty ts through any number of
      failed attempts, failed 3 and unknown codes the new server's ts, and a failed
      poll is repeated as it was. Within one Run a new server that a code asks for has
      always been fetched by then. */
  lemma {:induction false} NextRequest(cap: int, log: seq<Entry>, i: nat, j: nat)
    requires Accepts(cap, log) && i < j < |log| && log[i].Polled? && log[j].Polled? && NoneIn(log, i + 1, j, true)
    ensures log[j].req == FollowingRequest(log[i].req, log[i].resp, FetchedIn(log, i + 1, j))
    ensures log[i].resp.Ok? && AsksForServer(log[i].resp.value) && NoneIn(log, i + 1, j, false) ==>
              FetchedIn(log, i + 1, j).Some?
  {
    hide Accepts, At, StageOf;
    Between(cap, log, i, j);
    Prefix(cap, log, j);
    PendingHolds(cap, log[..j]);
  }

  /** The first request of all uses the server fetched first. */
  lemma {:induction false} FirstRequest(cap: int, log: seq<Entry>, j: nat)
    requires Accepts(cap, log) && j < |log| && log[j].Polled? && NoneIn(log, 0, j, true)
    ensures FetchedIn(log, 0, j).Some?
    ensures var s := FetchedIn(log, 0, j).value; log[j].req == Request(s.key, s.url, s.ts)
  {
    hide Accepts, At, StageOf;
    BeforePolls(cap, log, j);
    Prefix(cap, log, j);
  }

  lemma {:induction false} BeforePolls(cap: int, log: seq<Entry>, j: nat)
    requires Accepts(cap, log) && j <= |log| && NoneIn(log, 0, j, true)
    ensures var p := At(log[..j]);
      var f := FetchedIn(log, 0, j);
      && p.fetched == f.Some? && !p.refetch && !p.keep
      && (f.Some? ==> p.key == f.value.key && p.url == f.value.url && p.ts == f.value.ts)
  {
    if j > 0 {
      hide Accepts, StageOf;
      BeforePolls(cap, log, j - 1);
      Prefix(cap, log, j - 1);
      PendingHolds(cap, log[..j - 1]);
    }
  }

  /** The pts an entry carries, empty if none. */
  function PtsOf(e: Entry): string {
    match e
    case Fetched(Ok(s)) => s.pts
    case Polled(_, Ok(r)) => if r.failed == 0 then r.pts else ""
    case _ => ""
  }

  /** pts is the last nonempty one seen. */
  lemma {:induction false} PtsIsLastSeen(log: seq<Entry>)
    ensures if At(log).pts == "" then forall i :: 0 <= i < |log| ==> PtsOf(log[i]) == ""
      else exists i :: 0 <= i < |log| && PtsOf(log[i]) == At(log).pts && forall j :: i < j < |log| ==> PtsOf(log[j]) == ""
    decreases |log|
  {
    if log != [] {
      var n := |log| - 1;
      PtsIsLastSeen(log[..n]);
      if PtsOf(log[n]) != "" {
        assert PtsOf(log[n]) == At(log).pts;
      } else if At(log).pts != "" {
        var i :| 0 <= i < n && PtsOf(log[..n][i]) == At(log[..n]).pts && forall j :: i < j < n ==> PtsOf(log[..n][j]) == "";
        forall j | i < j < |log| ensures PtsOf(log[j]) == "" {
          if j < n { assert PtsOf(log[..n][j]) == ""; }
        }
        assert PtsOf(log[i]) == At(log).pts;
      } else {
        forall i | 0 <= i < |log| ensures PtsOf(log[i]) == "" {
          if i < n { assert PtsOf(log[..n][i]) == ""; }
        }
      }
    }
  }

  // Delivery

  /** The updates of all successful answers, in order: what the cursor has moved past. */
  function Acknowledged(log: seq<Entry>): seq<Decoder.Json>
    decreases |log|
  {
    if log == [] then []
    else
      var e := log[|log| - 1];
      Acknowledged(log[..|log| - 1])
        + (if e.Polled? && e.resp.Ok? && e.resp.value.failed == 0 then e.resp.value.updates else [])
  }

  function Delivered(log: seq<Entry>): seq<Decoder.Event>
    decreases |log|
  {
    if log == [] then []
    else Delivered(log[..|log| - 1]) + (if log[|log| - 1].Handled? then [log[|log| - 1].event] else [])
  }

  function DecodeAll(us: seq<Decoder.Json>): seq<Decoder.Event> {
    seq(|us|, i requires 0 <= i < |us| => Decoder.Decode(us[i]))
  }

  function Undelivered(st: Stage): seq<Decoder.Json> {
    if st.Delivering? then st.rest else []
  }

  lemma DecodeAllAppend(us: seq<Decoder.Json>, vs: seq<Decoder.Json>)
    ensures DecodeAll(us + vs) == DecodeAll(us) + DecodeAll(vs)
  {
    hide Decoder.Decode;
  }

  /** One entry moves an event from undelivered to delivered, or adds a whole batch. */
  lemma DeliveryStep(cap: int, p: Position, st: Stage, e: Entry)
    requires Allowed(cap, p, st, e) && (st.Delivering? ==> st.rest != [])
    ensures var rest' := Undelivered(Settle(StageAfter(p, st, e)));
      if e.Handled? then [e.event] + DecodeAll(rest') == DecodeAll(Undelivered(st))
      else Undelivered(st) == [] && rest' == (if e.Polled? && e.resp.Ok? && e.resp.value.failed == 0 then e.resp.value.updates else [])
  {
    hide Decoder.Decode;
    if e.Handled? {
      var rest' := Undelivered(Settle(StageAfter(p, st, e)));
      assert st.rest == [st.rest[0]] + rest';
      DecodeAllAppend([st.rest[0]], rest');
    }
  }

  lemma {:induction false} Delivery(cap: int, log: seq<Entry>)
    requires Accepts(cap, log)
    ensures Delivered(log) + DecodeAll(Undelivered(StageOf(log))) == DecodeAll(Acknowledged(log))
    ensures StageOf(log).Delivering? ==> StageOf(log).rest != []
    decreases |log|
  {
    hide Decoder.Decode;
    if log != [] {
      var n := |log| - 1;
      var before, e := log[..n], log[n];
      Delivery(cap, before);
      DeliveryStep(cap, At(before), StageOf(before), e);
      var batch := if e.Polled? && e.resp.Ok? && e.resp.value.failed == 0 then e.resp.value.updates else [];
      assert Acknowledged(log) == Acknowledged(before) + batch;
      DecodeAllAppend(Acknowledged(before), batch);
      hide Allowed, StageAfter, DecodeAll, Acknowledged;
    }
  }

  /** Acknowledged means delivered, once and in order: except while a batch is being
      handed over, the events handled are exactly the decoded updates of all accepted
      responses; and during one they are all but the rest of that batch. */
  lemma {:induction false} AcknowledgedIsDelivered(cap: int, log: seq<Entry>)
    requires Accepts(cap, log)
    ensures !StageOf(log).Delivering? ==> Delivered(log) == DecodeAll(Acknowledged(log))
    ensures Delivered(log) + DecodeAll(Undelivered(StageOf(log))) == DecodeAll(Acknowledged(log))
  {
    hide Decoder.Decode;
    Delivery(cap, log);
    if !StageOf(log).Delivering? { assert DecodeAll(Undelivered(StageOf(log))) == []; }
  }

  // Backoff and exits

  function TotalDelay(n: nat, cap: int): int {
    if n == 0 then 0 else TotalDelay(n - 1, cap) + Delay(n, cap)
  }

  /** Failures that have been slept for. */
  predicate Waited(cap: int, p: Position, st: Stage) {
    && (st == Head || st == Ready || st == Refetching || st.Delivering? ==> p.waited == TotalDelay(p.streak, cap))
    && (st == Backing || st == Checking ==> p.streak >= 1 && p.waited == TotalDelay(p.streak - 1, cap))
  }

  lemma WaitedStep(cap: int, p: Position, st: Stage, e: Entry)
    requires Waited(cap, p, st) && Allowed(cap, p, st, e)
    ensures Waited(cap, Move(p, e), Settle(StageAfter(p, st, e)))
  {
    hide Delay, Fatal;
  }

  /** The time slept since the last decoded body (or the start of the Run) is that of
      the failures since then; a failure just seen has not been slept for yet. */
  lemma {:induction false} WaitedForStreak(cap: int, log: seq<Entry>)
    requires Accepts(cap, log)
    ensures Waited(cap, At(log), StageOf(log))
    decreases |log|
  {
    if log != [] {
      hide Waited, Move, Settle, StageAfter, Allowed;
      var n := |log| - 1;
      WaitedForStreak(cap, log[..n]);
      WaitedStep(cap, At(log[..n]), StageOf(log[..n]), log[n]);
    } else {
      assert Waited(cap, At(log), StageOf(log));
    }
  }

  lemma DelayGrows(n: nat, cap: int)
    requires n >= 1 && cap > 0
    ensures 0 < Delay(n, cap) <= Delay(n + 1, cap) <= cap
  {
    assert Pow2(6) == 64 && Pow2(5) == 32 && Pow2(4) == 16 && Pow2(3) == 8 && Pow2(2) == 4 && Pow2(1) == 2;
  }

  /** Under the default cap of 30 s: 1, 3, 7, 15, 31 s, then 30 s more each time. */
  lemma {:induction false} DefaultWait(n: nat)
    ensures TotalDelay(n, 30 * SECOND) ==
      SECOND * (if n <= 5 then Pow2(n) - 1 else 31 + 30 * (n - 5))
  {
    assert Pow2(6) == 64 && Pow2(5) == 32 && Pow2(4) == 16 && Pow2(3) == 8 && Pow2(2) == 4 && Pow2(1) == 2;
    if n > 0 { DefaultWait(n - 1); }
  }

  /** Run returns only for one of four reasons, which is the entry before. */
  lemma {:induction false} RunEndsFor(cap: int, log: seq<Entry>, i: nat)
    requires Accepts(cap, log) && i < |log| && log[i].Returned?
    ensures i > 0
    ensures match log[i - 1]
      case Checked(Some(e)) => e == log[i].error
      case Slept(_, Some(e)) => e == log[i].error
      case Fetched(Err(e)) => e == log[i].error && Fatal(e)
      case Polled(_, Ok(r)) => r.failed == 4 && log[i].error == BadVersion
      case _ => false
  {
    hide Accepts, At;
    Prefix(cap, log, i);
    if i > 0 { Prefix(cap, log, i - 1); }
  }

  /** After a fatal error from the server lookup nothing is sent and nobody sleeps:
      the next entry, if any, is the return of that error. */
  lemma {:induction false} FatalEndsRun(cap: int, log: seq<Entry>, i: nat)
    requires Accepts(cap, log) && i + 1 < |log|
    requires log[i].Fetched? && log[i].server.Err? && Fatal(log[i].server.error)
    ensures log[i + 1] == Returned(log[i].server.error)
  {
    hide Accepts, At, StageOf;
    Prefix(cap, log, i);
    Prefix(cap, log, i + 1);
  }
}
