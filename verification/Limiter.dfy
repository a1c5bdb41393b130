/** The request limiter: reservations at least one interval apart. Times are
    nanoseconds; 0 is the zero time, which no clock reading precedes. */
module Limiter {
  import opened Common

  function Max(a: int, b: int): int { if a < b then b else a }

  /** The reservations that the arrivals get, in order. */
  function Slots(interval: nat, arrivals: seq<nat>): (slots: seq<int>)
    ensures |slots| == |arrivals|
    decreases |arrivals|
  {
    if arrivals == [] then []
    else
      var k := |arrivals| - 1;
      Slots(interval, arrivals[..k]) + [Max(NextFree(interval, arrivals[..k]), arrivals[k])]
  }

  /** The time from which the next reservation may be made. */
  function NextFree(interval: nat, arrivals: seq<nat>): int
    decreases |arrivals|
  {
    if arrivals == [] then 0
    else
      var k := |arrivals| - 1;
      Max(NextFree(interval, arrivals[..k]), arrivals[k]) + interval
  }

  /** newLimiter's interval: integer division of a second. */
  function Interval(rps: nat): nat
    requires rps >= 1
  {
    SECOND / rps
  }

  /** The limiter in place. arrivals and slots record the calls of wait so far. */
  class Limiter {
    const interval: nat
    var next: int
    ghost var arrivals: seq<nat>
    ghost var slots: seq<int>

    constructor (rps: nat)
      requires rps >= 1
      ensures interval == Interval(rps) && arrivals == [] && Valid()
    {
      interval, next := SECOND / rps, 0;
      arrivals, slots := [], [];
    }

    ghost predicate Valid()
      reads this
    {
      slots == Slots(interval, arrivals) && next == NextFree(interval, arrivals)
    }

    /** The locked part of wait at clock reading now; the caller then sleeps for d,
        and keeps its reservation even if that sleep is cancelled. */
    method Reserve(now: nat) returns (at: int, d: nat)
      requires Valid()
      modifies this
      ensures Valid() && arrivals == old(arrivals) + [now] && slots == old(slots) + [at]
      ensures at == now + d
    {
      if next < now {
        next := now;
      }
      at := next;
      next := at + interval;
      arrivals, slots := arrivals + [now], slots + [at];
      assert arrivals[..|arrivals| - 1] == old(arrivals);
      d := if at - now > 0 then at - now else 0;
    }
  }

  // The closed form

  lemma {:induction false} SlotAt(interval: nat, arrivals: seq<nat>, k: nat)
    requires k < |arrivals|
    ensures Slots(interval, arrivals)[k] == Max(NextFree(interval, arrivals[..k]), arrivals[k])
    ensures NextFree(interval, arrivals[..k + 1]) == Slots(interval, arrivals)[k] + interval
    decreases |arrivals|
  {
    var last := |arrivals| - 1;
    if k < last {
      SlotAt(interval, arrivals[..last], k);
      assert arrivals[..last][..k] == arrivals[..k] && arrivals[..last][..k + 1] == arrivals[..k + 1];
    } else {
      assert arrivals[..k + 1] == arrivals && arrivals[..k + 1][..k] == arrivals[..k];
    }
  }

  /** Reservation k is the maximum over i <= k of arrival i plus k - i intervals. */
  lemma {:induction false} ClosedForm(interval: nat, arrivals: seq<nat>, k: nat)
    requires k < |arrivals|
    ensures forall i :: 0 <= i <= k ==> arrivals[i] + (k - i) * interval <= Slots(interval, arrivals)[k]
    ensures exists i :: 0 <= i <= k && Slots(interval, arrivals)[k] == arrivals[i] + (k - i) * interval
  {
    var slots := Slots(interval, arrivals);
    SlotAt(interval, arrivals, k);
    if k == 0 {
      assert arrivals[..0] == [];
      assert slots[0] == arrivals[0] + (0 - 0) * interval;
    } else {
      SlotAt(interval, arrivals, k - 1);
      ClosedForm(interval, arrivals, k - 1);
      assert slots[k] == Max(slots[k - 1] + interval, arrivals[k]);
      forall i | 0 <= i <= k ensures arrivals[i] + (k - i) * interval <= slots[k] {
        if i < k { assert (k - i) * interval == (k - 1 - i) * interval + interval; }
      }
      if slots[k] == arrivals[k] {
        assert slots[k] == arrivals[k] + (k - k) * interval;
      } else {
        var i :| 0 <= i <= k - 1 && slots[k - 1] == arrivals[i] + (k - 1 - i) * interval;
        assert (k - i) * interval == (k - 1 - i) * interval + interval;
      }
    }
  }

  // Optimality

  /** A schedule that serves the arrivals in order, none early, an interval apart. */
  predicate Fifo(interval: nat, arrivals: seq<nat>, schedule: seq<int>) {
    && |schedule| == |arrivals|
    && (forall k :: 0 <= k < |schedule| ==> arrivals[k] <= schedule[k])
    && (forall k :: 0 < k < |schedule| ==> schedule[k - 1] + interval <= schedule[k])
  }

  /** The limiter's is one, ... */
  lemma {:induction false} SlotsAreFifo(interval: nat, arrivals: seq<nat>)
    ensures Fifo(interval, arrivals, Slots(interval, arrivals))
  {
    forall k | 0 <= k < |arrivals|
      ensures arrivals[k] <= Slots(interval, arrivals)[k]
      ensures k > 0 ==> Slots(interval, arrivals)[k - 1] + interval <= Slots(interval, arrivals)[k]
    {
      SlotAt(interval, arrivals, k);
      if k > 0 { SlotAt(interval, arrivals, k - 1); }
    }
  }

  /** ... and no other serves any request earlier. */
  lemma {:induction false} SlotsAreEarliest(interval: nat, arrivals: seq<nat>, schedule: seq<int>, k: nat)
    requires Fifo(interval, arrivals, schedule) && k < |arrivals|
    ensures Slots(interval, arrivals)[k] <= schedule[k]
  {
    SlotAt(interval, arrivals, k);
    if k == 0 {
      assert arrivals[..0] == [];
    } else {
      SlotAt(interval, arrivals, k - 1);
      SlotsAreEarliest(interval, arrivals, schedule, k - 1);
    }
  }

  // How many reservations fit in a second

  /** Reservations i to j - 1 all fall in the second that starts at from. */
  predicate InOneSecond(slots: seq<int>, i: nat, j: nat, from: int) {
    i <= j <= |slots| && forall k :: i <= k < j ==> from <= slots[k] < from + SECOND
  }

  /** The smallest integer not below a second divided by the interval. */
  function PerSecond(interval: nat): nat
    requires interval >= 1
  {
    (SECOND + interval - 1) / interval
  }

  lemma {:induction false} Spread(interval: nat, arrivals: seq<nat>, i: nat, j: nat)
    requires i <= j < |arrivals|
    ensures Slots(interval, arrivals)[i] + (j - i) * interval <= Slots(interval, arrivals)[j]
    decreases j
  {
    if i < j {
      Spread(interval, arrivals, i, j - 1);
      SlotsAreFifo(interval, arrivals);
      assert (j - i) * interval == (j - 1 - i) * interval + interval;
    }
  }

  lemma CeilingBound(interval: nat, n: nat)
    requires interval >= 1
    ensures n * interval < SECOND + interval <==> n <= PerSecond(interval)
  {
    var c := PerSecond(interval);
    assert c * interval <= SECOND + interval - 1 < c * interval + interval;
    if n <= c {
      assert n * interval <= c * interval;
    } else {
      assert n * interval >= (c + 1) * interval == c * interval + interval;
    }
  }

  /** Any second holds at most PerSecond reservations, whatever the arrivals, ... */
  lemma WindowBound(interval: nat, arrivals: seq<nat>, i: nat, j: nat, from: int)
    requires interval >= 1 && InOneSecond(Slots(interval, arrivals), i, j, from)
    ensures j - i <= PerSecond(interval)
  {
    if i < j {
      Spread(interval, arrivals, i, j - 1);
      assert (j - i) * interval == (j - 1 - i) * interval + interval;
      CeilingBound(interval, j - i);
    }
  }

  lemma Multiples(interval: nat, i: nat, k: nat)
    requires i <= k
    ensures (k - i) * interval <= k * interval
  {
    assert k * interval == (k - i) * interval + i * interval;
  }

  /** n calls that arrive together. */
  function AtOnce(n: nat): (arrivals: seq<nat>)
    ensures |arrivals| == n && forall i :: 0 <= i < n ==> arrivals[i] == 0
  {
    seq(n, _ => 0)
  }

  /** Calls arriving at once are served one interval after another. */
  lemma Burst(interval: nat, n: nat, k: nat)
    requires k < n
    ensures Slots(interval, AtOnce(n))[k] == k * interval
  {
    var arrivals := AtOnce(n);
    ClosedForm(interval, arrivals, k);
    var i :| 0 <= i <= k && Slots(interval, arrivals)[k] == arrivals[i] + (k - i) * interval;
    Multiples(interval, i, k);
    assert arrivals[0] + (k - 0) * interval <= Slots(interval, arrivals)[k];
  }

  /** ... and that many calls arriving at once do fill one. */
  lemma WindowFills(interval: nat)
    requires interval >= 1
    ensures InOneSecond(Slots(interval, AtOnce(PerSecond(interval))), 0, PerSecond(interval), 0)
  {
    var n := PerSecond(interval);
    var slots := Slots(interval, AtOnce(n));
    forall k: nat | k < n ensures 0 <= slots[k] < SECOND {
      Burst(interval, n, k);
      CeilingBound(interval, k + 1);
      Multiples(interval, k, k);
      assert (k + 1) * interval == k * interval + interval;
    }
  }

  /** No second ever holds more than rps reservations. */
  ghost predicate CapHolds(rps: nat)
    requires rps >= 1
  {
    forall arrivals: seq<nat>, i: nat, j: nat, from: int :: InOneSecond(Slots(Interval(rps), arrivals), i, j, from) ==> j - i <= rps
  }

  lemma IntervalPositive(rps: nat)
    requires 1 <= rps <= SECOND
    ensures Interval(rps) >= 1
    ensures Interval(rps) * rps + SECOND % rps == SECOND
  {
  }

  /** The bound is rps exactly when rps divides a second, and at most one more when
      rps * rps does not exceed a second in nanoseconds. */
  lemma {:induction false} PerSecondVsRps(rps: nat)
    requires 1 <= rps <= SECOND
    ensures Interval(rps) >= 1 && PerSecond(Interval(rps)) >= rps
    ensures PerSecond(Interval(rps)) == rps <==> SECOND % rps == 0
    ensures rps * rps <= SECOND ==> PerSecond(Interval(rps)) <= rps + 1
  {
    IntervalPositive(rps);
    var q, r := Interval(rps), SECOND % rps;
    CeilingBound(q, rps);
    CeilingBound(q, rps + 1);
    CeilingBound(q, rps + 2);
    assert rps * q == q * rps && (rps + 1) * q == q * rps + q && (rps + 2) * q == q * rps + 2 * q;
    assert q < rps ==> q * rps <= (rps - 1) * rps == rps * rps - rps;
  }

  /** Above one request a nanosecond the interval is 0 and nothing is limited. */
  lemma NoIntervalNoLimit(rps: nat)
    requires rps > SECOND
    ensures Interval(rps) == 0 && InOneSecond(Slots(0, AtOnce(rps + 1)), 0, rps + 1, 0)
  {
    var slots := Slots(0, AtOnce(rps + 1));
    forall k: nat | k < rps + 1 ensures slots[k] == 0 { Burst(0, rps + 1, k); }
  }

  /** The documented cap of rps requests per second is kept exactly when rps divides
      a second; otherwise some second holds more. */
  lemma CapHoldsIff(rps: nat)
    requires rps >= 1
    ensures CapHolds(rps) <==> SECOND % rps == 0
  {
    var interval := Interval(rps);
    if rps > SECOND {
      NoIntervalNoLimit(rps);
      assert InOneSecond(Slots(Interval(rps), AtOnce(rps + 1)), 0, rps + 1, 0);
      return;
    }
    PerSecondVsRps(rps);
    if SECOND % rps == 0 {
      forall arrivals: seq<nat>, i: nat, j: nat, from: int | InOneSecond(Slots(interval, arrivals), i, j, from) ensures j - i <= rps {
        WindowBound(interval, arrivals, i, j, from);
      }
    } else {
      var n := PerSecond(interval);
      WindowFills(interval);
      var arrivals := AtOnce(n);
      assert InOneSecond(Slots(interval, arrivals), 0, n, 0);
    }
  }

  /** With the default of 3 requests per second a second can hold 4. */
  lemma DefaultHoldsFour()
    ensures PerSecond(Interval(3)) == 4 && !CapHolds(3)
    ensures InOneSecond(Slots(Interval(3), [0, 0, 0, 0]), 0, 4, 0)
  {
    CapHoldsIff(3);
    WindowFills(Interval(3));
    assert AtOnce(4) == [0, 0, 0, 0];
  }
}
