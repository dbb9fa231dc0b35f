/**
 The two exponential backoffs (chains/evm/rpc_client.go, database/store_notification_outbox.go)
 and the bounded retry loop around RPC calls.  Durations are int64 nanoseconds.
 */
module Backoff {
  import opened Basics

  lemma {:induction false} Pow2Grows(a: nat, b: nat)
    requires a <= b
    ensures Pow2(a) <= Pow2(b)
    decreases b
  {
    if a < b { Pow2Grows(a, b - 1); }
  }

  lemma ScaleGrows(base: int, a: nat, b: nat)
    requires base > 0 && a <= b
    ensures 0 < base * Pow2(a) <= base * Pow2(b)
  {
    Pow2Grows(a, b);
    assert base * (Pow2(b) - Pow2(a)) >= 0;
    assert base * Pow2(a) >= base by { assert base * (Pow2(a) - 1) >= 0; }
  }

  lemma ScaleDoubles(base: int, a: nat)
    ensures base * Pow2(a + 1) == 2 * (base * Pow2(a))
  {
  }

  // ---------- the RPC client's doubling loop ----------

  function RpcDelayFrom(delay: int, max: int, left: nat): int
    decreases left
  {
    if left == 0 then (if delay > max then max else delay)
    else
      var doubled := Wrap64(delay * 2);
      if doubled >= max then max else RpcDelayFrom(doubled, max, left - 1)
  }

  function RpcDelay(base: int, max: int, attempt: nat): int {
    RpcDelayFrom(base, max, attempt)
  }

  method RetryDelay(base: int, max: int, attempt: nat) returns (r: int)
    ensures r == RpcDelay(base, max, attempt)
  {
    var delay := base;
    var i := 0;
    while i < attempt
      invariant 0 <= i <= attempt
      invariant RpcDelayFrom(delay, max, attempt - i) == RpcDelay(base, max, attempt)
    {
      delay := Wrap64(delay * 2);
      if delay >= max {
        return max;
      }
      i := i + 1;
    }
    if delay > max {
      return max;
    }
    r := delay;
  }

  /** The capped power of two that the loop stands for. */
  function Capped(base: int, max: int, attempt: nat): int {
    Min(base * Pow2(attempt), max)
  }

  /** Some doubling reaches max while it still fits int64. */
  ghost predicate ReachesCap(base: int, max: int) {
    exists j: nat :: j >= 1 && max <= base * Pow2(j) < TWO_63
  }

  lemma {:induction false} RpcDelayFromExact(base: int, max: int, i: nat, attempt: nat, j: nat)
    requires 0 < base && 0 < max && i <= attempt && 1 <= j && base * Pow2(j) < TWO_63
    requires max <= base * Pow2(j) || attempt <= j
    requires i == 0 || base * Pow2(i) < max
    ensures RpcDelayFrom(base * Pow2(i), max, attempt - i) == Capped(base, max, attempt)
    decreases attempt - i
  {
    if i < attempt {
      ScaleDoubles(base, i);
      if i + 1 > j { ScaleGrows(base, j, i); }
      ScaleGrows(base, i + 1, j);
      ScaleGrows(base, i + 1, attempt);
      if base * Pow2(i + 1) < max { RpcDelayFromExact(base, max, i + 1, attempt, j); }
    }
  }

  /** The first doubling that reaches max, when it no longer fits, comes out negative. */
  lemma {:induction false} RpcDelayFromBreaks(base: int, max: int, i: nat, j: nat)
    requires 0 < base < TWO_63 && 0 < max && i < j
    requires base * Pow2(j) >= TWO_63 && base * Pow2(j - 1) < TWO_63
    requires forall k: nat :: 1 <= k < j ==> base * Pow2(k) < max
    ensures RpcDelayFrom(base * Pow2(i), max, j - i) < 0
    decreases j - i
  {
    ScaleDoubles(base, i);
    ScaleGrows(base, 0, i);
    if i + 1 < j {
      ScaleGrows(base, i + 1, j - 1);
      assert base * Pow2(i + 1) < max;
      RpcDelayFromBreaks(base, max, i + 1, j);
    } else {
      assert Wrap64(base * Pow2(j)) == base * Pow2(j) - TWO_64;
    }
  }

  /** A doubling that reaches bound: the first one. */
  lemma {:induction false} FirstReach(base: int, bound: int, j: nat) returns (k: nat)
    requires 0 < base && j >= 1 && bound <= base * Pow2(j)
    ensures 1 <= k <= j && bound <= base * Pow2(k)
    ensures forall i: nat :: 1 <= i < k ==> base * Pow2(i) < bound
    decreases j
  {
    k := j;
    while k > 1 && bound <= base * Pow2(k - 1)
      invariant 1 <= k <= j && bound <= base * Pow2(k)
    {
      k := k - 1;
    }
    forall i: nat | 1 <= i < k ensures base * Pow2(i) < bound {
      ScaleGrows(base, i, k - 1);
    }
  }

  lemma {:induction false} Pow2Unbounded(n: nat)
    ensures Pow2(n) > n
  {
    if n > 0 { Pow2Unbounded(n - 1); }
  }

  lemma ScaleAtLeast(base: int, p: nat)
    requires base >= 1
    ensures base * p >= p
  {
    assert (base - 1) * p >= 0;
  }

  lemma SomeReach(base: int, max: int) returns (k: nat)
    requires 0 < base && 0 < max
    ensures 1 <= k && max <= base * Pow2(k)
    ensures forall i: nat :: 1 <= i < k ==> base * Pow2(i) < max
  {
    Pow2Unbounded(max);
    ScaleAtLeast(base, Pow2(max));
    k := FirstReach(base, max, max);
  }

  lemma RpcDelayReaches(base: int, max: int, attempt: nat)
    requires 0 < base && 0 < max && ReachesCap(base, max)
    ensures RpcDelay(base, max, attempt) == Capped(base, max, attempt)
  {
    var j: nat :| j >= 1 && max <= base * Pow2(j) < TWO_63;
    assert base * Pow2(0) == base;
    RpcDelayFromExact(base, max, 0, attempt, j);
  }

  lemma RpcDelayBreaks(base: int, max: int) returns (attempt: nat)
    requires 0 < base < TWO_63 && 0 < max < TWO_63 && !ReachesCap(base, max)
    ensures RpcDelay(base, max, attempt) < 0
  {
    attempt := SomeReach(base, max);
    assert base * Pow2(0) == base;
    assert base * Pow2(attempt) >= TWO_63;
    assert attempt == 1 || base * Pow2(attempt - 1) < max;
    RpcDelayFromBreaks(base, max, 0, attempt);
  }

  /** The loop is min(base * 2^attempt, max) for every attempt exactly when some doubling reaches max inside int64. */
  lemma RpcDelayExactIff(base: int, max: int)
    requires 0 < base < TWO_63 && 0 < max < TWO_63
    ensures (forall attempt: nat :: RpcDelay(base, max, attempt) == Capped(base, max, attempt))
            <==> ReachesCap(base, max)
  {
    if ReachesCap(base, max) {
      forall attempt: nat ensures RpcDelay(base, max, attempt) == Capped(base, max, attempt) {
        RpcDelayReaches(base, max, attempt);
      }
    } else {
      var k := RpcDelayBreaks(base, max);
      ScaleGrows(base, k, k);
      assert RpcDelay(base, max, k) != Capped(base, max, k);
    }
  }

  /** The smallest attempt at a base of 2^62 ns: the doubled delay is the most negative one. */
  lemma RpcDelayWraps()
    ensures RpcDelay(TWO_62, TWO_63 - 1, 1) == -TWO_63 && !ReachesCap(TWO_62, TWO_63 - 1)
  {
    forall j: nat | j >= 1 ensures TWO_62 * Pow2(j) >= TWO_63 {
      ScaleGrows(TWO_62, 1, j);
    }
  }

  /** Every pair of positive delays below 2^62 ns is inside the condition. */
  lemma RpcDelayCapped(base: int, max: int, attempt: nat)
    requires 0 < base < TWO_62 && 0 < max <= TWO_62
    ensures RpcDelay(base, max, attempt) == Capped(base, max, attempt)
  {
    var k := SomeReach(base, max);
    ScaleDoubles(base, k - 1);
    assert base * Pow2(0) == base;
    assert base * Pow2(k - 1) < TWO_62;
    RpcDelayReaches(base, max, attempt);
  }

  // ---------- the outbox's shift ----------

  function OutboxDelay(retryCount: int, base: int, max: int): int {
    if retryCount <= 1 then base
    else
      var shift := if retryCount - 1 > 10 then 10 else retryCount - 1;
      var delay := Wrap64(base * Pow2(shift));
      if delay > max then max else delay
  }

  predicate InRange(base: int, max: int) {
    0 < base && 0 < max < TWO_63 && base * 1024 < TWO_63
  }

  /** In range nothing wraps: from the second failure on the delay is min(base * 2^min(n-1, 10), max). */
  lemma OutboxDelayInRange(n: int, base: int, max: int)
    requires InRange(base, max) && n >= 2
    ensures OutboxDelay(n, base, max) == Capped(base, max, Min(n - 1, 10))
    ensures 0 < OutboxDelay(n, base, max) <= max
  {
    Ten();
    ScaleGrows(base, Min(n - 1, 10), 10);
  }

  lemma Ten()
    ensures Pow2(10) == 1024
  {
    assert Pow2(5) == 32;
  }

  /** The shift form is the doubling loop at n - 1 for 1 <= n <= 11 exactly when base does not exceed max. */
  lemma OutboxMatchesRpcIff(base: int, max: int)
    requires InRange(base, max)
    ensures (forall n :: 1 <= n <= 11 ==> OutboxDelay(n, base, max) == RpcDelay(base, max, n - 1)) <==> base <= max
  {
    Ten();
    assert base * Pow2(0) == base;
    forall a: nat | a <= 10 ensures RpcDelay(base, max, a) == Capped(base, max, a) {
      RpcDelayFromExact(base, max, 0, a, 10);
    }
    forall n | 2 <= n <= 11 ensures OutboxDelay(n, base, max) == Capped(base, max, n - 1) {
      OutboxDelayInRange(n, base, max);
    }
    assert Capped(base, max, 0) == Min(base, max);
    assert OutboxDelay(1, base, max) == base;
    assert RpcDelay(base, max, 1 - 1) == Min(base, max);
  }

  /** Out of range some delay is negative: the first doubling that no longer fits. */
  lemma OverflowIsNegative(base: int, max: int) returns (n: nat)
    requires 0 < base < TWO_63 && 0 < max < TWO_63 && base * 1024 >= TWO_63
    ensures 2 <= n <= 11 && OutboxDelay(n, base, max) < 0
  {
    Ten();
    var k := FirstReach(base, TWO_63, 10);
    assert base * Pow2(0) == base;
    ScaleDoubles(base, k - 1);
    assert Wrap64(base * Pow2(k)) == base * Pow2(k) - TWO_64;
    n := k + 1;
  }

  /** Every delay is positive exactly when ten doublings of the base fit int64. */
  lemma OutboxDelayPositiveIff(base: int, max: int)
    requires 0 < base < TWO_63 && 0 < max < TWO_63
    ensures (forall n: int :: OutboxDelay(n, base, max) > 0) <==> base * 1024 < TWO_63
  {
    if base * 1024 < TWO_63 {
      forall n: int ensures OutboxDelay(n, base, max) > 0 {
        if n >= 2 { OutboxDelayInRange(n, base, max); }
      }
    } else {
      var n := OverflowIsNegative(base, max);
    }
  }

  lemma InRangeMonotone(base: int, max: int, m: int, n: int)
    requires InRange(base, max) && base <= max && m <= n
    ensures OutboxDelay(m, base, max) <= OutboxDelay(n, base, max)
  {
    if m >= 2 {
      OutboxDelayInRange(m, base, max);
      OutboxDelayInRange(n, base, max);
      ScaleGrows(base, Min(m - 1, 10), Min(n - 1, 10));
    } else if n >= 2 {
      OutboxDelayInRange(n, base, max);
      ScaleGrows(base, 0, Min(n - 1, 10));
      assert base * Pow2(0) == base;
    }
  }

  ghost predicate NonDecreasing(base: int, max: int) {
    forall m: int, n: int :: m <= n ==> OutboxDelay(m, base, max) <= OutboxDelay(n, base, max)
  }

  /**
   The delays are non-decreasing exactly when the first, which is not capped, is at most max and ten doublings fit
   int64.
   */
  lemma OutboxDelayMonotoneIff(base: int, max: int)
    requires 0 < base < TWO_63 && 0 < max < TWO_63
    ensures NonDecreasing(base, max) <==> base <= max && base * 1024 < TWO_63
  {
    if base * 1024 >= TWO_63 {
      var n := OverflowIsNegative(base, max);
      assert OutboxDelay(1, base, max) > OutboxDelay(n, base, max);
    } else if base <= max {
      forall m: int, n: int | m <= n ensures OutboxDelay(m, base, max) <= OutboxDelay(n, base, max) {
        InRangeMonotone(base, max, m, n);
      }
    } else {
      OutboxDelayInRange(2, base, max);
      assert OutboxDelay(1, base, max) > OutboxDelay(2, base, max);
    }
  }

  /** An example: with a base of 2^60 ns the fifth retry has no delay at all. */
  lemma OutboxDelayWraps()
    ensures OutboxDelay(5, 0x1000_0000_0000_0000, TWO_62) == 0
  {
    assert Pow2(4) == 16;
  }

  // ---------- round robin ----------

  /** int(idx) % n with Go's truncated remainder. */
  function GoMod(a: int, n: int): int
    requires n > 0
  {
    if a >= 0 then a % n else -((-a) % n)
  }

  /** pickEndpoint after counter earlier picks. */
  function PickIndex(counter: nat, endpoints: int): int
    requires endpoints > 0
  {
    GoMod(Wrap64(WrapU64(counter)), endpoints)
  }

  /**
   The index is an endpoint except when the counter, read as an int, is negative and no multiple of the endpoint count.
   */
  lemma PickInRangeIff(counter: nat, endpoints: int)
    requires endpoints > 0
    ensures 0 <= PickIndex(counter, endpoints) < endpoints
            <==> WrapU64(counter) < TWO_63 || (TWO_64 - WrapU64(counter)) % endpoints == 0
  {
    var idx := WrapU64(counter);
    if idx >= TWO_63 { assert Wrap64(idx) == idx - TWO_64; }
  }

  /** An example: after 2^63 picks of three endpoints the index is -2. */
  lemma PickIndexTurnsNegative()
    ensures PickIndex(TWO_63, 3) == -2
  {
    QuotientUnique(TWO_63, 3, TWO_63 / 3, 2);
  }

  /** Below 2^63 picks, consecutive picks walk round the endpoints. */
  lemma PicksWalkRound(counter: nat, endpoints: int)
    requires endpoints > 0 && counter + 1 < TWO_63
    ensures PickIndex(counter + 1, endpoints)
            == if PickIndex(counter, endpoints) == endpoints - 1 then 0 else PickIndex(counter, endpoints) + 1
  {
    var q, r := counter / endpoints, counter % endpoints;
    if r == endpoints - 1 {
      assert counter + 1 == endpoints * (q + 1) + 0 by { assert endpoints * (q + 1) == endpoints * q + endpoints; }
      QuotientUnique(counter + 1, endpoints, q + 1, 0);
    } else {
      QuotientUnique(counter + 1, endpoints, q, r + 1);
    }
  }

  // ---------- the retry loop ----------

  /**
   What one call of do meets, by attempt: whether the rate limiter gives up, how
   many picks other callers make first, what the endpoint answers, and whether
   the context ends during the wait that follows.
   */
  datatype Weather = Weather(refused: nat -> bool, others: nat -> nat, answers: (nat, int) -> bool, done: nat -> bool)

  datatype Ending = Answered | Refused | Cancelled | Exhausted | OutOfBounds | NoEndpoints

  /** The endpoints that were called, in order, how the call ended, and the shared counter afterwards. */
  datatype Trace = Trace(picks: seq<int>, ending: Ending, next: nat)

  function Attempts(w: Weather, endpoints: int, retryMax: nat, i: nat, next: nat, picks: seq<int>): Trace
    requires i <= retryMax && endpoints > 0
    decreases retryMax - i
  {
    if w.refused(i) then Trace(picks, Refused, next)
    else
      var counter := next + w.others(i);
      var pick := PickIndex(counter, endpoints);
      if pick < 0 then Trace(picks, OutOfBounds, counter + 1)
      else if w.answers(i, pick) then Trace(picks + [pick], Answered, counter + 1)
      else if i == retryMax then Trace(picks + [pick], Exhausted, counter + 1)
      else if w.done(i) then Trace(picks + [pick], Cancelled, counter + 1)
      else Attempts(w, endpoints, retryMax, i + 1, counter + 1, picks + [pick])
  }

  class Client {
    const endpoints: int
    const retryMax: nat
    var next: nat

    constructor (endpoints: int, retryMax: nat)
      ensures this.endpoints == endpoints && this.retryMax == retryMax && next == 0
    {
      this.endpoints := endpoints;
      this.retryMax := retryMax;
      next := 0;
    }

    /** RPCClient.do; a pick out of bounds, where Go panics, ends the call. */
    method Do(w: Weather) returns (picks: seq<int>, ending: Ending)
      modifies this
      ensures endpoints <= 0 ==> picks == [] && ending == NoEndpoints && next == old(next)
      ensures endpoints > 0 ==> Trace(picks, ending, next) == Attempts(w, endpoints, retryMax, 0, old(next), [])
    {
      picks := [];
      if endpoints <= 0 {
        return picks, NoEndpoints;
      }
      var attempt := 0;
      while attempt <= retryMax
        invariant 0 <= attempt <= retryMax
        invariant Attempts(w, endpoints, retryMax, attempt, next, picks)
                  == Attempts(w, endpoints, retryMax, 0, old(next), [])
      {
        if w.refused(attempt) {
          return picks, Refused;
        }
        next := next + w.others(attempt) + 1;
        var pick := PickIndex(next - 1, endpoints);
        if pick < 0 {
          return picks, OutOfBounds;
        }
        picks := picks + [pick];
        if w.answers(attempt, pick) {
          return picks, Answered;
        }
        if attempt == retryMax {
          break;
        }
        if w.done(attempt) {
          return picks, Cancelled;
        }
        attempt := attempt + 1;
      }
      ending := Exhausted;
    }
  }

  /** Attempt k, at endpoint pick, fails and the loop goes on after it. */
  predicate GoesOn(w: Weather, k: nat, pick: int) {
    !w.refused(k) && !w.answers(k, pick) && !w.done(k)
  }

  predicate AllGoOn(w: Weather, picks: seq<int>, n: nat)
    requires n <= |picks|
  {
    forall k :: 0 <= k < n ==> GoesOn(w, k, picks[k])
  }

  /** Call k of the trace is attempt k; all but the last failed and were retried, and the last one says how it ended. */
  predicate TraceOk(w: Weather, retryMax: nat, t: Trace) {
    var n := |t.picks|;
    match t.ending
    case Refused => n <= retryMax && AllGoOn(w, t.picks, n) && w.refused(n)
    case OutOfBounds => n <= retryMax && AllGoOn(w, t.picks, n) && !w.refused(n)
    case NoEndpoints => false
    case _ =>
      && 0 < n <= retryMax + 1 && AllGoOn(w, t.picks, n - 1) && !w.refused(n - 1)
      && (w.answers(n - 1, t.picks[n - 1]) <==> t.ending.Answered?)
      && (t.ending.Exhausted? ==> n == retryMax + 1)
      && (t.ending.Cancelled? ==> w.done(n - 1) && n <= retryMax)
  }

  /**
   The loop ends at the first success, at a refusal, at the end of the context or after the last attempt, and for no
   other reason.
   */
  lemma {:induction false} AttemptsLaw(w: Weather, endpoints: int, retryMax: nat, i: nat, next: nat, picks: seq<int>)
    requires i <= retryMax && endpoints > 0 && |picks| == i && AllGoOn(w, picks, i)
    ensures TraceOk(w, retryMax, Attempts(w, endpoints, retryMax, i, next, picks))
    decreases retryMax - i
  {
    var counter := next + w.others(i);
    var pick := PickIndex(counter, endpoints);
    if !w.refused(i) && pick >= 0 && !w.answers(i, pick) && i < retryMax && !w.done(i) {
      AttemptsLaw(w, endpoints, retryMax, i + 1, counter + 1, picks + [pick]);
    }
  }

  /** The picks that other callers make before attempts i to j - 1. */
  function OtherPicks(w: Weather, i: nat, j: nat): nat
    requires i <= j
  {
    if i == j then 0 else OtherPicks(w, i, j - 1) + w.others(j - 1)
  }

  lemma {:induction false} OtherPicksFirst(w: Weather, i: nat, j: nat)
    requires i < j
    ensures OtherPicks(w, i, j) == w.others(i) + OtherPicks(w, i + 1, j)
    decreases j - i
  {
    if i + 1 < j { OtherPicksFirst(w, i, j - 1); }
  }

  /** How many attempts of a call made a pick: one per call to an endpoint, and one more when it was out of bounds. */
  function Picked(t: Trace): nat {
    |t.picks| + (if t.ending.OutOfBounds? then 1 else 0)
  }

  /** The shared counter moves on by the call's own picks and those that others made in between. */
  lemma {:induction false} CounterCounts(w: Weather, endpoints: int, retryMax: nat, i: nat, next: nat, picks: seq<int>)
    requires i <= retryMax && endpoints > 0 && |picks| == i
    ensures var t := Attempts(w, endpoints, retryMax, i, next, picks);
            i <= Picked(t) && t.next == next + (Picked(t) - i) + OtherPicks(w, i, Picked(t))
    decreases retryMax - i
  {
    var counter := next + w.others(i);
    var pick := PickIndex(counter, endpoints);
    assert OtherPicks(w, i, i + 1) == w.others(i);
    if !w.refused(i) && pick >= 0 && !w.answers(i, pick) && i < retryMax && !w.done(i) {
      CounterCounts(w, endpoints, retryMax, i + 1, counter + 1, picks + [pick]);
      OtherPicksFirst(w, i, Picked(Attempts(w, endpoints, retryMax, i, next, picks)));
    }
  }

  /** Call k went to endpoint (first + k) mod endpoints. */
  predicate WalksRound(picks: seq<int>, first: nat, endpoints: int)
    requires endpoints > 0
  {
    forall k :: 0 <= k < |picks| ==> picks[k] == (first + k) % endpoints
  }

  /** A lone caller's retries go round the endpoints, as long as the counter is below 2^63. */
  lemma {:induction false} RetriesWalkRound(w: Weather, endpoints: int, retryMax: nat, i: nat, first: nat,
                                            picks: seq<int>)
    requires i <= retryMax && endpoints > 0 && (forall k :: w.others(k) == 0) && first + retryMax < TWO_63
    requires |picks| == i && WalksRound(picks, first, endpoints)
    ensures var t := Attempts(w, endpoints, retryMax, i, first + i, picks);
            t.ending != OutOfBounds && WalksRound(t.picks, first, endpoints)
    decreases retryMax - i
  {
    assert w.others(i) == 0;
    var pick := PickIndex(first + i, endpoints);
    assert pick == (first + i) % endpoints;
    if !w.refused(i) && !w.answers(i, pick) && i < retryMax && !w.done(i) {
      RetriesWalkRound(w, endpoints, retryMax, i + 1, first, picks + [pick]);
    }
  }

  lemma {:induction false} NoOtherPicks(w: Weather, i: nat, j: nat)
    requires i <= j && forall k :: w.others(k) == 0
    ensures OtherPicks(w, i, j) == 0
    decreases j - i
  {
    if i < j { NoOtherPicks(w, i, j - 1); }
  }

  /** A lone caller leaves the counter at the endpoint after the last one it called. */
  lemma LoneCallerCounts(w: Weather, endpoints: int, retryMax: nat, first: nat)
    requires endpoints > 0 && (forall k :: w.others(k) == 0) && first + retryMax < TWO_63
    ensures var t := Attempts(w, endpoints, retryMax, 0, first, []); t.next == first + |t.picks|
  {
    RetriesWalkRound(w, endpoints, retryMax, 0, first, []);
    CounterCounts(w, endpoints, retryMax, 0, first, []);
    NoOtherPicks(w, 0, Picked(Attempts(w, endpoints, retryMax, 0, first, [])));
  }
}
