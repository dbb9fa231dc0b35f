/**
 The snowflake ID generator (common/idgen/snowFlake.go).

 The clock is adversarial: a call sees an arbitrary finite list of millisecond
 readings, and a list that runs out is a call whose context was cancelled while
 it waited.  A call that waits for ever returns nothing and needs no model.
 */
module Snowflake {
  import opened Basics

  const DEFAULT_EPOCH_MILLIS: int := 1704067200000
  const WORKER_ID_SHIFT: nat := 12
  const TIMESTAMP_SHIFT: nat := 22
  const MAX_WORKER_ID: int := 1023
  const SEQUENCE_MAX: int := 4095
  const NANOS_PER_MILLI: int := 1_000_000
  const TWO_22: int := 0x40_0000
  const TWO_41: int := 0x200_0000_0000
  const TWO_42: int := 0x400_0000_0000

  // ---------- two's complement operators ----------

  function Magnitude(x: int): nat {
    if x < 0 then -x - 1 else x
  }

  /** The | operator on two's complement integers, bit by bit. */
  function BitOr(x: int, y: int): int
    decreases Magnitude(x) + Magnitude(y)
  {
    if -1 <= x <= 0 && -1 <= y <= 0 then (if x == 0 && y == 0 then 0 else -1)
    else 2 * BitOr(x / 2, y / 2) + (if x % 2 == 1 || y % 2 == 1 then 1 else 0)
  }

  /** The & operator on two's complement integers, bit by bit. */
  function BitAnd(x: int, y: int): int
    decreases Magnitude(x) + Magnitude(y)
  {
    if -1 <= x <= 0 && -1 <= y <= 0 then (if x == -1 && y == -1 then -1 else 0)
    else 2 * BitAnd(x / 2, y / 2) + (if x % 2 == 1 && y % 2 == 1 then 1 else 0)
  }

  /** x << k on int64: the high bits are lost. */
  function Shl(x: int, k: nat): int {
    Wrap64(x * Pow2(k))
  }

  /** x >> k on int64: arithmetic, so it rounds towards minus infinity. */
  function Shr(x: int, k: nat): int {
    x / Pow2(k)
  }

  lemma {:induction false} OrZero(x: int)
    ensures BitOr(x, 0) == x
    decreases Magnitude(x)
  {
    if x < -1 || x > 0 { OrZero(x / 2); }
  }

  lemma {:induction false} AndZero(x: int)
    ensures BitAnd(x, 0) == 0
    decreases Magnitude(x)
  {
    if x < -1 || x > 0 { AndZero(x / 2); }
  }

  /** Where the bits do not overlap, | is +. */
  lemma {:induction false} OrDisjoint(a: int, k: nat, b: int)
    requires 0 <= b < Pow2(k)
    ensures BitOr(a * Pow2(k), b) == a * Pow2(k) + b
    decreases k
  {
    if k == 0 {
      OrZero(a);
    } else {
      var half := a * Pow2(k - 1);
      assert a * Pow2(k) == 2 * half;
      OrDisjoint(a, k - 1, b / 2);
    }
  }

  /** Masking with 2^k - 1 is reduction modulo 2^k, also for negative numbers. */
  lemma {:induction false} AndMask(x: int, k: nat)
    ensures BitAnd(x, Pow2(k) - 1) == x % Pow2(k)
    decreases k
  {
    if k == 0 {
      AndZero(x);
    } else {
      AndMask(x / 2, k - 1);
      ModDouble(x, Pow2(k - 1));
    }
  }

  lemma ModDouble(x: int, p: nat)
    requires p >= 1
    ensures x % (2 * p) == 2 * ((x / 2) % p) + x % 2
  {
    var h := x / 2;
    var q, r := h / p, h % p;
    assert h == p * q + r;
    assert x == (2 * p) * q + (2 * r + x % 2) by {
      assert x == 2 * h + x % 2;
      assert 2 * (p * q) == (2 * p) * q;
    }
    QuotientUnique(x, 2 * p, q, 2 * r + x % 2);
  }

  lemma Powers()
    ensures Pow2(12) == 4096 && Pow2(10) == 1024 && Pow2(22) == TWO_22
  {
    assert Pow2(3) == 8;
    assert Pow2(6) == 64;
    assert Pow2(9) == 512;
    assert Pow2(12) == 4096;
    assert Pow2(15) == 32768;
    assert Pow2(18) == 262144;
    assert Pow2(21) == 2097152;
  }

  // ---------- the codec ----------

  /** The expression that NextID returns. */
  function Pack(delta: int, worker: int, sequence: int): int {
    BitOr(BitOr(Shl(delta, TIMESTAMP_SHIFT), Shl(worker, WORKER_ID_SHIFT)), sequence)
  }

  datatype Parts = Parts(id: int, timeMillis: int, workerId: int, sequence: int)

  function Parse(id: int, epochMillis: int): Parts {
    var epoch := if epochMillis <= 0 then DEFAULT_EPOCH_MILLIS else epochMillis;
    Parts(id,
          Wrap64(Shr(id, TIMESTAMP_SHIFT) + epoch),
          BitAnd(Shr(id, WORKER_ID_SHIFT), MAX_WORKER_ID),
          BitAnd(id, SEQUENCE_MAX))
  }

  /** What survives of a time difference in the 42 bits left to it. */
  function Kept(delta: int): (r: int)
    ensures -TWO_41 <= r < TWO_41
    ensures r == delta <==> -TWO_41 <= delta < TWO_41
  {
    (delta + TWO_41) % TWO_42 - TWO_41
  }

  predicate FieldsOk(worker: int, sequence: int) {
    0 <= worker <= MAX_WORKER_ID && 0 <= sequence <= SEQUENCE_MAX
  }

  lemma ShlTimestamp(delta: int)
    ensures Shl(delta, TIMESTAMP_SHIFT) == Kept(delta) * TWO_22
  {
    Powers();
    var q, r := (delta + TWO_41) / TWO_42, (delta + TWO_41) % TWO_42;
    assert delta * TWO_22 + TWO_63 == TWO_64 * q + r * TWO_22;
    QuotientUnique(delta * TWO_22 + TWO_63, TWO_64, q, r * TWO_22);
  }

  /** Shifting and or-ing is plain positional arithmetic on the kept time bits. */
  lemma PackIsPositional(delta: int, worker: int, sequence: int)
    requires FieldsOk(worker, sequence)
    ensures Pack(delta, worker, sequence) == Kept(delta) * TWO_22 + worker * 4096 + sequence
    ensures -TWO_63 <= Pack(delta, worker, sequence) < TWO_63
  {
    Powers();
    ShlTimestamp(delta);
    assert Shl(worker, WORKER_ID_SHIFT) == worker * 4096;
    OrDisjoint(Kept(delta), 22, worker * 4096);
    var high := Kept(delta) * TWO_22 + worker * 4096;
    assert high == (Kept(delta) * 1024 + worker) * Pow2(12);
    OrDisjoint(Kept(delta) * 1024 + worker, 12, sequence);
  }

  /** Parse always recovers worker and sequence, and the time iff the difference fits 41 bits and a sign. */
  lemma ParseInvertsPack(delta: int, worker: int, sequence: int, epoch: int)
    requires FieldsOk(worker, sequence)
    requires 0 < epoch && -TWO_63 <= delta + epoch < TWO_63 && epoch < TWO_62
    ensures var p := Parse(Pack(delta, worker, sequence), epoch);
            && p.id == Pack(delta, worker, sequence)
            && p.workerId == worker
            && p.sequence == sequence
            && (p.timeMillis == delta + epoch <==> -TWO_41 <= delta < TWO_41)
  {
    var id := Pack(delta, worker, sequence);
    PackIsPositional(delta, worker, sequence);
    Powers();
    QuotientUnique(id, TWO_22, Kept(delta), worker * 4096 + sequence);
    QuotientUnique(id, 4096, Kept(delta) * 1024 + worker, sequence);
    AndMask(id, 12);
    AndMask(id / 4096, 10);
    QuotientUnique(id / 4096, 1024, Kept(delta), worker);
  }

  // ---------- the generator ----------

  datatype Gen = Gen(workerId: int, epochMillis: int, lastMillis: int, sequence: int, maxClockBackward: int)

  datatype IdError = BadWorker | ClockBackwards(nanos: int) | RecoveryCancelled | NextMillisCancelled

  ghost predicate Valid(g: Gen) {
    0 <= g.workerId <= MAX_WORKER_ID && 0 <= g.sequence
  }

  /** First reading later than last: what waitNextMillis returns, None when the readings run out first. */
  function FirstAfter(readings: seq<int>, last: int): (r: Option<int>)
    ensures r.Some? ==> r.value in readings && r.value > last
    ensures r.None? <==> forall x :: x in readings ==> x <= last
  {
    if readings == [] then None
    else if readings[0] > last then Some(readings[0])
    else
      assert forall x :: x in readings <==> x == readings[0] || x in readings[1..];
      FirstAfter(readings[1..], last)
  }

  function Issue(g: Gen, millis: int, sequence: int): (Gen, Result<int, IdError>) {
    (g.(lastMillis := millis, sequence := sequence),
     Ok(Pack(Wrap64(millis - g.epochMillis), g.workerId, sequence)))
  }

  /** What a call settles before it packs: the time and sequence to issue, or the sequence left behind by a failure. */
  datatype Decision = Give(millis: int, sequence: int) | Refuse(left: int, error: IdError)

  function Decide(g: Gen, readings: seq<int>): Decision
    requires readings != []
  {
    var current := readings[0];
    var backward := Wrap64(Wrap64(g.lastMillis - current) * NANOS_PER_MILLI);
    if current < g.lastMillis && backward > g.maxClockBackward then Refuse(g.sequence, ClockBackwards(backward))
    else if current > g.lastMillis then Give(current, 0)
    else if current == g.lastMillis && g.sequence < SEQUENCE_MAX then Give(current, g.sequence + 1)
    else
      match FirstAfter(readings[1..], g.lastMillis)
      case Some(millis) => Give(millis, 0)
      case None =>
        if current == g.lastMillis then Refuse(g.sequence + 1, NextMillisCancelled)
        else Refuse(g.sequence, RecoveryCancelled)
  }

  /** One call of NextID as a function of the generator and the clock readings it sees. */
  function Next(g: Gen, readings: seq<int>): (Gen, Result<int, IdError>)
    requires readings != []
  {
    match Decide(g, readings)
    case Give(millis, sequence) => Issue(g, millis, sequence)
    case Refuse(left, error) => (g.(sequence := left), Err(error))
  }

  class Generator {
    var workerId: int
    var epochMillis: int
    var lastMillis: int
    var sequence: int
    var maxClockBackward: int

    function State(): Gen
      reads this
    {
      Gen(workerId, epochMillis, lastMillis, sequence, maxClockBackward)
    }

    constructor (workerId: int, epochMillis: int, maxClockBackward: int)
      ensures State() == Gen(workerId,
                             if epochMillis <= 0 then DEFAULT_EPOCH_MILLIS else epochMillis,
                             -1, 0,
                             if maxClockBackward <= 0 then 5 * NANOS_PER_MILLI else maxClockBackward)
    {
      this.workerId := workerId;
      this.epochMillis := if epochMillis <= 0 then DEFAULT_EPOCH_MILLIS else epochMillis;
      this.maxClockBackward := if maxClockBackward <= 0 then 5 * NANOS_PER_MILLI else maxClockBackward;
      this.lastMillis := -1;
      this.sequence := 0;
    }

    method NextID(readings: seq<int>) returns (r: Result<int, IdError>)
      requires readings != []
      modifies this
      ensures (State(), r) == Next(old(State()), readings)
    {
      var currentMillis := readings[0];
      var rest := readings[1..];
      if currentMillis < lastMillis {
        var backward := Wrap64(Wrap64(lastMillis - currentMillis) * NANOS_PER_MILLI);
        if backward > maxClockBackward {
          return Err(ClockBackwards(backward));
        }
        var next := WaitNextMillis(rest, lastMillis);
        if next.None? {
          return Err(RecoveryCancelled);
        }
        currentMillis := next.value;
      }
      if currentMillis == lastMillis {
        sequence := sequence + 1;
        if sequence > SEQUENCE_MAX {
          var next := WaitNextMillis(rest, lastMillis);
          if next.None? {
            return Err(NextMillisCancelled);
          }
          currentMillis := next.value;
          sequence := 0;
        }
      } else {
        sequence := 0;
      }
      lastMillis := currentMillis;
      r := Ok(Pack(Wrap64(currentMillis - epochMillis), workerId, sequence));
    }

    static method WaitNextMillis(readings: seq<int>, last: int) returns (r: Option<int>)
      ensures r == FirstAfter(readings, last)
    {
      var i := 0;
      while i < |readings|
        invariant 0 <= i <= |readings|
        invariant FirstAfter(readings, last) == FirstAfter(readings[i..], last)
      {
        if readings[i] > last {
          return Some(readings[i]);
        }
        i := i + 1;
      }
      return None;
    }
  }

  /** idgen.New: worker IDs outside ten bits are refused. */
  method New(workerId: int, epochMillis: int, maxClockBackward: int) returns (r: Result<Generator, IdError>)
    ensures r.Err? <==> workerId < 0 || workerId > MAX_WORKER_ID
    ensures r.Ok? ==>
              && fresh(r.value) && Valid(r.value.State())
              && r.value.State() == Gen(workerId, if epochMillis > 0 then epochMillis else 1704067200000, -1, 0,
                                        if maxClockBackward > 0 then maxClockBackward else 5 * NANOS_PER_MILLI)
  {
    if workerId < 0 || workerId > MAX_WORKER_ID {
      return Err(BadWorker);
    }
    var g := new Generator(workerId, epochMillis, maxClockBackward);
    r := Ok(g);
  }

  // ---------- every run of one generator ----------

  /** Every call reads the clock at least once. */
  predicate Polled(calls: seq<seq<int>>) {
    forall k :: 0 <= k < |calls| ==> calls[k] != []
  }

  /** A finite history of calls: the final generator and the IDs that were issued, in order. */
  function Run(g: Gen, calls: seq<seq<int>>): (r: (Gen, seq<int>))
    requires Polled(calls)
  {
    if calls == [] then (g, [])
    else
      var before := Run(g, calls[..|calls| - 1]);
      var last := Next(before.0, calls[|calls| - 1]);
      (last.0, if last.1.Ok? then before.1 + [last.1.value] else before.1)
  }

  /** The number that orders generator states; a saturated or overshot sequence counts as full. */
  ghost function Mark(g: Gen): int {
    (g.lastMillis - g.epochMillis) * TWO_22 + g.workerId * 4096 + Min(g.sequence, SEQUENCE_MAX)
  }

  /** Every reading is within the 41-bit signed distance from the epoch. */
  ghost predicate InRange(g: Gen, readings: seq<int>) {
    forall r :: r in readings ==> -TWO_41 <= r - g.epochMillis < TWO_41
  }

  ghost predicate AllInRange(g: Gen, calls: seq<seq<int>>) {
    forall k :: 0 <= k < |calls| ==> InRange(g, calls[k])
  }

  lemma IssueShape(g: Gen, millis: int, sequence: int)
    requires 0 <= g.workerId <= MAX_WORKER_ID && 0 <= sequence <= SEQUENCE_MAX
    ensures var (g', r) := Issue(g, millis, sequence);
            && g' == g.(lastMillis := millis, sequence := sequence)
            && r == Ok(Kept(Wrap64(millis - g.epochMillis)) * TWO_22 + g.workerId * 4096 + sequence)
  {
    PackIsPositional(Wrap64(millis - g.epochMillis), g.workerId, sequence);
  }

  /** A call moves on to a later reading and sequence 0, or counts up within the millisecond, or leaves time alone. */
  lemma DecideShape(g: Gen, readings: seq<int>)
    requires readings != [] && 0 <= g.sequence
    ensures match Decide(g, readings)
            case Give(millis, sequence) =>
              && millis in readings && 0 <= sequence <= SEQUENCE_MAX
              && ((millis > g.lastMillis && sequence == 0) || (millis == g.lastMillis && sequence == g.sequence + 1))
            case Refuse(left, error) =>
              && (error.ClockBackwards? || forall x :: x in readings ==> x <= g.lastMillis)
              && (left == g.sequence || (g.sequence >= SEQUENCE_MAX && left == g.sequence + 1))
  {
    assert forall x :: x in readings <==> x == readings[0] || x in readings[1..];
  }

  /** The ID that a successful call returns, and what any call does to the generator. */
  lemma NextShape(g: Gen, readings: seq<int>)
    requires Valid(g) && readings != []
    ensures var (g', r) := Next(g, readings);
            && Valid(g') && g'.workerId == g.workerId && g'.epochMillis == g.epochMillis
            && (r.Ok? ==> && g'.lastMillis in readings && g'.sequence <= SEQUENCE_MAX
                          && r.value == Kept(Wrap64(g'.lastMillis - g.epochMillis)) * TWO_22 + g.workerId * 4096
                             + g'.sequence
                          && ((g'.lastMillis > g.lastMillis && g'.sequence == 0)
                              || (g'.lastMillis == g.lastMillis && g'.sequence == g.sequence + 1)))
            && (r.Err? ==> (r.error.ClockBackwards? || forall x :: x in readings ==> x <= g.lastMillis)
                           && g'.lastMillis == g.lastMillis
                           && (g'.sequence == g.sequence
                               || (g.sequence >= SEQUENCE_MAX && g'.sequence == g.sequence + 1)))
  {
    DecideShape(g, readings);
    match Decide(g, readings)
    case Give(millis, sequence) => IssueShape(g, millis, sequence);
    case Refuse(left, error) =>
  }

  /** Reading k is the first one after the given millisecond. */
  predicate FirstLater(readings: seq<int>, last: int, k: nat) {
    k < |readings| && readings[k] > last && forall j :: 0 <= j < k ==> readings[j] <= last
  }

  predicate NoneLater(readings: seq<int>, last: int) {
    forall j :: 0 <= j < |readings| ==> readings[j] <= last
  }

  lemma {:induction false} FirstAfterMeans(readings: seq<int>, last: int)
    ensures match FirstAfter(readings, last)
            case Some(millis) => exists k: nat :: FirstLater(readings, last, k) && readings[k] == millis
            case None => NoneLater(readings, last)
  {
    if readings != [] && readings[0] <= last {
      var rest := readings[1..];
      FirstAfterMeans(rest, last);
      if FirstAfter(rest, last).Some? {
        var k: nat :| FirstLater(rest, last, k) && rest[k] == FirstAfter(rest, last).value;
        assert readings[k + 1] == rest[k];
        assert FirstLater(readings, last, k + 1) by {
          forall j | 0 <= j < k + 1 ensures readings[j] <= last {
            if j > 0 { assert readings[j] == rest[j - 1]; }
          }
        }
      }
    } else if readings != [] {
      assert FirstLater(readings, last, 0);
    }
  }

  /** The call moves on to this millisecond and sequence and returns their ID. */
  ghost predicate Issues(g: Gen, readings: seq<int>, millis: int, sequence: int) {
    readings != []
    && Next(g, readings) == (g.(lastMillis := millis, sequence := sequence),
                             Ok(Kept(Wrap64(millis - g.epochMillis)) * TWO_22 + g.workerId * 4096 + sequence))
  }

  /** The call waits for a later reading: it issues there with sequence 0, or fails like this when there is none. */
  ghost predicate Waits(g: Gen, readings: seq<int>, left: Gen, error: IdError) {
    readings != []
    && (if NoneLater(readings, g.lastMillis) then Next(g, readings) == (left, Err(error))
        else exists k: nat :: FirstLater(readings, g.lastMillis, k) && Issues(g, readings, readings[k], 0))
  }

  lemma WaitIssues(g: Gen, readings: seq<int>, left: Gen, error: IdError)
    requires Valid(g) && readings != [] && readings[0] <= g.lastMillis
    requires Decide(g, readings) == match FirstAfter(readings[1..], g.lastMillis)
                                    case Some(millis) => Give(millis, 0)
                                    case None => Refuse(left.sequence, error)
    requires left == g.(sequence := left.sequence)
    ensures Waits(g, readings, left, error)
  {
    var last := g.lastMillis;
    FirstAfterMeans(readings, last);
    assert FirstAfter(readings, last) == FirstAfter(readings[1..], last);
    match FirstAfter(readings, last)
    case None =>
    case Some(millis) =>
      var k: nat :| FirstLater(readings, last, k) && readings[k] == millis;
      IssueShape(g, millis, 0);
      assert Issues(g, readings, readings[k], 0);
  }

  /** How far the first reading is behind, in ns, as int64 arithmetic has it. */
  function Backward(g: Gen, readings: seq<int>): int
    requires readings != []
  {
    Wrap64(Wrap64(g.lastMillis - readings[0]) * 1_000_000)
  }

  /**
   What a call does, by its first reading: behind by more than the tolerance it fails at once, and within it waits;
   in the last millisecond it takes the next sequence, and waits when there is none; later it starts anew.
   */
  lemma NextMeans(g: Gen, readings: seq<int>)
    requires Valid(g) && readings != []
    ensures readings[0] < g.lastMillis && Backward(g, readings) > g.maxClockBackward
            ==> Next(g, readings) == (g, Err(ClockBackwards(Backward(g, readings))))
    ensures readings[0] < g.lastMillis && Backward(g, readings) <= g.maxClockBackward
            ==> Waits(g, readings, g, RecoveryCancelled)
    ensures readings[0] == g.lastMillis && g.sequence < 4095 ==> Issues(g, readings, readings[0], g.sequence + 1)
    ensures readings[0] == g.lastMillis && g.sequence >= 4095
            ==> Waits(g, readings, g.(sequence := g.sequence + 1), NextMillisCancelled)
    ensures readings[0] > g.lastMillis ==> Issues(g, readings, readings[0], 0)
  {
    if readings[0] < g.lastMillis {
      if Backward(g, readings) <= g.maxClockBackward { WaitIssues(g, readings, g, RecoveryCancelled); }
    } else if readings[0] == g.lastMillis {
      if g.sequence < 4095 {
        IssueShape(g, readings[0], g.sequence + 1);
      } else {
        WaitIssues(g, readings, g.(sequence := g.sequence + 1), NextMillisCancelled);
      }
    } else {
      IssueShape(g, readings[0], 0);
    }
  }

  /** Each failure has exactly one cause. */
  lemma NextFailsIff(g: Gen, readings: seq<int>)
    requires Valid(g) && readings != []
    ensures var r, first, last := Next(g, readings).1, readings[0], g.lastMillis;
            && (r.Err? && r.error.ClockBackwards? <==> first < last && Backward(g, readings) > g.maxClockBackward)
            && (r == Err(RecoveryCancelled)
                <==> first < last && Backward(g, readings) <= g.maxClockBackward && NoneLater(readings, last))
            && (r == Err(NextMillisCancelled)
                <==> first == last && g.sequence >= 4095 && NoneLater(readings, last))
            && r != Err(BadWorker)
  {
    NextMeans(g, readings);
  }

  /** An issued ID is the new mark and exceeds the old one; a failed call leaves the mark alone. */
  lemma NextRaisesMark(g: Gen, readings: seq<int>)
    requires Valid(g) && readings != [] && InRange(g, readings)
    ensures var (g', r) := Next(g, readings);
            && Valid(g') && g'.workerId == g.workerId && g'.epochMillis == g.epochMillis
            && (if r.Ok? then r.value == Mark(g') && Mark(g') > Mark(g) else Mark(g') == Mark(g))
  {
    NextShape(g, readings);
    var (g', r) := Next(g, readings);
    if r.Ok? && g'.lastMillis > g.lastMillis {
      assert (g'.lastMillis - g.epochMillis) * TWO_22 >= (g.lastMillis - g.epochMillis) * TWO_22 + TWO_22;
    }
  }

  ghost predicate Increasing(ids: seq<int>) {
    forall i, j :: 0 <= i < j < |ids| ==> ids[i] < ids[j]
  }

  ghost predicate Between(ids: seq<int>, low: int, high: int) {
    forall i :: 0 <= i < |ids| ==> low < ids[i] <= high
  }

  lemma ExtendIncreasing(ids: seq<int>, low: int, high: int, id: int)
    requires Increasing(ids) && Between(ids, low, high) && low <= high < id
    ensures Increasing(ids + [id]) && Between(ids + [id], low, id)
  {
  }

  /** IDs of one generator strictly increase, whatever the clock does and whichever calls fail. */
  lemma {:induction false} IssuedIdsIncrease(g: Gen, calls: seq<seq<int>>)
    requires Valid(g) && Polled(calls) && AllInRange(g, calls)
    ensures var (g', ids) := Run(g, calls);
            && Valid(g') && g'.workerId == g.workerId && g'.epochMillis == g.epochMillis
            && Increasing(ids) && Mark(g) <= Mark(g')
            && Between(ids, Mark(g), Mark(g'))
  {
    if calls != [] {
      var init, c := calls[..|calls| - 1], calls[|calls| - 1];
      IssuedIdsIncrease(g, init);
      var (before, ids) := Run(g, init);
      assert InRange(before, c);
      NextRaisesMark(before, c);
      var (after, r) := Next(before, c);
      if r.Ok? {
        ExtendIncreasing(ids, Mark(g), Mark(before), r.value);
      }
    }
  }

  /** A reading after the last one is issued at once. */
  lemma NextAtLaterReading(g: Gen, millis: int)
    requires Valid(g) && 0 < g.epochMillis < TWO_62 && g.lastMillis < millis
             && g.epochMillis <= millis <= g.epochMillis + TWO_41
    ensures Next(g, [millis])
            == (g.(lastMillis := millis, sequence := 0), Ok(Kept(millis - g.epochMillis) * TWO_22 + g.workerId * 4096))
  {
    assert [millis][0] == millis;
    assert Decide(g, [millis]) == Give(millis, 0);
    IssueShape(g, millis, 0);
  }

  lemma RunOneMore(g: Gen, calls: seq<seq<int>>, readings: seq<int>)
    requires Polled(calls) && readings != []
    ensures var before, after := Run(g, calls), Run(g, calls + [readings]);
            var (g', r) := Next(before.0, readings);
            after == (g', if r.Ok? then before.1 + [r.value] else before.1)
  {
    assert (calls + [readings])[..|calls|] == calls;
  }

  /** Past the 41-bit range the next ID is below its predecessor. */
  lemma OrderBreaksPastTheRange(g: Gen)
    requires Valid(g) && 0 < g.epochMillis < TWO_62 && g.lastMillis < g.epochMillis + TWO_41 - 1
    ensures var end := g.epochMillis + TWO_41;
            var ids := Run(g, [] + [[end - 1]] + [[end]]).1;
            |ids| == 2 && ids[1] < ids[0]
  {
    var end := g.epochMillis + TWO_41;
    RunOneMore(g, [], [end - 1]);
    NextAtLaterReading(g, end - 1);
    var g1 := g.(lastMillis := end - 1, sequence := 0);
    RunOneMore(g, [] + [[end - 1]], [end]);
    NextAtLaterReading(g1, end);
    assert Kept(TWO_41) == -TWO_41;
  }

  /** Every reading lies between the start of the 41-bit range and epoch + high. */
  ghost predicate UpTo(g: Gen, high: int, calls: seq<seq<int>>) {
    forall k, r :: 0 <= k < |calls| && r in calls[k] ==> -TWO_41 <= r - g.epochMillis <= high
  }

  ghost predicate AlwaysIncreasing(g: Gen, high: int) {
    forall calls :: Polled(calls) && UpTo(g, high, calls) ==> Increasing(Run(g, calls).1)
  }

  /** All histories with readings up to epoch + high increase exactly when high is inside the 41-bit range. */
  lemma IssuedIdsIncreaseIff(g: Gen, high: int)
    requires Valid(g) && 0 < g.epochMillis < TWO_62 && g.lastMillis < g.epochMillis + TWO_41 - 1
    ensures AlwaysIncreasing(g, high) <==> high < TWO_41
  {
    if high < TWO_41 {
      forall calls | Polled(calls) && UpTo(g, high, calls) ensures Increasing(Run(g, calls).1) {
        forall k | 0 <= k < |calls| ensures InRange(g, calls[k]) {
        }
        IssuedIdsIncrease(g, calls);
      }
    } else {
      var end := g.epochMillis + TWO_41;
      var calls := [] + [[end - 1]] + [[end]];
      OrderBreaksPastTheRange(g);
      assert Polled(calls) && UpTo(g, high, calls);
    }
  }

  /** The worker bits of an ID. */
  function WorkerBits(id: int): int {
    (id % TWO_22) / 4096
  }

  lemma NextCarriesWorker(g: Gen, readings: seq<int>)
    requires Valid(g) && readings != []
    ensures var (g', r) := Next(g, readings);
            Valid(g') && g'.workerId == g.workerId && (r.Ok? ==> WorkerBits(r.value) == g.workerId)
  {
    NextShape(g, readings);
    var (g', r) := Next(g, readings);
    if r.Ok? {
      QuotientUnique(r.value, TWO_22, Kept(Wrap64(g'.lastMillis - g.epochMillis)), g.workerId * 4096 + g'.sequence);
    }
  }

  /** The worker bits of every ID are the generator's own; this needs no assumption on the clock. */
  lemma {:induction false} IssuedIdsCarryWorker(g: Gen, calls: seq<seq<int>>)
    requires Valid(g) && Polled(calls)
    ensures var (g', ids) := Run(g, calls);
            && Valid(g') && g'.workerId == g.workerId
            && forall i :: 0 <= i < |ids| ==> WorkerBits(ids[i]) == g.workerId
  {
    if calls != [] {
      var init, c := calls[..|calls| - 1], calls[|calls| - 1];
      IssuedIdsCarryWorker(g, init);
      NextCarriesWorker(Run(g, init).0, c);
    }
  }

  /** Generators with different worker IDs never issue the same ID, even with different epochs or broken clocks. */
  lemma WorkersNeverCollide(g1: Gen, calls1: seq<seq<int>>, g2: Gen, calls2: seq<seq<int>>)
    requires Valid(g1) && Polled(calls1)
    requires Valid(g2) && Polled(calls2)
    requires g1.workerId != g2.workerId
    ensures forall id :: id in Run(g1, calls1).1 ==> id !in Run(g2, calls2).1
  {
    IssuedIdsCarryWorker(g1, calls1);
    IssuedIdsCarryWorker(g2, calls2);
  }

  lemma {:induction false} IncreasingGap(ids: seq<int>, i: nat, j: nat)
    requires Increasing(ids) && i <= j < |ids|
    ensures ids[j] - ids[i] >= j - i
    decreases j
  {
    if i < j { IncreasingGap(ids, i, j - 1); }
  }

  /** At most 4096 IDs of one generator carry the same millisecond. */
  lemma AtMost4096PerMillisecond(g: Gen, calls: seq<seq<int>>, i: nat, j: nat)
    requires Valid(g) && Polled(calls) && AllInRange(g, calls)
    requires i <= j < |Run(g, calls).1|
    requires Shr(Run(g, calls).1[i], TIMESTAMP_SHIFT) == Shr(Run(g, calls).1[j], TIMESTAMP_SHIFT)
    ensures j - i + 1 <= 4096
  {
    var ids := Run(g, calls).1;
    IssuedIdsIncrease(g, calls);
    IssuedIdsCarryWorker(g, calls);
    IncreasingGap(ids, i, j);
    Powers();
    var a, b := ids[i], ids[j];
    assert a in ids && b in ids;
    assert a == TWO_22 * (a / TWO_22) + a % TWO_22;
    assert b == TWO_22 * (b / TWO_22) + b % TWO_22;
  }
}
