/** Bounded overtaking in the outbox: how many claims a due row can have to wait for. */
module Fairness {
  import opened Basics
  import opened Tables
  import opened Backoff
  import opened Outbox
  import opened Dispatch

  /** Claimable now, and not because a lock ran out. */
  predicate Waiting(setup: Setup, s: State, id: int) {
    id in s.rows && Claimable(s.rows[id], s.now, NormalizeChannels(setup.senders)) && !s.rows[id].status.Processing?
  }

  /** The waiting rows that precede row id in claim order. */
  function Ahead(setup: Setup, s: State, id: int): set<int>
    requires id in s.rows
  {
    set x | x in s.rows && Waiting(setup, s, x) && Before(s.rows[x], s.rows[id])
  }

  /** Every lock lasts until its holder has settled the row. */
  predicate NoExpiry(s: State) {
    forall id :: id in s.rows && s.rows[id].lockedUntil.Some? ==> s.now <= s.rows[id].lockedUntil.value
  }

  /** The configured base delay, with the store's default. */
  function EffectiveBase(cfg: DispatcherConfig): (base: int)
    ensures base > 0
  {
    if cfg.retryBaseDelay <= 0 then SECOND else cfg.retryBaseDelay
  }

  /** The wait after the n-th failure of a row whose send failed with this RetryAfter. */
  function SendFailureDelay(cfg: DispatcherConfig, n: int, retryAfter: int): int {
    FailureDelay(n, RetryOf(cfg, Wrap64(retryAfter + SECOND)))
  }

  /** Ten doublings of the base fit an int64, or the sender's demand and a second do, and come to something. */
  predicate WaitsAfter(cfg: DispatcherConfig, retryAfter: int) {
    EffectiveBase(cfg) * 1024 < TWO_63 || 0 < retryAfter + SECOND < TWO_63
  }

  lemma WaitIsPositive(cfg: DispatcherConfig, n: int, retryAfter: int)
    requires WaitsAfter(cfg, retryAfter)
    ensures SendFailureDelay(cfg, n, retryAfter) > 0
  {
    var base := EffectiveBase(cfg);
    if base * 1024 < TWO_63 && n >= 2 {
      Ten();
      ScaleGrows(base, Min(n - 1, 10), 10);
      ScaleGrows(base, 0, Min(n - 1, 10));
      assert base * Pow2(0) == base;
    }
  }

  /** Whatever the base: when the sender demands no negative or absurd wait, the dispatcher waits a second or more. */
  lemma WaitIsASecondAtLeast(cfg: DispatcherConfig, n: int, retryAfter: int)
    requires 0 <= retryAfter < TWO_63 - SECOND
    ensures SendFailureDelay(cfg, n, retryAfter) >= retryAfter + SECOND
  {
  }

  /** Out of the condition some failure has no wait. */
  lemma NoWait(cfg: DispatcherConfig, retryAfter: int) returns (n: nat)
    requires cfg.retryBaseDelay < TWO_63 && cfg.retryMaxDelay < TWO_63 && -TWO_63 <= retryAfter < TWO_63
    requires !WaitsAfter(cfg, retryAfter)
    ensures 2 <= n <= 11 && SendFailureDelay(cfg, n, retryAfter) <= 0
  {
    n := OverflowIsNegative(EffectiveBase(cfg), if cfg.retryMaxDelay <= 0 then MINUTE else cfg.retryMaxDelay);
  }

  /** The wait is positive after every failure exactly under that condition. */
  lemma WaitIsPositiveIff(cfg: DispatcherConfig, retryAfter: int)
    requires cfg.retryBaseDelay < TWO_63 && cfg.retryMaxDelay < TWO_63 && -TWO_63 <= retryAfter < TWO_63
    ensures (forall n: int :: SendFailureDelay(cfg, n, retryAfter) > 0) <==> WaitsAfter(cfg, retryAfter)
  {
    if WaitsAfter(cfg, retryAfter) {
      forall n: int ensures SendFailureDelay(cfg, n, retryAfter) > 0 { WaitIsPositive(cfg, n, retryAfter); }
    } else {
      var n := NoWait(cfg, retryAfter);
    }
  }

  /** A failed send reported one of these demands. */
  predicate Reports(phase: Phase, demands: int -> bool) {
    phase.Answered? && phase.outcome.SendFailed? ==> demands(phase.outcome.retryAfter)
  }

  /** Every demand that a sender may report leads to a wait. */
  ghost predicate AllMakeWait(cfg: DispatcherConfig, demands: int -> bool) {
    forall x :: demands(x) ==> WaitsAfter(cfg, x)
  }

  /**
   No lock has run out; inserts are atomic, due at once and numbered upwards; a claim sees every row; senders report
   these demands.
   */
  predicate Calm(demands: int -> bool, s: State, step: Step) {
    && NoExpiry(s)
    && match step
       case Insert(row) => row.nextRetryAt == s.now && forall id :: id in s.rows ==> id < row.id
       case Claim(_, skip, _) => skip == {}
       case Mark(w) => w in s.workers && Reports(s.workers[w].phase, demands)
       case _ => true
  }

  ghost predicate LeadsCalmly(setup: Setup, demands: int -> bool, s: State, steps: seq<Step>, t: State)
    decreases |steps|
  {
    if steps == [] then s == t
    else && Enabled(setup, s, steps[0]) && Calm(demands, s, steps[0])
         && LeadsCalmly(setup, demands, Apply(setup, s, steps[0]), steps[1..], t)
  }

  function Claims(steps: seq<Step>): nat {
    if steps == [] then 0 else (if steps[0].Claim? then 1 else 0) + Claims(steps[1..])
  }

  /** Some lease from the n-th on is for the row. */
  predicate LeasedSince(s: State, n: nat, id: int) {
    exists j :: n <= j < |s.leases| && s.leases[j].row == id
  }

  /** The row still waits in the same place and nothing new has come before it. */
  predicate KeepsPlace(setup: Setup, s: State, t: State, id: int)
    requires id in s.rows
  {
    && Waiting(setup, t, id) && t.rows[id].nextRetryAt == s.rows[id].nextRetryAt
    && Ahead(setup, t, id) <= Ahead(setup, s, id)
  }

  lemma {:induction false} SizeOfDistinct(s: seq<int>)
    requires NoRepeats(s)
    ensures |set x | x in s| == |s|
  {
    if s != [] {
      var n := |s| - 1;
      SizeOfDistinct(s[..n]);
      assert s[n] !in s[..n];
      assert (set x | x in s) == (set x | x in s[..n]) + {s[n]};
    }
  }

  /** A claim that passes the row over takes a full batch of the rows ahead of it. */
  lemma PassedOverByFullBatch(setup: Setup, s: State, w: string, picked: seq<int>, id: int)
    requires SetupOk(setup) && Inv(setup, s) && Enabled(setup, s, Claim(w, {}, picked)) && NoExpiry(s)
    requires Waiting(setup, s, id) && id !in picked
    ensures |picked| == EffectiveLimit(setup.cfg.batchSize) && (set x | x in picked) <= Ahead(setup, s, id)
  {
    PickedAreClaimable(setup, s, w, {}, picked);
    var pool := Candidates(s.rows, s.now, NormalizeChannels(setup.senders), {});
    assert id in pool;
    forall i | 0 <= i < |picked| ensures picked[i] in Ahead(setup, s, id) {
      assert Before(s.rows[picked[i]], s.rows[id]);
      assert RowOk(picked[i], s.rows[picked[i]]);
    }
    SizeOfDistinct(picked);
    if |picked| < EffectiveLimit(setup.cfg.batchSize) {
      SubsetSmaller((set x | x in picked) + {id}, pool);
    }
  }

  lemma {:induction false} SubsetSmaller(a: set<int>, b: set<int>)
    requires a <= b
    ensures |a| <= |b|
  {
    if a != {} {
      var x := Inhabited(a);
      SubsetSmaller(a - {x}, b - {x});
    }
  }

  lemma ClaimMovesOn(setup: Setup, s: State, w: string, picked: seq<int>, id: int)
    requires SetupOk(setup) && Inv(setup, s) && Enabled(setup, s, Claim(w, {}, picked)) && NoExpiry(s)
    requires Waiting(setup, s, id) && id !in picked
    ensures var t := Apply(setup, s, Claim(w, {}, picked));
            && KeepsPlace(setup, s, t, id)
            && |Ahead(setup, t, id)| + EffectiveLimit(setup.cfg.batchSize) <= |Ahead(setup, s, id)|
  {
    PassedOverByFullBatch(setup, s, w, picked, id);
    PickedAreClaimable(setup, s, w, {}, picked);
    var t := Apply(setup, s, Claim(w, {}, picked));
    var taken := set x | x in picked;
    SizeOfDistinct(picked);
    assert Ahead(setup, t, id) <= Ahead(setup, s, id) - taken;
    SubsetSmaller(Ahead(setup, t, id), Ahead(setup, s, id) - taken);
    SubsetSmaller(taken, Ahead(setup, s, id));
    SizeOfDifference(Ahead(setup, s, id), taken);
  }

  lemma SizeOfDifference(a: set<int>, b: set<int>)
    requires b <= a
    ensures |a - b| == |a| - |b|
  {
    assert a == (a - b) + b;
  }

  /** A failed row goes behind every row that is due now. */
  lemma FailedMovesBehind(setup: Setup, s: State, w: string, error: string, retryAfter: int, id: int)
    requires Inv(setup, s) && w in s.workers && s.workers[w].queue != [] && Waiting(setup, s, id)
    requires WaitsAfter(setup.cfg, retryAfter)
    ensures KeepsPlace(setup, s, MarkFailedBy(setup, s, w, error, Wrap64(retryAfter + SECOND)), id)
  {
    EffectiveIsHeld(setup, s, w);
    WaitIsPositive(setup.cfg, s.workers[w].queue[0].row.retryCount + 1, retryAfter);
  }

  lemma SentMovesAway(setup: Setup, s: State, w: string, id: int)
    requires Inv(setup, s) && w in s.workers && s.workers[w].queue != [] && Waiting(setup, s, id)
    ensures KeepsPlace(setup, s, MarkSentBy(s, w), id)
  {
    EffectiveIsHeld(setup, s, w);
  }

  lemma InsertGoesBehind(setup: Setup, demands: int -> bool, s: State, row: OutboxRow, id: int)
    requires Inv(setup, s) && Enabled(setup, s, Insert(row)) && Calm(demands, s, Insert(row)) && Waiting(setup, s, id)
    ensures KeepsPlace(setup, s, Apply(setup, s, Insert(row)), id)
  {
    assert RowOk(id, s.rows[id]);
    var t := Apply(setup, s, Insert(row));
    assert !Before(t.rows[row.id], t.rows[id]);
  }

  /** Every step but a claim of the row keeps its place. */
  lemma StepKeepsPlace(setup: Setup, demands: int -> bool, s: State, step: Step, id: int)
    requires SetupOk(setup) && AllMakeWait(setup.cfg, demands)
    requires Inv(setup, s) && Enabled(setup, s, step) && Calm(demands, s, step) && Waiting(setup, s, id)
    requires step.Claim? ==> id !in step.picked
    ensures KeepsPlace(setup, s, Apply(setup, s, step), id)
  {
    match step
    case Claim(w, skip, picked) => ClaimMovesOn(setup, s, w, picked, id);
    case Insert(row) => InsertGoesBehind(setup, demands, s, row, id);
    case NoSender(w) => QueuedHasSender(setup, s, w);
    case Mark(w) =>
      SentMovesAway(setup, s, w, id);
      match s.workers[w].phase.outcome {
        case Delivered =>
        case SendFailed(error, retryAfter) => FailedMovesBehind(setup, s, w, error, retryAfter, id);
      }
    case _ =>
  }

  lemma StepKeepsLeases(setup: Setup, s: State, step: Step)
    requires Enabled(setup, s, step)
    ensures var t := Apply(setup, s, step);
            |s.leases| <= |t.leases| && forall j :: 0 <= j < |s.leases| ==> t.leases[j].row == s.leases[j].row
  {
  }

  lemma {:induction false} LeadsKeepsLeases(setup: Setup, demands: int -> bool, s: State, steps: seq<Step>, t: State)
    requires LeadsCalmly(setup, demands, s, steps, t)
    ensures |s.leases| <= |t.leases| && forall j :: 0 <= j < |s.leases| ==> t.leases[j].row == s.leases[j].row
    decreases |steps|
  {
    if steps != [] {
      StepKeepsLeases(setup, s, steps[0]);
      LeadsKeepsLeases(setup, demands, Apply(setup, s, steps[0]), steps[1..], t);
    }
  }

  lemma ClaimedIsLeased(setup: Setup, demands: int -> bool, s: State, w: string, picked: seq<int>, steps: seq<Step>,
                        t: State, id: int)
    requires Enabled(setup, s, Claim(w, {}, picked)) && id in picked
    requires LeadsCalmly(setup, demands, Apply(setup, s, Claim(w, {}, picked)), steps, t)
    ensures LeasedSince(t, |s.leases|, id)
  {
    var i :| 0 <= i < |picked| && picked[i] == id;
    var s' := Apply(setup, s, Claim(w, {}, picked));
    assert s'.leases[|s.leases| + i].row == id;
    LeadsKeepsLeases(setup, demands, s', steps, t);
    assert t.leases[|s.leases| + i].row == id;
  }

  /** A step that does not take the row leaves it waiting, and a claim brings it a full batch forward. */
  lemma StepMovesOn(setup: Setup, demands: int -> bool, s: State, step: Step, id: int)
    requires SetupOk(setup) && AllMakeWait(setup.cfg, demands)
    requires Inv(setup, s) && Enabled(setup, s, step) && Calm(demands, s, step) && Waiting(setup, s, id)
    requires step.Claim? ==> id !in step.picked
    ensures var t := Apply(setup, s, step);
            && Inv(setup, t) && Waiting(setup, t, id) && |s.leases| <= |t.leases|
            && |Ahead(setup, t, id)|
               + (if step.Claim? then EffectiveLimit(setup.cfg.batchSize) else 0) <= |Ahead(setup, s, id)|
  {
    StepKeepsInv(setup, s, step);
    StepKeepsPlace(setup, demands, s, step, id);
    StepKeepsLeases(setup, s, step);
    SubsetSmaller(Ahead(setup, Apply(setup, s, step), id), Ahead(setup, s, id));
    if step.Claim? { ClaimMovesOn(setup, s, step.w, step.picked, id); }
  }

  lemma ClaimsLeft(steps: seq<Step>, limit: int, k: nat)
    requires steps != [] && k < Claims(steps) * limit
    ensures (if steps[0].Claim? then k - limit else k) < Claims(steps[1..]) * limit
  {
    assert (1 + Claims(steps[1..])) * limit == limit + Claims(steps[1..]) * limit;
  }

  lemma {:induction false} TakenInTime(setup: Setup, demands: int -> bool, s: State, steps: seq<Step>, t: State,
                                       id: int)
    requires SetupOk(setup) && AllMakeWait(setup.cfg, demands)
    requires Inv(setup, s) && LeadsCalmly(setup, demands, s, steps, t) && Waiting(setup, s, id)
    requires |Ahead(setup, s, id)| < Claims(steps) * EffectiveLimit(setup.cfg.batchSize)
    ensures LeasedSince(t, |s.leases|, id)
    decreases |steps|
  {
    assert steps != [];
    if steps[0].Claim? && id in steps[0].picked {
      ClaimedIsLeased(setup, demands, s, steps[0].w, steps[0].picked, steps[1..], t, id);
    } else {
      StepMovesOn(setup, demands, s, steps[0], id);
      ClaimsLeft(steps, EffectiveLimit(setup.cfg.batchSize), |Ahead(setup, s, id)|);
      TakenInTime(setup, demands, Apply(setup, s, steps[0]), steps[1..], t, id);
    }
  }

  lemma QuotientBound(k: nat, limit: int, claims: nat)
    requires limit > 0 && claims >= k / limit + 1
    ensures k < claims * limit
  {
    var q := k / limit;
    assert (q + 1) * limit == q * limit + limit;
    var extra := claims - (q + 1);
    assert extra * limit >= 0;
    assert claims * limit == (q + 1) * limit + extra * limit;
  }

  /** When no lock has run out, the waiting rows are the claimable ones. */
  lemma WaitingIsClaimable(setup: Setup, s: State, id: int)
    requires Inv(setup, s) && NoExpiry(s) && id in s.rows
    ensures Waiting(setup, s, id) <==> CanClaim(setup, s, id)
  {
    assert RowOk(id, s.rows[id]);
  }

  predicate CanClaim(setup: Setup, s: State, id: int)
    requires id in s.rows
  {
    Claimable(s.rows[id], s.now, NormalizeChannels(setup.senders))
  }

  /** The claimable rows that precede row id in claim order. */
  function ClaimableAhead(setup: Setup, s: State, id: int): set<int>
    requires id in s.rows
  {
    set x | x in s.rows && CanClaim(setup, s, x) && Before(s.rows[x], s.rows[id])
  }

  /**
   With k claimable rows ahead, a due row is claimed within k / limit + 1 claims, however sends, failures and inserts
   interleave.
   */
  lemma BoundedOvertaking(setup: Setup, demands: int -> bool, s: State, steps: seq<Step>, t: State, id: int)
    requires SetupOk(setup) && AllMakeWait(setup.cfg, demands)
    requires Inv(setup, s) && LeadsCalmly(setup, demands, s, steps, t)
    requires id in s.rows && CanClaim(setup, s, id)
    requires Claims(steps) >= |ClaimableAhead(setup, s, id)| / EffectiveLimit(setup.cfg.batchSize) + 1
    ensures LeasedSince(t, |s.leases|, id)
  {
    assert steps != [] && NoExpiry(s);
    forall x | x in s.rows ensures Waiting(setup, s, x) <==> CanClaim(setup, s, x) {
      WaitingIsClaimable(setup, s, x);
    }
    assert Ahead(setup, s, id) == ClaimableAhead(setup, s, id);
    QuotientBound(|Ahead(setup, s, id)|, EffectiveLimit(setup.cfg.batchSize), Claims(steps));
    TakenInTime(setup, demands, s, steps, t, id);
  }
}
