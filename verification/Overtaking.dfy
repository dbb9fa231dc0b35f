/** When overtaking in the outbox is bounded: exactly when every failed send makes its row wait. */
module Overtaking {
  import opened Basics
  import opened Tables
  import opened Outbox
  import opened Dispatch
  import opened DispatchLaws
  import opened DispatchSends
  import opened Fairness

  ghost predicate Reachable(setup: Setup, s: State) {
    exists start: State, steps: seq<Step> :: Initial(start) && Leads(setup, start, steps, s)
  }

  /** Along these steps the row, if it is claimable at first, is claimed within k / limit + 1 claims. */
  ghost predicate TakenAmong(setup: Setup, demands: int -> bool, s: State, steps: seq<Step>, t: State, id: int) {
    LeadsCalmly(setup, demands, s, steps, t) && id in s.rows && CanClaim(setup, s, id)
    && Claims(steps) >= |ClaimableAhead(setup, s, id)| / EffectiveLimit(setup.cfg.batchSize) + 1
    ==> LeasedSince(t, |s.leases|, id)
  }

  ghost predicate OvertakingIsBounded(setup: Setup, demands: int -> bool) {
    forall s: State, steps: seq<Step>, t: State, id: int ::
      Reachable(setup, s) ==> TakenAmong(setup, demands, s, steps, t, id)
  }

  // ---------- reaching a state ----------

  lemma ReachableKeepsInv(setup: Setup, s: State)
    requires SetupOk(setup) && Reachable(setup, s)
    ensures Inv(setup, s)
  {
    var start, steps :| Initial(start) && Leads(setup, start, steps, s);
    InitialInv(setup, start);
    LeadsKeepsInv(setup, start, steps, s);
  }

  lemma StepIsReachable(setup: Setup, s: State, step: Step)
    requires Reachable(setup, s) && Enabled(setup, s, step)
    ensures Reachable(setup, Apply(setup, s, step))
  {
    var start, steps :| Initial(start) && Leads(setup, start, steps, s);
    LeadsFirst(setup, s, step, [], Apply(setup, s, step));
    LeadsThen(setup, start, steps, s, [step] + [], Apply(setup, s, step));
  }

  // ---------- a row that fails again and again ----------

  function OneTo(n: nat): (r: set<int>)
    ensures |r| == n && forall x :: x in r <==> 1 <= x <= n
  {
    if n == 0 then {} else OneTo(n - 1) + {n}
  }

  /** Row 1 as it is before, between and during its tries. */
  predicate FailingRow(setup: Setup, r: OutboxRow, failures: nat) {
    setup.senders != [] && r.id == 1 && r.channel == setup.senders[0] && r.maxRetries == 12 && r.retryCount == failures
  }

  /** The failing row is alone and can be claimed. */
  predicate BetweenTries(setup: Setup, s: State, failures: nat) {
    && s.rows.Keys == {1} && FailingRow(setup, s.rows[1], failures)
    && (s.rows[1].status.Pending? || s.rows[1].status.Failed?) && s.rows[1].nextRetryAt <= s.now
    && s.workers.Keys == {"w"} && s.workers["w"] == Worker([], Ready)
  }

  /** Rows 2 to count have just been inserted, due now. */
  predicate OthersDue(setup: Setup, rows: map<int, OutboxRow>, now: int, count: nat) {
    setup.senders != [] && rows.Keys == OneTo(count) && count >= 1
    && forall id | 1 < id <= count :: Due(rows[id], id, setup.senders[0], now)
  }

  predicate Due(r: OutboxRow, id: int, channel: string, now: int) {
    r.id == id && r.channel == channel && NewRow(r) && r.nextRetryAt == now
  }

  /** The send of the failing row has just failed. */
  predicate Refused(setup: Setup, s: State, failures: nat, retryAfter: int) {
    && 1 in s.rows && FailingRow(setup, s.rows[1], failures) && s.rows[1].status.Processing?
    && s.rows[1].lockedBy == "w" && s.rows[1].lockedUntil.Some? && s.now <= s.rows[1].lockedUntil.value
    && s.workers.Keys == {"w"} && s.workers["w"].phase == Answered(SendFailed("", retryAfter))
    && |s.workers["w"].queue| == 1 && s.workers["w"].queue[0].row == s.rows[1]
  }

  predicate LastTry(setup: Setup, s: State, failures: nat, retryAfter: int, count: nat) {
    Refused(setup, s, failures, retryAfter) && OthersDue(setup, s.rows, s.now, count)
  }

  /** The row is claimed and sent, and the send fails. */
  lemma TryFails(setup: Setup, s: State, failures: nat, retryAfter: int)
    requires SetupOk(setup) && Reachable(setup, s) && BetweenTries(setup, s, failures)
    ensures exists t :: Reachable(setup, t) && LastTry(setup, t, failures, retryAfter, 1)
  {
    TryStarts(setup, s, failures);
    var t :| Reachable(setup, t) && Taken(setup, t, failures);
    var failed := EndSend("w", SendFailed("", retryAfter));
    SendIsRefused(setup, t, failures, retryAfter);
    StepIsReachable(setup, t, StartSend("w"));
    StepIsReachable(setup, Apply(setup, t, StartSend("w")), failed);
  }

  lemma SendIsRefused(setup: Setup, s: State, failures: nat, retryAfter: int)
    requires SetupOk(setup) && Taken(setup, s, failures)
    ensures Enabled(setup, s, StartSend("w"))
    ensures var u, failed := Apply(setup, s, StartSend("w")), EndSend("w", SendFailed("", retryAfter));
            Enabled(setup, u, failed) && LastTry(setup, Apply(setup, u, failed), failures, retryAfter, 1)
  {
  }

  /** The failing row is claimed and about to be sent. */
  predicate Taken(setup: Setup, s: State, failures: nat) {
    && s.rows.Keys == {1} && FailingRow(setup, s.rows[1], failures) && s.rows[1].status.Processing?
    && s.rows[1].lockedBy == "w" && s.rows[1].lockedUntil.Some? && s.now <= s.rows[1].lockedUntil.value
    && s.workers.Keys == {"w"} && s.workers["w"].phase.Ready?
    && |s.workers["w"].queue| == 1 && s.workers["w"].queue[0].row == s.rows[1]
  }

  lemma TryStarts(setup: Setup, s: State, failures: nat)
    requires SetupOk(setup) && Reachable(setup, s) && BetweenTries(setup, s, failures)
    ensures exists t :: Reachable(setup, t) && Taken(setup, t, failures)
  {
    ReachableKeepsInv(setup, s);
    assert RowOk(1, s.rows[1]);
    LoneRowIsPicked(setup, s, "w", 1);
    StepIsReachable(setup, s, Claim("w", {}, [1]));
    assert Taken(setup, Apply(setup, s, Claim("w", {}, [1])), failures);
  }

  /** The failure is marked and the clock runs until the row is due again. */
  lemma TryIsOver(setup: Setup, s: State, failures: nat, retryAfter: int)
    requires SetupOk(setup) && Reachable(setup, s) && LastTry(setup, s, failures, retryAfter, 1) && failures + 1 < 12
    ensures exists t :: Reachable(setup, t) && BetweenTries(setup, t, failures + 1)
  {
    var t := Apply(setup, s, Mark("w"));
    StepIsReachable(setup, s, Mark("w"));
    var wait := Max(0, t.rows[1].nextRetryAt - t.now);
    StepIsReachable(setup, t, Tick(wait));
    assert BetweenTries(setup, Apply(setup, t, Tick(wait)), failures + 1);
  }

  lemma FirstTry(setup: Setup)
    requires SetupOk(setup)
    ensures exists t :: Reachable(setup, t) && BetweenTries(setup, t, 0)
  {
    var s := State(0, map[], map["w" := Worker([], Ready)], [], [], [], {});
    assert TrimLeft("w") == "w" && TrimRight("w") == "w";
    assert Initial(s) && Leads(setup, s, [], s);
    var row: OutboxRow := *;
    row := row.(id := 1, channel := setup.senders[0], status := Pending, retryCount := 0, maxRetries := 12,
                nextRetryAt := 0, lockedBy := "", lockedUntil := None);
    StepIsReachable(setup, s, Insert(row));
    assert BetweenTries(setup, Apply(setup, s, Insert(row)), 0);
  }

  lemma {:induction false} TriesAreReachable(setup: Setup, failures: nat, retryAfter: int)
    requires SetupOk(setup) && failures < 12
    ensures exists t :: Reachable(setup, t) && LastTry(setup, t, failures, retryAfter, 1)
  {
    if failures == 0 {
      FirstTry(setup);
    } else {
      TriesAreReachable(setup, failures - 1, retryAfter);
      var s :| Reachable(setup, s) && LastTry(setup, s, failures - 1, retryAfter, 1);
      TryIsOver(setup, s, failures - 1, retryAfter);
    }
    var t :| Reachable(setup, t) && BetweenTries(setup, t, failures);
    TryFails(setup, t, failures, retryAfter);
  }

  lemma OneMoreIsDue(setup: Setup, s: State, failures: nat, retryAfter: int, count: nat)
    requires Reachable(setup, s) && LastTry(setup, s, failures, retryAfter, count)
    ensures exists t :: Reachable(setup, t) && LastTry(setup, t, failures, retryAfter, count + 1)
  {
    var row: OutboxRow := *;
    row := row.(id := count + 1, channel := setup.senders[0], status := Pending, retryCount := 0,
                nextRetryAt := s.now, lockedBy := "", lockedUntil := None);
    StepIsReachable(setup, s, Insert(row));
    var t := Apply(setup, s, Insert(row));
    RowsWithOneMore(setup, s.rows, s.now, count, row);
    assert LastTry(setup, t, failures, retryAfter, count + 1);
  }

  lemma RowsWithOneMore(setup: Setup, rows: map<int, OutboxRow>, now: int, count: nat, row: OutboxRow)
    requires OthersDue(setup, rows, now, count) && Due(row, count + 1, setup.senders[0], now)
    ensures OthersDue(setup, rows[count + 1 := row], now, count + 1)
  {
  }

  /** The row has failed that often and others are due by now. */
  lemma {:induction false} CrowdIsReachable(setup: Setup, failures: nat, retryAfter: int, count: nat)
    requires SetupOk(setup) && failures < 12 && count >= 1
    ensures exists t :: Reachable(setup, t) && LastTry(setup, t, failures, retryAfter, count)
    decreases count
  {
    if count == 1 {
      TriesAreReachable(setup, failures, retryAfter);
    } else {
      CrowdIsReachable(setup, failures, retryAfter, count - 1);
      var s :| Reachable(setup, s) && LastTry(setup, s, failures, retryAfter, count - 1);
      OneMoreIsDue(setup, s, failures, retryAfter, count - 1);
    }
  }

  // ---------- a row that comes back to the front ----------

  function FromOne(n: nat): (r: seq<int>)
    ensures |r| == n && forall i :: 0 <= i < n ==> r[i] == i + 1
    ensures forall x :: x in r <==> 1 <= x <= n
  {
    if n == 0 then [] else FromOne(n - 1) + [n]
  }

  /** A row that can be claimed, as one of them in order. */
  predicate Standing(r: OutboxRow, id: int, channel: string, now: int) {
    && r.id == id && r.channel == channel && r.lockedUntil.None? && (r.status.Pending? || r.status.Failed?)
    && (if id == 1 then r.nextRetryAt <= now else r.nextRetryAt == now)
  }

  /** After a failure without a wait the failed row precedes all others. */
  predicate BackInFront(setup: Setup, s: State, count: nat) {
    && setup.senders != [] && s.rows.Keys == OneTo(count)
    && "w" in s.workers && s.workers["w"] == Worker([], Ready)
    && forall id | 1 <= id <= count :: Standing(s.rows[id], id, setup.senders[0], s.now)
  }

  /** What the mark does to the state. */
  predicate IsMarked(setup: Setup, s: State, t: State, n: nat, retryAfter: int)
    requires 1 in s.rows
  {
    && "w" in t.workers && t.workers["w"] == Worker([], Ready) && t.now == s.now && |t.leases| == |s.leases|
    && t.rows == s.rows[1 := s.rows[1].(status := Failed, retryCount := n, lockedBy := "", lockedUntil := None,
                                        nextRetryAt := s.now + SendFailureDelay(setup.cfg, n, retryAfter),
                                        lastError := "")]
  }

  lemma MarkEffect(setup: Setup, s: State, failures: nat, retryAfter: int)
    requires Refused(setup, s, failures, retryAfter) && failures + 1 < 12
    ensures Enabled(setup, s, Mark("w")) && IsMarked(setup, s, Apply(setup, s, Mark("w")), failures + 1, retryAfter)
  {
  }

  lemma FailureBringsBack(setup: Setup, s: State, t: State, n: nat, retryAfter: int, count: nat)
    requires OthersDue(setup, s.rows, s.now, count) && s.rows[1].id == 1 && s.rows[1].channel == setup.senders[0]
    requires IsMarked(setup, s, t, n, retryAfter) && SendFailureDelay(setup.cfg, n, retryAfter) <= 0
    ensures BackInFront(setup, t, count)
  {
    forall id | 1 <= id <= count ensures Standing(t.rows[id], id, setup.senders[0], t.now) {
      if id > 1 { assert Due(s.rows[id], id, setup.senders[0], s.now); }
    }
  }

  lemma SenderIsNamed(setup: Setup)
    requires SetupOk(setup)
    ensures setup.senders[0] in NormalizeChannels(setup.senders)
  {
    NormalizeChannelsLaw(setup.senders);
    assert Names(setup.senders, setup.senders[0]) by { assert TrimSpace(setup.senders[0]) == setup.senders[0]; }
  }

  lemma AllAreCandidates(setup: Setup, s: State, count: nat)
    requires SetupOk(setup) && BackInFront(setup, s, count)
    ensures Candidates(s.rows, s.now, NormalizeChannels(setup.senders), {}) == OneTo(count)
  {
    SenderIsNamed(setup);
    assert forall id | 1 <= id <= count :: Standing(s.rows[id], id, setup.senders[0], s.now);
  }

  predicate InOrder(rows: map<int, OutboxRow>, count: nat) {
    rows.Keys == OneTo(count) && forall a, b :: 1 <= a < b <= count ==> Before(rows[a], rows[b])
  }

  lemma FrontIsInOrder(setup: Setup, s: State, count: nat)
    requires BackInFront(setup, s, count)
    ensures InOrder(s.rows, count)
  {
    forall a, b | 1 <= a < b <= count ensures Before(s.rows[a], s.rows[b]) {
      assert Standing(s.rows[a], a, setup.senders[0], s.now) && Standing(s.rows[b], b, setup.senders[0], s.now);
    }
  }

  lemma AllButTheLast(rows: map<int, OutboxRow>, limit: nat)
    requires InOrder(rows, limit + 1)
    ensures Picks(rows, OneTo(limit + 1), limit, FromOne(limit))
  {
    var picked := FromOne(limit);
    forall i, id | 0 <= i < limit && id in OneTo(limit + 1) && id !in picked ensures Before(rows[picked[i]], rows[id]) {
      assert id == limit + 1;
    }
  }

  /** A claim then takes every row but the last. */
  lemma FrontIsClaimed(setup: Setup, s: State, limit: nat)
    requires SetupOk(setup) && BackInFront(setup, s, limit + 1) && limit == EffectiveLimit(setup.cfg.batchSize)
    ensures Enabled(setup, s, Claim("w", {}, FromOne(limit)))
  {
    AllAreCandidates(setup, s, limit + 1);
    FrontIsInOrder(setup, s, limit + 1);
    AllButTheLast(s.rows, limit);
  }

  /** Then a row that had less than a full batch ahead of it is not claimed by the first claim. */
  lemma FailureOvertakes(setup: Setup, demands: int -> bool, s: State, failures: nat, retryAfter: int)
    requires var limit := EffectiveLimit(setup.cfg.batchSize); LastTry(setup, s, failures, retryAfter, limit + 1)
    requires SetupOk(setup) && failures + 1 < 12 && demands(retryAfter)
    requires SendFailureDelay(setup.cfg, failures + 1, retryAfter) <= 0
    ensures exists steps, t, id :: !TakenAmong(setup, demands, s, steps, t, id)
  {
    var limit := EffectiveLimit(setup.cfg.batchSize);
    var claim := Claim("w", {}, FromOne(limit));
    MarkThenClaim(setup, demands, s, failures, retryAfter);
    AheadIsShort(setup, s, failures, retryAfter, limit);
    NotTaken(setup, demands, s, [Mark("w"), claim], Apply(setup, Apply(setup, s, Mark("w")), claim), limit + 1);
  }

  lemma NotTaken(setup: Setup, demands: int -> bool, s: State, steps: seq<Step>, t: State, id: int)
    requires LeadsCalmly(setup, demands, s, steps, t) && id in s.rows && CanClaim(setup, s, id) && Claims(steps) == 1
    requires |ClaimableAhead(setup, s, id)| < EffectiveLimit(setup.cfg.batchSize) && !LeasedSince(t, |s.leases|, id)
    ensures !TakenAmong(setup, demands, s, steps, t, id)
  {
    var k, limit := |ClaimableAhead(setup, s, id)|, EffectiveLimit(setup.cfg.batchSize);
    QuotientUnique(k, limit, 0, k);
  }

  lemma MarkThenClaim(setup: Setup, demands: int -> bool, s: State, failures: nat, retryAfter: int)
    requires var limit := EffectiveLimit(setup.cfg.batchSize); LastTry(setup, s, failures, retryAfter, limit + 1)
    requires SetupOk(setup) && failures + 1 < 12 && demands(retryAfter)
    requires SendFailureDelay(setup.cfg, failures + 1, retryAfter) <= 0
    ensures var limit := EffectiveLimit(setup.cfg.batchSize);
            var u, claim := Apply(setup, s, Mark("w")), Claim("w", {}, FromOne(limit));
            && Enabled(setup, u, claim)
            && LeadsCalmly(setup, demands, s, [Mark("w"), claim], Apply(setup, u, claim))
            && Claims([Mark("w"), claim]) == 1
            && !LeasedSince(Apply(setup, u, claim), |s.leases|, limit + 1)
  {
    var limit := EffectiveLimit(setup.cfg.batchSize);
    var u := Apply(setup, s, Mark("w"));
    MarkEffect(setup, s, failures, retryAfter);
    FailureBringsBack(setup, s, u, failures + 1, retryAfter, limit + 1);
    FrontIsClaimed(setup, u, limit);
    AllDueUnlocked(setup, s, limit + 1);
    AllStandingUnlocked(setup, u, limit + 1);
    TwoCalmSteps(setup, demands, s, Mark("w"), Claim("w", {}, FromOne(limit)));
    FrontIsLeased(setup, u, limit);
  }

  lemma AllDueUnlocked(setup: Setup, s: State, count: nat)
    requires OthersDue(setup, s.rows, s.now, count)
    ensures forall id :: id in s.rows && id != 1 ==> s.rows[id].lockedUntil.None?
  {
    forall id | id in s.rows && id != 1 ensures s.rows[id].lockedUntil.None? {
      assert Due(s.rows[id], id, setup.senders[0], s.now);
    }
  }

  lemma AllStandingUnlocked(setup: Setup, s: State, count: nat)
    requires BackInFront(setup, s, count)
    ensures forall id :: id in s.rows ==> s.rows[id].lockedUntil.None?
  {
    forall id | id in s.rows ensures s.rows[id].lockedUntil.None? {
      assert Standing(s.rows[id], id, setup.senders[0], s.now);
    }
  }

  lemma TwoCalmSteps(setup: Setup, demands: int -> bool, s: State, a: Step, b: Step)
    requires Enabled(setup, s, a) && Calm(demands, s, a)
    requires Enabled(setup, Apply(setup, s, a), b) && Calm(demands, Apply(setup, s, a), b)
    ensures LeadsCalmly(setup, demands, s, [a, b], Apply(setup, Apply(setup, s, a), b))
    ensures Claims([a, b]) == (if a.Claim? then 1 else 0) + (if b.Claim? then 1 else 0)
  {
    assert [a, b][1..] == [b] && [b][1..] == [];
    assert Claims([b]) == (if b.Claim? then 1 else 0) + Claims([]);
  }

  lemma FrontIsLeased(setup: Setup, s: State, limit: nat)
    requires Enabled(setup, s, Claim("w", {}, FromOne(limit)))
    ensures !LeasedSince(Apply(setup, s, Claim("w", {}, FromOne(limit))), |s.leases|, limit + 1)
  {
  }

  lemma AheadIsShort(setup: Setup, s: State, failures: nat, retryAfter: int, limit: nat)
    requires LastTry(setup, s, failures, retryAfter, limit + 1) && SetupOk(setup) && limit >= 1
    ensures CanClaim(setup, s, limit + 1) && |ClaimableAhead(setup, s, limit + 1)| < limit
  {
    SenderIsNamed(setup);
    assert Due(s.rows[limit + 1], limit + 1, setup.senders[0], s.now);
    assert ClaimableAhead(setup, s, limit + 1) <= OneTo(limit) - {1};
    SubsetSmaller(ClaimableAhead(setup, s, limit + 1), OneTo(limit) - {1});
  }

  /**
   Overtaking is bounded in every run exactly when every demand that senders may report leads to a wait: when ten
   doublings of the base fit an int64, or each demand and a second do and come to something.
   */
  lemma OvertakingIsBoundedIff(setup: Setup, demands: int -> bool)
    requires SetupOk(setup) && setup.cfg.retryBaseDelay < TWO_63 && setup.cfg.retryMaxDelay < TWO_63
    requires forall x :: demands(x) ==> -TWO_63 <= x < TWO_63
    ensures OvertakingIsBounded(setup, demands) <==> AllMakeWait(setup.cfg, demands)
  {
    if AllMakeWait(setup.cfg, demands) {
      forall s: State, steps: seq<Step>, t: State, id: int | Reachable(setup, s)
        ensures TakenAmong(setup, demands, s, steps, t, id)
      {
        BoundHolds(setup, demands, s, steps, t, id);
      }
    } else {
      var x :| demands(x) && !WaitsAfter(setup.cfg, x);
      SomeRowIsOvertaken(setup, demands, x);
    }
  }

  lemma SomeRowIsOvertaken(setup: Setup, demands: int -> bool, retryAfter: int)
    requires SetupOk(setup) && setup.cfg.retryBaseDelay < TWO_63 && setup.cfg.retryMaxDelay < TWO_63
    requires demands(retryAfter) && -TWO_63 <= retryAfter < TWO_63 && !WaitsAfter(setup.cfg, retryAfter)
    ensures !OvertakingIsBounded(setup, demands)
  {
    var n := NoWait(setup.cfg, retryAfter);
    FailureWithoutWait(setup, demands, n - 1, retryAfter);
  }

  lemma FailureWithoutWait(setup: Setup, demands: int -> bool, failures: nat, retryAfter: int)
    requires SetupOk(setup) && failures + 1 < 12 && demands(retryAfter)
    requires SendFailureDelay(setup.cfg, failures + 1, retryAfter) <= 0
    ensures !OvertakingIsBounded(setup, demands)
  {
    var count := EffectiveLimit(setup.cfg.batchSize) + 1;
    CrowdIsReachable(setup, failures, retryAfter, count);
    var s :| Reachable(setup, s) && LastTry(setup, s, failures, retryAfter, count);
    CrowdOvertakes(setup, demands, s, failures, retryAfter);
  }

  lemma CrowdOvertakes(setup: Setup, demands: int -> bool, s: State, failures: nat, retryAfter: int)
    requires var limit := EffectiveLimit(setup.cfg.batchSize); LastTry(setup, s, failures, retryAfter, limit + 1)
    requires SetupOk(setup) && Reachable(setup, s) && failures + 1 < 12 && demands(retryAfter)
    requires SendFailureDelay(setup.cfg, failures + 1, retryAfter) <= 0
    ensures !OvertakingIsBounded(setup, demands)
  {
    FailureOvertakes(setup, demands, s, failures, retryAfter);
    var steps, t, id :| !TakenAmong(setup, demands, s, steps, t, id);
  }

  lemma BoundHolds(setup: Setup, demands: int -> bool, s: State, steps: seq<Step>, t: State, id: int)
    requires SetupOk(setup) && Reachable(setup, s) && AllMakeWait(setup.cfg, demands)
    ensures TakenAmong(setup, demands, s, steps, t, id)
  {
    ReachableKeepsInv(setup, s);
    if LeadsCalmly(setup, demands, s, steps, t) && id in s.rows && CanClaim(setup, s, id)
       && Claims(steps) >= |ClaimableAhead(setup, s, id)| / EffectiveLimit(setup.cfg.batchSize) + 1 {
      BoundedOvertaking(setup, demands, s, steps, t, id);
    }
  }
}
