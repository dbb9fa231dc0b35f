/** What every run of the outbox protocol keeps: fences, leases, retry accounting, waiting and sends. */
module DispatchLaws {
  import opened Basics
  import opened Tables
  import opened Outbox
  import opened Dispatch
  import Backoff

  // ---------- retry accounting ----------

  /** Effective failure marks of a row. */
  function FailureCount(failures: seq<Failure>, id: int): nat {
    if failures == [] then 0
    else FailureCount(failures[..|failures| - 1], id) + (if failures[|failures| - 1].row == id then 1 else 0)
  }

  lemma FailureCounted(failures: seq<Failure>, f: Failure, id: int)
    ensures FailureCount(failures + [f], id) == FailureCount(failures, id) + (if f.row == id then 1 else 0)
  {
    assert (failures + [f])[..|failures|] == failures;
  }

  predicate Counted(s: State, id: int) {
    FailureCount(s.failures, id) == if id in s.rows then s.rows[id].retryCount else 0
  }

  ghost predicate AllCounted(s: State) {
    forall id :: Counted(s, id)
  }

  lemma MarkFailedCounts(setup: Setup, s: State, w: string, error: string, retryAfter: int)
    requires Inv(setup, s) && AllCounted(s) && w in s.workers && s.workers[w].queue != []
    ensures AllCounted(MarkFailedBy(setup, s, w, error, retryAfter))
  {
    EffectiveIsHeld(setup, s, w);
    var ticket, cfg := s.workers[w].queue[0].row, RetryOf(setup.cfg, retryAfter);
    var f := Failure(ticket.id, s.now + FailureDelay(ticket.retryCount + 1, cfg), |s.leases|);
    forall id ensures Counted(MarkFailedBy(setup, s, w, error, retryAfter), id) {
      assert Counted(s, id);
      FailureCounted(s.failures, f, id);
    }
  }

  lemma MarkSentCounts(setup: Setup, s: State, w: string)
    requires Inv(setup, s) && AllCounted(s) && w in s.workers && s.workers[w].queue != []
    ensures AllCounted(MarkSentBy(s, w))
  {
    EffectiveIsHeld(setup, s, w);
    forall id ensures Counted(MarkSentBy(s, w), id) {
      assert Counted(s, id);
    }
  }

  lemma StepKeepsCounts(setup: Setup, s: State, step: Step)
    requires Inv(setup, s) && AllCounted(s) && Enabled(setup, s, step)
    ensures AllCounted(Apply(setup, s, step))
  {
    match step
    case NoSender(w) => MarkFailedCounts(setup, s, w, "notification sender not found", 0);
    case Mark(w) =>
      MarkSentCounts(setup, s, w);
      if s.workers[w].phase.outcome.SendFailed? {
        MarkFailedCounts(setup, s, w, s.workers[w].phase.outcome.error,
                         Wrap64(s.workers[w].phase.outcome.retryAfter + SECOND));
      }
    case _ =>
      var t := Apply(setup, s, step);
      forall id ensures Counted(t, id) {
        assert Counted(s, id);
      }
  }

  lemma {:induction false} LeadsKeepsInv(setup: Setup, s: State, steps: seq<Step>, t: State)
    requires SetupOk(setup) && Inv(setup, s) && Leads(setup, s, steps, t)
    ensures Inv(setup, t)
    decreases |steps|
  {
    if steps != [] {
      StepKeepsInv(setup, s, steps[0]);
      LeadsKeepsInv(setup, Apply(setup, s, steps[0]), steps[1..], t);
    }
  }

  lemma {:induction false} LeadsKeepsCounts(setup: Setup, s: State, steps: seq<Step>, t: State)
    requires SetupOk(setup) && Inv(setup, s) && AllCounted(s) && Leads(setup, s, steps, t)
    ensures AllCounted(t)
    decreases |steps|
  {
    if steps != [] {
      StepKeepsInv(setup, s, steps[0]);
      StepKeepsCounts(setup, s, steps[0]);
      LeadsKeepsCounts(setup, Apply(setup, s, steps[0]), steps[1..], t);
    }
  }

  /**
   In every reachable state a row's retry_count is the number of its effective failure marks, at most the maximum, and
   the row is dead exactly at the maximum.
   */
  lemma RetryAccounting(setup: Setup, s: State, steps: seq<Step>, t: State, id: int)
    requires SetupOk(setup) && Initial(s) && Leads(setup, s, steps, t) && id in t.rows
    ensures t.rows[id].retryCount == FailureCount(t.failures, id) <= EffectiveMax(t.rows[id].maxRetries)
    ensures t.rows[id].status.Dead? <==> FailureCount(t.failures, id) == EffectiveMax(t.rows[id].maxRetries)
  {
    InitialInv(setup, s);
    assert AllCounted(s);
    LeadsKeepsInv(setup, s, steps, t);
    LeadsKeepsCounts(setup, s, steps, t);
    assert Counted(t, id) && RowOk(id, t.rows[id]);
  }

  /** While a worker's remembered row is locked by that worker, its retry count is the stored one. */
  lemma SnapshotCountIsStored(setup: Setup, s: State, steps: seq<Step>, t: State, w: string, k: nat)
    requires SetupOk(setup) && Initial(s) && Leads(setup, s, steps, t)
    requires w in t.workers && k < |t.workers[w].queue|
    ensures var row := t.workers[w].queue[k].row;
            row.id in t.rows && (t.rows[row.id].lockedBy == w ==> t.rows[row.id].retryCount == row.retryCount)
  {
    InitialInv(setup, s);
    LeadsKeepsInv(setup, s, steps, t);
    assert QueueOk(setup, t, w, t.workers[w].queue);
    assert TicketOk(setup, t, w, t.workers[w].queue[k]);
  }

  // ---------- fence and absorbing states ----------

  /** In every reachable state a row is processing exactly when it has an owner, and exactly when it has a lock time. */
  lemma ProcessingIffLocked(setup: Setup, s: State, steps: seq<Step>, t: State, id: int)
    requires SetupOk(setup) && Initial(s) && Leads(setup, s, steps, t) && id in t.rows
    ensures t.rows[id].status.Processing? <==> t.rows[id].lockedBy != ""
    ensures t.rows[id].status.Processing? <==> t.rows[id].lockedUntil.Some?
  {
    InitialInv(setup, s);
    LeadsKeepsInv(setup, s, steps, t);
    assert RowOk(id, t.rows[id]);
  }

  predicate Terminal(r: OutboxRow) {
    r.status.Sent? || r.status.Dead?
  }

  lemma StepKeepsTerminal(setup: Setup, s: State, step: Step, id: int)
    requires SetupOk(setup) && Inv(setup, s) && Enabled(setup, s, step)
    requires id in s.rows && Terminal(s.rows[id])
    ensures var t := Apply(setup, s, step); id in t.rows && t.rows[id] == s.rows[id]
  {
    assert RowOk(id, s.rows[id]);
    match step
    case Claim(w, skip, picked) => PickedAreClaimable(setup, s, w, skip, picked);
    case NoSender(w) => EffectiveIsHeld(setup, s, w);
    case Mark(w) => EffectiveIsHeld(setup, s, w);
    case _ =>
  }

  /** Sent and dead rows never change again. */
  lemma {:induction false} TerminalRowsStay(setup: Setup, s: State, steps: seq<Step>, t: State, id: int)
    requires SetupOk(setup) && Inv(setup, s) && Leads(setup, s, steps, t)
    requires id in s.rows && Terminal(s.rows[id])
    ensures id in t.rows && t.rows[id] == s.rows[id]
    decreases |steps|
  {
    if steps != [] {
      StepKeepsInv(setup, s, steps[0]);
      StepKeepsTerminal(setup, s, steps[0], id);
      TerminalRowsStay(setup, Apply(setup, s, steps[0]), steps[1..], t, id);
    }
  }

  /** A mark changes a row exactly when the worker still owns it; a late mark only drops the ticket. */
  lemma MarkIsFenced(setup: Setup, s: State, w: string)
    requires SetupOk(setup) && Inv(setup, s) && Enabled(setup, s, Mark(w))
    ensures var ticket, t := s.workers[w].queue[0].row, Apply(setup, s, Mark(w));
            if ticket.id != 0 && s.rows[ticket.id].lockedBy == w
            then t.rows.Keys == s.rows.Keys && t.rows[ticket.id].lockedBy == ""
                && t.rows[ticket.id] != s.rows[ticket.id]
                 && forall id :: id in s.rows && id != ticket.id ==> t.rows[id] == s.rows[id]
            else t == s.(workers := Popped(s, w))
  {
    EffectiveIsHeld(setup, s, w);
  }

  /** Claimed rows always have a sender. */
  lemma SenderIsAlwaysKnown(setup: Setup, s: State, steps: seq<Step>, t: State, w: string)
    requires SetupOk(setup) && Initial(s) && Leads(setup, s, steps, t)
    ensures !Enabled(setup, t, NoSender(w))
  {
    InitialInv(setup, s);
    LeadsKeepsInv(setup, s, steps, t);
    QueuedHasSender(setup, t, w);
  }

  // ---------- leases ----------

  /** The lease is in force at time x. */
  predicate InForce(l: Lease, x: int) {
    l.from <= x <= l.until && (l.released.Some? ==> x < l.released.value)
  }

  /** Over a whole run no instant lies in two leases of one row. */
  lemma LeasesAreExclusive(setup: Setup, s: State, steps: seq<Step>, t: State, i: nat, j: nat, x: int)
    requires SetupOk(setup) && Initial(s) && Leads(setup, s, steps, t)
    requires i < j < |t.leases| && t.leases[i].row == t.leases[j].row
    ensures !(InForce(t.leases[i], x) && InForce(t.leases[j], x))
  {
    InitialInv(setup, s);
    LeadsKeepsInv(setup, s, steps, t);
    assert Over(t.leases[i], t.leases[j].from);
  }

  /** The lease that is in force now is the stored lock. */
  lemma LeaseInForceIsStored(setup: Setup, s: State, steps: seq<Step>, t: State, i: nat)
    requires SetupOk(setup) && Initial(s) && Leads(setup, s, steps, t)
    requires i < |t.leases| && InForce(t.leases[i], t.now)
    ensures HeldBy(t.rows, t.leases[i])
  {
    InitialInv(setup, s);
    LeadsKeepsInv(setup, s, steps, t);
    assert LeaseOk(setup, t, t.leases[i]);
  }

  // ---------- a sent row was delivered ----------

  predicate DeliveredOk(s: State) {
    && (forall id :: id in s.rows && s.rows[id].status.Sent? ==> id in s.delivered)
    && (forall w :: w in s.workers && s.workers[w].phase == Answered(Delivered) ==>
          s.workers[w].queue != [] && s.workers[w].queue[0].row.id in s.delivered)
  }

  lemma MarkSentKeepsDelivered(setup: Setup, s: State, w: string)
    requires Inv(setup, s) && DeliveredOk(s) && w in s.workers && s.workers[w].phase == Answered(Delivered)
    ensures DeliveredOk(MarkSentBy(s, w))
  {
    EffectiveIsHeld(setup, s, w);
  }

  lemma MarkFailedKeepsDelivered(setup: Setup, s: State, w: string, error: string, retryAfter: int)
    requires Inv(setup, s) && DeliveredOk(s) && w in s.workers && s.workers[w].queue != []
    ensures DeliveredOk(MarkFailedBy(setup, s, w, error, retryAfter))
  {
    EffectiveIsHeld(setup, s, w);
  }

  lemma StepKeepsDelivered(setup: Setup, s: State, step: Step)
    requires SetupOk(setup) && Inv(setup, s) && DeliveredOk(s) && Enabled(setup, s, step)
    ensures DeliveredOk(Apply(setup, s, step))
  {
    match step
    case NoSender(w) => MarkFailedKeepsDelivered(setup, s, w, "notification sender not found", 0);
    case Mark(w) =>
      if s.workers[w].phase.outcome.Delivered? {
        MarkSentKeepsDelivered(setup, s, w);
      } else {
        MarkFailedKeepsDelivered(setup, s, w, s.workers[w].phase.outcome.error,
                                 Wrap64(s.workers[w].phase.outcome.retryAfter + SECOND));
      }
    case _ =>
  }

  lemma {:induction false} LeadsKeepsDelivered(setup: Setup, s: State, steps: seq<Step>, t: State)
    requires SetupOk(setup) && Inv(setup, s) && DeliveredOk(s) && Leads(setup, s, steps, t)
    ensures DeliveredOk(t)
    decreases |steps|
  {
    if steps != [] {
      StepKeepsInv(setup, s, steps[0]);
      StepKeepsDelivered(setup, s, steps[0]);
      LeadsKeepsDelivered(setup, Apply(setup, s, steps[0]), steps[1..], t);
    }
  }

  /** A sent row was sent successfully at least once. */
  lemma SentWasDelivered(setup: Setup, s: State, steps: seq<Step>, t: State, id: int)
    requires SetupOk(setup) && Initial(s) && Leads(setup, s, steps, t)
    requires id in t.rows && t.rows[id].status.Sent?
    ensures id in t.delivered
  {
    InitialInv(setup, s);
    LeadsKeepsDelivered(setup, s, steps, t);
  }

  // ---------- a failed row waits ----------

  /** An effective failure mark makes the row dead, or due after the backoff and after what the sender asked for. */
  lemma FailureSetsDue(setup: Setup, s: State, w: string, error: string, retryAfter: int)
    requires SetupOk(setup) && Inv(setup, s) && Enabled(setup, s, Mark(w))
    requires s.workers[w].phase == Answered(SendFailed(error, retryAfter))
             && Effective(s.rows, s.workers[w].queue[0].row)
    ensures var t, id := Apply(setup, s, Mark(w)), s.workers[w].queue[0].row.id;
            && t.rows[id].retryCount == s.rows[id].retryCount + 1
            && |t.failures| == |s.failures| + 1 && t.failures[|s.failures|].row == id
               && t.failures[|s.failures|].leases == |t.leases|
            && t.failures[|s.failures|].due
               == s.now + Max(OutboxBackoff(setup, t.rows[id].retryCount), Wrap64(retryAfter + SECOND))
            && (t.rows[id].status.Dead?
                || (t.rows[id].status.Failed? && t.rows[id].nextRetryAt == t.failures[|s.failures|].due))
  {
    EffectiveIsHeld(setup, s, w);
  }

  /** The backoff alone. */
  function OutboxBackoff(setup: Setup, retryCount: int): int {
    Backoff.OutboxDelay(retryCount,
                        if setup.cfg.retryBaseDelay <= 0 then SECOND else setup.cfg.retryBaseDelay,
                        if setup.cfg.retryMaxDelay <= 0 then MINUTE else setup.cfg.retryMaxDelay)
  }

  predicate Waits(s: State, f: Failure) {
    && f.row in s.rows && f.leases <= |s.leases|
    && (s.rows[f.row].status.Dead? || (s.rows[f.row].status.Failed? && s.rows[f.row].nextRetryAt >= f.due)
        || s.now >= f.due)
    && forall j :: f.leases <= j < |s.leases| && s.leases[j].row == f.row ==> s.leases[j].from >= f.due
  }

  predicate AllWait(s: State) {
    forall i :: 0 <= i < |s.failures| ==> Waits(s, s.failures[i])
  }

  lemma ClaimKeepsWait(setup: Setup, s: State, w: string, skip: set<int>, picked: seq<int>, f: Failure)
    requires SetupOk(setup) && Inv(setup, s) && Waits(s, f) && Enabled(setup, s, Claim(w, skip, picked))
    ensures Waits(Apply(setup, s, Claim(w, skip, picked)), f)
  {
    PickedAreClaimable(setup, s, w, skip, picked);
    var t := Apply(setup, s, Claim(w, skip, picked));
    forall j | f.leases <= j < |t.leases| && t.leases[j].row == f.row ensures t.leases[j].from >= f.due {
      if j >= |s.leases| { assert t.leases[j].row == picked[j - |s.leases|]; }
    }
  }

  lemma MarkFailedKeepsWait(setup: Setup, s: State, w: string, error: string, retryAfter: int)
    requires Inv(setup, s) && AllWait(s) && w in s.workers && s.workers[w].queue != []
    ensures AllWait(MarkFailedBy(setup, s, w, error, retryAfter))
  {
    EffectiveIsHeld(setup, s, w);
    var t := MarkFailedBy(setup, s, w, error, retryAfter);
    forall i | 0 <= i < |t.failures| ensures Waits(t, t.failures[i]) {
      if i < |s.failures| { assert Waits(s, s.failures[i]); }
    }
  }

  lemma MarkSentKeepsWait(setup: Setup, s: State, w: string)
    requires Inv(setup, s) && AllWait(s) && w in s.workers && s.workers[w].queue != []
    ensures AllWait(MarkSentBy(s, w))
  {
    EffectiveIsHeld(setup, s, w);
    var t := MarkSentBy(s, w);
    forall i | 0 <= i < |t.failures| ensures Waits(t, t.failures[i]) {
      assert Waits(s, s.failures[i]);
    }
  }

  lemma StepKeepsWait(setup: Setup, s: State, step: Step)
    requires SetupOk(setup) && Inv(setup, s) && AllWait(s) && Enabled(setup, s, step)
    ensures AllWait(Apply(setup, s, step))
  {
    match step
    case Claim(w, skip, picked) =>
      forall i | 0 <= i < |s.failures| ensures Waits(Apply(setup, s, step), s.failures[i]) {
        ClaimKeepsWait(setup, s, w, skip, picked, s.failures[i]);
      }
    case NoSender(w) => MarkFailedKeepsWait(setup, s, w, "notification sender not found", 0);
    case Mark(w) =>
      MarkSentKeepsWait(setup, s, w);
      if s.workers[w].phase.outcome.SendFailed? {
        MarkFailedKeepsWait(setup, s, w, s.workers[w].phase.outcome.error,
                            Wrap64(s.workers[w].phase.outcome.retryAfter + SECOND));
      }
    case _ =>
      forall i | 0 <= i < |s.failures| ensures Waits(Apply(setup, s, step), s.failures[i]) {
        assert Waits(s, s.failures[i]);
      }
  }

  lemma {:induction false} LeadsKeepsWait(setup: Setup, s: State, steps: seq<Step>, t: State)
    requires SetupOk(setup) && Inv(setup, s) && AllWait(s) && Leads(setup, s, steps, t)
    ensures AllWait(t)
    decreases |steps|
  {
    if steps != [] {
      StepKeepsInv(setup, s, steps[0]);
      StepKeepsWait(setup, s, steps[0]);
      LeadsKeepsWait(setup, Apply(setup, s, steps[0]), steps[1..], t);
    }
  }

  /** No claim after a failure mark takes the row before it is due. */
  lemma NoEarlyRetry(setup: Setup, s: State, steps: seq<Step>, t: State, i: nat, j: nat)
    requires SetupOk(setup) && Initial(s) && Leads(setup, s, steps, t)
    requires i < |t.failures| && t.failures[i].leases <= j < |t.leases| && t.leases[j].row == t.failures[i].row
    ensures t.leases[j].from >= t.failures[i].due
  {
    InitialInv(setup, s);
    LeadsKeepsWait(setup, s, steps, t);
    assert Waits(t, t.failures[i]);
  }
}
