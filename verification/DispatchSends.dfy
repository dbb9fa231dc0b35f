/** When two workers can be sending the same row at the same time. */
module DispatchSends {
  import opened Basics
  import opened Tables
  import opened Outbox
  import opened Dispatch
  import opened DispatchLaws

  /** The call is running in the worker that holds its lease. */
  predicate Running(s: State, n: nat)
    requires n < |s.sends|
  {
    var l := s.sends[n].lease;
    && l < |s.leases| && s.leases[l].worker in s.workers
    && s.workers[s.leases[l].worker].phase == Sending(n)
  }

  /** A call lies inside its lease's lifetime: after the claim, and before the mark that released the lease. */
  predicate CallOk(s: State, n: nat)
    requires n < |s.sends|
  {
    var x := s.sends[n];
    && x.lease < |s.leases| && s.leases[x.lease].from <= x.start <= s.now
    && (x.end.Some? ==> x.start <= x.end.value <= s.now)
    && (s.leases[x.lease].released.Some? ==> x.end.Some? && x.end.value <= s.leases[x.lease].released.value)
    && (x.end.None? ==> Running(s, n))
  }

  /** A worker in a call calls for the head of its queue, and only the head can have been called for. */
  predicate WorkerOk(s: State, w: string)
    requires w in s.workers
  {
    var x := s.workers[w];
    && (!x.phase.Ready? ==> x.queue != [])
    && (x.phase.Sending? ==> x.phase.send < |s.sends| && s.sends[x.phase.send].lease == x.queue[0].lease)
    && (forall k, n :: 0 <= k < |x.queue| && 0 <= n < |s.sends| && s.sends[n].lease == x.queue[k].lease
                       ==> k == 0 && !x.phase.Ready?)
  }

  predicate CallsOk(s: State) {
    && (forall n :: 0 <= n < |s.sends| ==> CallOk(s, n))
    && (forall n, m :: 0 <= n < m < |s.sends| ==> s.sends[n].lease != s.sends[m].lease)
  }

  predicate WorkersOk(s: State) {
    forall w :: w in s.workers ==> WorkerOk(s, w)
  }

  lemma ClaimKeepsSends(setup: Setup, s: State, w: string, skip: set<int>, picked: seq<int>)
    requires SetupOk(setup) && Inv(setup, s) && CallsOk(s) && WorkersOk(s) && Enabled(setup, s, Claim(w, skip, picked))
    ensures CallsOk(Apply(setup, s, Claim(w, skip, picked))) && WorkersOk(Apply(setup, s, Claim(w, skip, picked)))
  {
    PickedAreClaimable(setup, s, w, skip, picked);
    var t := Apply(setup, s, Claim(w, skip, picked));
    forall n | 0 <= n < |t.sends| ensures CallOk(t, n) {
      assert CallOk(s, n);
    }
    forall v | v in t.workers ensures WorkerOk(t, v) {
      assert WorkerOk(s, v);
      if v == w {
        forall k, n | 0 <= k < |t.workers[w].queue| && 0 <= n < |t.sends|
          ensures t.sends[n].lease != t.workers[w].queue[k].lease
        {
          assert CallOk(s, n);
        }
      }
    }
  }

  /** No other worker's queue holds the lease at the head of this one. */
  lemma HeadLeaseIsOwn(setup: Setup, s: State, w: string, v: string, k: nat)
    requires Inv(setup, s) && w in s.workers && v in s.workers && s.workers[w].queue != [] && k < |s.workers[v].queue|
    requires v != w || k > 0
    ensures s.workers[v].queue[k].lease != s.workers[w].queue[0].lease
  {
    assert QueueOk(setup, s, w, s.workers[w].queue) && QueueOk(setup, s, v, s.workers[v].queue);
    assert TicketOk(setup, s, w, s.workers[w].queue[0]) && TicketOk(setup, s, v, s.workers[v].queue[k]);
  }

  lemma StartKeepsSends(setup: Setup, s: State, w: string)
    requires SetupOk(setup) && Inv(setup, s) && CallsOk(s) && WorkersOk(s) && Enabled(setup, s, StartSend(w))
    ensures CallsOk(Apply(setup, s, StartSend(w))) && WorkersOk(Apply(setup, s, StartSend(w)))
  {
    var t := Apply(setup, s, StartSend(w));
    var head := s.workers[w].queue[0];
    assert WorkerOk(s, w);
    assert QueueOk(setup, s, w, s.workers[w].queue) && TicketOk(setup, s, w, head)
           && LeaseOk(setup, s, s.leases[head.lease]);
    forall n | 0 <= n < |t.sends| ensures CallOk(t, n) {
      if n < |s.sends| { assert CallOk(s, n) && s.sends[n].lease != head.lease; }
    }
    forall v | v in t.workers ensures WorkerOk(t, v) {
      assert WorkerOk(s, v);
      forall k, n | 0 <= k < |t.workers[v].queue| && 0 <= n < |t.sends|
          && t.sends[n].lease == t.workers[v].queue[k].lease
        ensures k == 0 && !t.workers[v].phase.Ready?
      {
        if n == |s.sends| && (v != w || k > 0) { HeadLeaseIsOwn(setup, s, w, v, k); }
      }
    }
  }

  /** The worker's call, if any, ends now and the worker goes on with x. */
  lemma EndKeepsSends(setup: Setup, s: State, w: string, x: Worker, delivered: set<int>)
    requires Inv(setup, s) && CallsOk(s) && WorkersOk(s) && w in s.workers && s.workers[w].phase.Sending?
    requires (x.queue == s.workers[w].queue && x.phase.Answered?) || x == Worker([], Ready)
    ensures var t := s.(workers := s.workers[w := x], sends := Ended(s.sends, s.workers[w].phase, s.now),
                        delivered := delivered);
            CallsOk(t) && WorkersOk(t)
  {
    var t := s.(workers := s.workers[w := x], sends := Ended(s.sends, s.workers[w].phase, s.now),
                delivered := delivered);
    var call := s.workers[w].phase.send;
    assert WorkerOk(s, w);
    HeadLeaseIsOpen(setup, s, w);
    forall n | 0 <= n < |t.sends| ensures CallOk(t, n) {
      assert CallOk(s, n);
    }
    forall v | v in t.workers ensures WorkerOk(t, v) {
      assert WorkerOk(s, v);
    }
  }

  lemma HeadLeaseIsOpen(setup: Setup, s: State, w: string)
    requires Inv(setup, s) && w in s.workers && s.workers[w].queue != []
    ensures var l := s.workers[w].queue[0].lease;
            l < |s.leases| && s.leases[l].released.None? && s.leases[l].worker == w
  {
    assert QueueOk(setup, s, w, s.workers[w].queue);
    assert TicketOk(setup, s, w, s.workers[w].queue[0]);
  }

  lemma CrashKeepsSends(setup: Setup, s: State, w: string)
    requires Inv(setup, s) && CallsOk(s) && WorkersOk(s) && w in s.workers
    ensures CallsOk(Apply(setup, s, Crash(w))) && WorkersOk(Apply(setup, s, Crash(w)))
  {
    if s.workers[w].phase.Sending? {
      EndKeepsSends(setup, s, w, Worker([], Ready), s.delivered);
    } else {
      var t := Apply(setup, s, Crash(w));
      forall n | 0 <= n < |t.sends| ensures CallOk(t, n) { assert CallOk(s, n); }
      forall v | v in t.workers ensures WorkerOk(t, v) { assert WorkerOk(s, v); }
    }
  }

  lemma SettleKeepsSends(setup: Setup, s: State, w: string, r: OutboxRow, failures: seq<Failure>)
    requires Inv(setup, s) && CallsOk(s) && WorkersOk(s) && w in s.workers && s.workers[w].queue != []
    requires !s.workers[w].phase.Sending?
    ensures CallsOk(Settle(s, w, r, failures)) && WorkersOk(Settle(s, w, r, failures))
  {
    var t := Settle(s, w, r, failures);
    HeadLeaseIsOpen(setup, s, w);
    forall n | 0 <= n < |t.sends| ensures CallOk(t, n) {
      assert CallOk(s, n);
    }
    PoppedWorkersOk(setup, s, t, w);
  }

  lemma PopKeepsSends(setup: Setup, s: State, w: string)
    requires Inv(setup, s) && CallsOk(s) && WorkersOk(s) && w in s.workers && s.workers[w].queue != []
    requires !s.workers[w].phase.Sending?
    ensures CallsOk(s.(workers := Popped(s, w))) && WorkersOk(s.(workers := Popped(s, w)))
  {
    var t := s.(workers := Popped(s, w));
    forall n | 0 <= n < |t.sends| ensures CallOk(t, n) {
      assert CallOk(s, n);
    }
    PoppedWorkersOk(setup, s, t, w);
  }

  lemma PoppedWorkersOk(setup: Setup, s: State, t: State, w: string)
    requires Inv(setup, s) && WorkersOk(s) && w in s.workers && s.workers[w].queue != []
    requires t.workers == Popped(s, w) && t.sends == s.sends
    ensures WorkersOk(t)
  {
    forall v | v in t.workers ensures WorkerOk(t, v) {
      assert WorkerOk(s, v);
      if v == w {
        forall k, n | 0 <= k < |t.workers[w].queue| && 0 <= n < |t.sends|
          ensures t.sends[n].lease != t.workers[w].queue[k].lease
        {
          assert t.workers[w].queue[k] == s.workers[w].queue[k + 1];
        }
      }
    }
  }

  lemma MarkKeepsSends(setup: Setup, s: State, w: string, error: string, retryAfter: int)
    requires Inv(setup, s) && CallsOk(s) && WorkersOk(s) && w in s.workers && s.workers[w].queue != []
    requires !s.workers[w].phase.Sending?
    ensures CallsOk(MarkFailedBy(setup, s, w, error, retryAfter))
            && WorkersOk(MarkFailedBy(setup, s, w, error, retryAfter))
    ensures CallsOk(MarkSentBy(s, w)) && WorkersOk(MarkSentBy(s, w))
  {
    var ticket, cfg := s.workers[w].queue[0].row, RetryOf(setup.cfg, retryAfter);
    PopKeepsSends(setup, s, w);
    if Effective(s.rows, ticket) {
      SettleKeepsSends(setup, s, w, SentRow(s.rows[ticket.id], s.now), s.failures);
      SettleKeepsSends(setup, s, w, FailedRow(s.rows[ticket.id], ticket, error, cfg, s.now),
                       s.failures + [Failure(ticket.id, s.now + FailureDelay(ticket.retryCount + 1, cfg), |s.leases|)]);
    }
  }

  lemma FrameKeepsSends(s: State, t: State)
    requires CallsOk(s) && WorkersOk(s)
    requires t.workers == s.workers && t.leases == s.leases && t.sends == s.sends && t.now >= s.now
    ensures CallsOk(t) && WorkersOk(t)
  {
    forall n | 0 <= n < |t.sends| ensures CallOk(t, n) { assert CallOk(s, n); }
    forall v | v in t.workers ensures WorkerOk(t, v) { assert WorkerOk(s, v); }
  }

  lemma StepKeepsSends(setup: Setup, s: State, step: Step)
    requires SetupOk(setup) && Inv(setup, s) && CallsOk(s) && WorkersOk(s) && Enabled(setup, s, step)
    ensures CallsOk(Apply(setup, s, step)) && WorkersOk(Apply(setup, s, step))
  {
    match step
    case Tick(_) => FrameKeepsSends(s, Apply(setup, s, step));
    case Insert(_) => FrameKeepsSends(s, Apply(setup, s, step));
    case Claim(w, skip, picked) => ClaimKeepsSends(setup, s, w, skip, picked);
    case NoSender(w) => MarkKeepsSends(setup, s, w, "notification sender not found", 0);
    case StartSend(w) => StartKeepsSends(setup, s, w);
    case EndSend(w, outcome) =>
      EndKeepsSends(setup, s, w, Worker(s.workers[w].queue, Answered(outcome)), Apply(setup, s, step).delivered);
    case Mark(w) =>
      var outcome := s.workers[w].phase.outcome;
      MarkKeepsSends(setup, s, w, if outcome.SendFailed? then outcome.error else "",
                     if outcome.SendFailed? then Wrap64(outcome.retryAfter + SECOND) else 0);
    case LoseMark(w) => PopKeepsSends(setup, s, w);
    case Crash(w) => CrashKeepsSends(setup, s, w);
  }

  lemma {:induction false} LeadsKeepsSends(setup: Setup, s: State, steps: seq<Step>, t: State)
    requires SetupOk(setup) && Inv(setup, s) && CallsOk(s) && WorkersOk(s) && Leads(setup, s, steps, t)
    ensures CallsOk(t) && WorkersOk(t)
    decreases |steps|
  {
    if steps != [] {
      StepKeepsInv(setup, s, steps[0]);
      StepKeepsSends(setup, s, steps[0]);
      LeadsKeepsSends(setup, Apply(setup, s, steps[0]), steps[1..], t);
    }
  }

  /** Where the call has got to: its end, or now. */
  function EndOf(s: State, x: SendCall): int {
    if x.end.Some? then x.end.value else s.now
  }

  /** The call started at most bound after the claim and takes at most one timeout. */
  predicate Timely(setup: Setup, s: State, x: SendCall, bound: int)
    requires x.lease < |s.leases|
  {
    && x.start <= s.leases[x.lease].from + bound
    && EndOf(s, x) <= x.start + setup.cfg.sendTimeout
  }

  lemma CallsHaveLeases(setup: Setup, s: State, steps: seq<Step>, t: State)
    requires SetupOk(setup) && Initial(s) && Leads(setup, s, steps, t)
    ensures Inv(setup, t) && CallsOk(t)
    ensures forall n :: 0 <= n < |t.sends| ==> t.sends[n].lease < |t.leases|
  {
    InitialInv(setup, s);
    LeadsKeepsInv(setup, s, steps, t);
    LeadsKeepsSends(setup, s, steps, t);
    forall n | 0 <= n < |t.sends| ensures t.sends[n].lease < |t.leases| {
      assert CallOk(t, n);
    }
  }

  /** Call a ended before call b started. */
  predicate EndedBefore(s: State, a: nat, b: nat)
    requires a < |s.sends| && b < |s.sends|
  {
    s.sends[a].end.Some? && s.sends[a].end.value <= s.sends[b].start
  }

  predicate SameRow(s: State, a: nat, b: nat) {
    && a < |s.sends| && b < |s.sends| && s.sends[a].lease < |s.leases| && s.sends[b].lease < |s.leases|
    && s.leases[s.sends[a].lease].row == s.leases[s.sends[b].lease].row
  }

  /** Calls for one row never overlap when the lock covers the time until the latest start and one timeout more. */
  lemma TimelySendsNeverOverlap(setup: Setup, s: State, steps: seq<Step>, t: State, bound: int, a: nat, b: nat)
    requires SetupOk(setup) && Initial(s) && Leads(setup, s, steps, t)
    requires bound + setup.cfg.sendTimeout <= EffectiveLock(setup.cfg.lockDuration)
    requires SameRow(t, a, b) && a != b
    requires Timely(setup, t, t.sends[a], bound) && Timely(setup, t, t.sends[b], bound)
    ensures EndedBefore(t, a, b) || EndedBefore(t, b, a)
  {
    CallsHaveLeases(setup, s, steps, t);
    if t.sends[a].lease < t.sends[b].lease {
      EarlierCallIsOver(setup, t, bound, a, b);
    } else {
      EarlierCallIsOver(setup, t, bound, b, a);
    }
  }

  lemma EarlierCallIsOver(setup: Setup, t: State, bound: int, a: nat, b: nat)
    requires Inv(setup, t) && CallsOk(t) && SameRow(t, a, b) && t.sends[a].lease < t.sends[b].lease
    requires bound + setup.cfg.sendTimeout <= EffectiveLock(setup.cfg.lockDuration)
    requires Timely(setup, t, t.sends[a], bound)
    ensures EndedBefore(t, a, b)
  {
    assert CallOk(t, a) && CallOk(t, b);
    var i, j := t.leases[t.sends[a].lease], t.leases[t.sends[b].lease];
    assert Over(i, j.from);
    assert LeaseOk(setup, t, i);
  }

  // ---------- the bound on the start is needed ----------

  /** A claim that finds one due row takes it. */
  lemma LoneRowIsPicked(setup: Setup, s: State, w: string, id: int)
    requires s.rows.Keys == {id} && RowOk(id, s.rows[id])
    requires s.rows[id].channel in setup.senders && SetupOk(setup)
    requires w in s.workers && s.workers[w] == Worker([], Ready)
    requires Claimable(s.rows[id], s.now, [])
    ensures Enabled(setup, s, Claim(w, {}, [id]))
  {
    var names := NormalizeChannels(setup.senders);
    NormalizeChannelsLaw(setup.senders);
    var i :| 0 <= i < |setup.senders| && setup.senders[i] == s.rows[id].channel;
    assert Names(setup.senders, s.rows[id].channel) by { assert TrimSpace(setup.senders[i]) == s.rows[id].channel; }
    assert s.rows[id].channel in names;
    var pool := Candidates(s.rows, s.now, names, {});
    assert pool == {id};
    assert Picks(s.rows, pool, EffectiveLimit(setup.cfg.batchSize), [id]);
  }

  lemma LeadsFirst(setup: Setup, s: State, step: Step, rest: seq<Step>, t: State)
    requires Enabled(setup, s, step) && Leads(setup, Apply(setup, s, step), rest, t)
    ensures Leads(setup, s, [step] + rest, t)
  {
    assert ([step] + rest)[1..] == rest;
  }

  lemma LeadsTick(setup: Setup, s: State, d: nat, rest: seq<Step>, t: State)
    requires Leads(setup, s.(now := s.now + d), rest, t)
    ensures Leads(setup, s, [Tick(d)] + rest, t)
  {
    LeadsFirst(setup, s, Tick(d), rest, t);
  }

  lemma {:induction false} LeadsThen(setup: Setup, s: State, steps: seq<Step>, t: State, rest: seq<Step>, u: State)
    requires Leads(setup, s, steps, t) && Leads(setup, t, rest, u)
    ensures Leads(setup, s, steps + rest, u)
    decreases |steps|
  {
    if steps == [] {
      assert steps + rest == rest;
    } else {
      LeadsThen(setup, Apply(setup, s, steps[0]), steps[1..], t, rest, u);
      assert steps + rest == [steps[0]] + (steps[1..] + rest);
    }
  }

  function Lock(setup: Setup): (d: int)
    ensures d > 0
  {
    EffectiveLock(setup.cfg.lockDuration)
  }

  /** The shortest wait after which a call of one timeout outlives the lock. */
  function TooLate(setup: Setup): nat {
    Max(0, Lock(setup) - setup.cfg.sendTimeout + 1)
  }

  /** The second worker claims the row and starts to send. */
  function SecondSteps(row: OutboxRow, b: string): seq<Step> {
    [Claim(b, {}, [row.id])] + ([StartSend(b)] + [])
  }

  /** The first worker, which claimed the row, starts to send too late; its lock runs out while it sends. */
  function LateSteps(setup: Setup, a: string, rest: seq<Step>): seq<Step>
    requires setup.cfg.sendTimeout >= 0
  {
    [Tick(TooLate(setup))] + ([StartSend(a)] + ([Tick(Lock(setup) + 1 - TooLate(setup))] + rest))
  }

  /** In t, unlike in s, a second lease of the row has been given and used. */
  predicate ClaimedAgain(s: State, t: State, id: int) {
    && |t.leases| == |s.leases| + 1 && t.leases[..|s.leases|] == s.leases
    && t.leases[|s.leases|].row == id && t.leases[|s.leases|].from == s.now
    && t.sends == s.sends + [SendCall(|s.leases|, s.now, None)] && t.now == s.now
  }

  /** A row whose lock ran out is claimed and sent by b, whatever a is doing. */
  lemma SecondClaim(setup: Setup, s: State, row: OutboxRow, a: string, b: string, until: int) returns (t: State)
    requires SetupOk(setup) && b in s.workers && s.workers[b] == Worker([], Ready) && a != "" && RowOk(row.id, row)
    requires row.status.Pending? && row.channel in setup.senders && row.nextRetryAt <= s.now
    requires until < s.now && s.rows == map[row.id := Locked(row, a, until)]
    ensures Leads(setup, s, SecondSteps(row, b), t) && ClaimedAgain(s, t, row.id)
  {
    LoneRowIsPicked(setup, s, b, row.id);
    var s' := Apply(setup, s, Claim(b, {}, [row.id]));
    t := Apply(setup, s', StartSend(b));
    LeadsFirst(setup, s', StartSend(b), [], t);
    LeadsFirst(setup, s, Claim(b, {}, [row.id]), [StartSend(b)] + [], t);
  }

  /** a holds its first lease of the only row and has not started to send. */
  predicate JustClaimed(setup: Setup, s: State, row: OutboxRow, a: string) {
    var until := s.now + Lock(setup);
    && s.rows == map[row.id := Locked(row, a, until)] && a != ""
    && s.leases == [Lease(row.id, a, s.now, until, None)] && s.sends == []
    && a in s.workers && s.workers[a] == Worker([Ticket(s.rows[row.id], 0)], Ready)
  }

  /** Later a's call is still within its timeout, and its lock ran out. */
  function LateState(setup: Setup, s: State, a: string): State
    requires a in s.workers
  {
    s.(now := s.now + Lock(setup) + 1,
       workers := s.workers[a := Worker(s.workers[a].queue, Sending(0))],
       sends := [SendCall(0, s.now + TooLate(setup), None)])
  }

  lemma StartAndWait(setup: Setup, s: State, a: string, d: nat, rest: seq<Step>, t: State)
    requires Enabled(setup, s, StartSend(a))
    requires Leads(setup, Apply(setup, s, StartSend(a)).(now := s.now + d), rest, t)
    ensures Leads(setup, s, [StartSend(a)] + ([Tick(d)] + rest), t)
  {
    LeadsTick(setup, Apply(setup, s, StartSend(a)), d, rest, t);
    LeadsFirst(setup, s, StartSend(a), [Tick(d)] + rest, t);
  }

  lemma LateStateIsStarted(setup: Setup, s: State, row: OutboxRow, a: string)
    requires JustClaimed(setup, s, row, a) && row.channel in setup.senders && setup.cfg.sendTimeout >= 0
    ensures var s3 := s.(now := s.now + TooLate(setup));
            && Enabled(setup, s3, StartSend(a))
            && Apply(setup, s3, StartSend(a)).(now := s3.now + (Lock(setup) + 1 - TooLate(setup)))
               == LateState(setup, s, a)
  {
  }

  lemma LateRun(setup: Setup, s: State, row: OutboxRow, a: string, rest: seq<Step>, t: State)
    requires JustClaimed(setup, s, row, a) && row.channel in setup.senders && setup.cfg.sendTimeout >= 0
    requires Leads(setup, LateState(setup, s, a), rest, t)
    ensures Leads(setup, s, LateSteps(setup, a, rest), t)
  {
    StartedTooLate(setup, s, row, a, rest, t);
    LeadsTick(setup, s, TooLate(setup), [StartSend(a)] + ([Tick(Lock(setup) + 1 - TooLate(setup))] + rest), t);
  }

  lemma StartedTooLate(setup: Setup, s: State, row: OutboxRow, a: string, rest: seq<Step>, t: State)
    requires JustClaimed(setup, s, row, a) && row.channel in setup.senders && setup.cfg.sendTimeout >= 0
    requires Leads(setup, LateState(setup, s, a), rest, t)
    ensures Leads(setup, s.(now := s.now + TooLate(setup)),
                  [StartSend(a)] + ([Tick(Lock(setup) + 1 - TooLate(setup))] + rest), t)
  {
    LateStateIsStarted(setup, s, row, a);
    StartAndWait(setup, s.(now := s.now + TooLate(setup)), a, Lock(setup) + 1 - TooLate(setup), rest, t);
  }

  /** Two calls for the row are running, each within its timeout; the first started too late. */
  predicate LateOverlap(setup: Setup, t: State, id: int) {
    && |t.leases| == 2 && t.leases[0].row == t.leases[1].row == id && t.leases[1].from == t.now
    && t.sends == [SendCall(0, t.leases[0].from + TooLate(setup), None), SendCall(1, t.now, None)]
    && t.now <= t.sends[0].start + setup.cfg.sendTimeout
  }

  /** The steps lead to such an overlap. */
  ghost predicate LeadsToOverlap(setup: Setup, s: State, steps: seq<Step>, id: int) {
    exists t :: Leads(setup, s, steps, t) && LateOverlap(setup, t, id)
  }

  lemma LateRunOverlaps(setup: Setup, s: State, row: OutboxRow, a: string, rest: seq<Step>, t: State)
    requires JustClaimed(setup, s, row, a) && row.channel in setup.senders && setup.cfg.sendTimeout >= 0
    requires Leads(setup, LateState(setup, s, a), rest, t) && ClaimedAgain(LateState(setup, s, a), t, row.id)
    ensures LeadsToOverlap(setup, s, LateSteps(setup, a, rest), row.id)
  {
    LateRun(setup, s, row, a, rest, t);
    SecondMakesOverlap(setup, s, row, a, t);
  }

  lemma SecondMakesOverlap(setup: Setup, s: State, row: OutboxRow, a: string, t: State)
    requires JustClaimed(setup, s, row, a) && setup.cfg.sendTimeout >= 0
             && ClaimedAgain(LateState(setup, s, a), t, row.id)
    ensures LateOverlap(setup, t, row.id)
  {
    assert t.leases[0] == t.leases[..1][0];
  }

  /** A start one nanosecond too late: two workers are sending one row at once, both within their timeout. */
  lemma LateSendsOverlap(setup: Setup, s: State, row: OutboxRow, a: string, b: string)
    requires SetupOk(setup) && JustClaimed(setup, s, row, a) && b in s.workers && s.workers[b] == Worker([], Ready)
    requires setup.cfg.sendTimeout >= 0
    requires NewRow(row) && row.nextRetryAt <= s.now && row.channel in setup.senders
    ensures LeadsToOverlap(setup, s, LateSteps(setup, a, SecondSteps(row, b)), row.id)
  {
    var t := SecondClaim(setup, LateState(setup, s, a), row, a, b, s.now + Lock(setup));
    LateRunOverlaps(setup, s, row, a, SecondSteps(row, b), t);
  }

  predicate OthersIdle(s: State, a: string) {
    forall b :: b in s.workers && b != a ==> s.workers[b] == Worker([], Ready)
  }

  /** Such a state is reached by inserting the row and claiming it. */
  lemma JustClaimedIsReachable(setup: Setup, s: State, row: OutboxRow, a: string)
    requires SetupOk(setup) && Initial(s) && a in s.workers
    requires NewRow(row) && row.nextRetryAt <= s.now && row.channel in setup.senders
    ensures exists t :: Leads(setup, s, [Insert(row)] + ([Claim(a, {}, [row.id])] + []), t)
                        && JustClaimed(setup, t, row, a)
                        && OthersIdle(t, a) && t.workers.Keys == s.workers.Keys && t.now == s.now
  {
    var s1 := Apply(setup, s, Insert(row));
    LoneRowIsPicked(setup, s1, a, row.id);
    var t := Apply(setup, s1, Claim(a, {}, [row.id]));
    LeadsFirst(setup, s1, Claim(a, {}, [row.id]), [], t);
    LeadsFirst(setup, s, Insert(row), [Claim(a, {}, [row.id])] + [], t);
  }

  // ---------- the exact bound ----------

  predicate AllTimely(setup: Setup, s: State, bound: int) {
    forall n :: 0 <= n < |s.sends| ==> s.sends[n].lease < |s.leases| && Timely(setup, s, s.sends[n], bound)
  }

  ghost predicate NoOverlap(s: State) {
    forall a: nat, b: nat :: a != b && SameRow(s, a, b) ==> EndedBefore(s, a, b) || EndedBefore(s, b, a)
  }

  /** In no run whose calls start at most bound after their claim do two calls for one row overlap. */
  ghost predicate NeverOverlaps(setup: Setup, bound: int) {
    forall s: State, steps: seq<Step>, t: State ::
      Initial(s) && Leads(setup, s, steps, t) && AllTimely(setup, t, bound) ==> NoOverlap(t)
  }

  function TwoWorkers(): State {
    State(0, map[], map["a" := Worker([], Ready), "b" := Worker([], Ready)], [], [], [], {})
  }

  lemma TwoWorkersInitial()
    ensures Initial(TwoWorkers())
  {
    assert TrimLeft("a") == "a" && TrimRight("a") == "a";
    assert TrimLeft("b") == "b" && TrimRight("b") == "b";
  }

  lemma OverlapIsNotApart(setup: Setup, t: State, id: int, bound: int)
    requires LateOverlap(setup, t, id) && bound >= TooLate(setup) && setup.cfg.sendTimeout >= 0
    ensures AllTimely(setup, t, bound) && !NoOverlap(t)
  {
    assert SameRow(t, 0, 1) && !EndedBefore(t, 0, 1) && !EndedBefore(t, 1, 0);
  }

  /** The late run from the start. */
  lemma OverlapExists(setup: Setup) returns (steps: seq<Step>, t: State)
    requires SetupOk(setup) && setup.cfg.sendTimeout >= 0
    ensures Leads(setup, TwoWorkers(), steps, t) && LateOverlap(setup, t, 1)
  {
    var any: OutboxRow := *;
    var row := any.(id := 1, channel := setup.senders[0], status := Pending, retryCount := 0, nextRetryAt := 0,
                    lockedBy := "", lockedUntil := None);
    TwoWorkersInitial();
    JustClaimedIsReachable(setup, TwoWorkers(), row, "a");
    var first := [Insert(row)] + ([Claim("a", {}, [row.id])] + []);
    var u :| Leads(setup, TwoWorkers(), first, u) && JustClaimed(setup, u, row, "a")
             && OthersIdle(u, "a") && u.workers.Keys == TwoWorkers().workers.Keys && u.now == TwoWorkers().now;
    assert "b" in u.workers && "b" != "a";
    LateSendsOverlap(setup, u, row, "a", "b");
    var late := LateSteps(setup, "a", SecondSteps(row, "b"));
    t :| Leads(setup, u, late, t) && LateOverlap(setup, t, row.id);
    steps := first + late;
    LeadsThen(setup, TwoWorkers(), first, u, late, t);
  }

  /**
   Sends never overlap exactly when the latest start and one timeout fit the lock: with a lock of three timeouts, two of
   them.
   */
  lemma NeverOverlapsIff(setup: Setup, bound: nat)
    requires SetupOk(setup) && setup.cfg.sendTimeout >= 0
    ensures NeverOverlaps(setup, bound) <==> bound + setup.cfg.sendTimeout <= Lock(setup)
  {
    if bound + setup.cfg.sendTimeout <= Lock(setup) {
      forall s: State, steps: seq<Step>, t: State | Initial(s) && Leads(setup, s, steps, t)
          && AllTimely(setup, t, bound)
        ensures NoOverlap(t)
      {
        forall a: nat, b: nat | a != b && SameRow(t, a, b) ensures EndedBefore(t, a, b) || EndedBefore(t, b, a) {
          TimelySendsNeverOverlap(setup, s, steps, t, bound, a, b);
        }
      }
    } else {
      var steps, t := OverlapExists(setup);
      TwoWorkersInitial();
      OverlapIsNotApart(setup, t, 1, bound);
    }
  }
}
