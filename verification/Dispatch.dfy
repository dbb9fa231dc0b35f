/**
 The notification outbox as a timed protocol (notifications/dispatcher.go over
 database/store_notification_outbox.go): any number of workers claim due rows
 under a lease, send them one by one and mark the outcome, with a shared clock
 that never runs back.  Leases may run out, marks may be lost and workers may
 crash and come back under the same name at any time.
 */
module Dispatch {
  import opened Basics
  import opened Tables
  import opened Outbox

  // ---------- configuration ----------

  datatype DispatcherConfig = DispatcherConfig(
    batchSize: int,
    pollInterval: int,
    lockDuration: int,
    sendTimeout: int,
    retryBaseDelay: int,
    retryMaxDelay: int)

  /** The application settings that shape the dispatcher; requestTimeout and flushInterval are in ns. */
  datatype AppConfig = AppConfig(telegramEnabled: bool, requestTimeout: int, outboxBatchSize: int, flushInterval: int)

  function NotificationBatchSize(app: AppConfig, senderCount: int): int {
    if senderCount == 1 && app.telegramEnabled then 1
    else if app.outboxBatchSize <= 0 then 100
    else app.outboxBatchSize
  }

  function NotificationSendTimeout(app: AppConfig): int {
    if app.telegramEnabled then app.requestTimeout else 10 * SECOND
  }

  function NotificationLockDuration(app: AppConfig): int {
    var timeout := NotificationSendTimeout(app);
    Wrap64((if timeout <= 0 then 10 * SECOND else timeout) * 3)
  }

  function ApplyDispatcherDefaults(cfg: DispatcherConfig): DispatcherConfig {
    var timeout := if cfg.sendTimeout <= 0 then 10 * SECOND else cfg.sendTimeout;
    DispatcherConfig(
      if cfg.batchSize <= 0 then 100 else cfg.batchSize,
      if cfg.pollInterval <= 0 then SECOND else cfg.pollInterval,
      if cfg.lockDuration <= 0 then Wrap64(timeout * 3) else cfg.lockDuration,
      timeout,
      if cfg.retryBaseDelay <= 0 then SECOND else cfg.retryBaseDelay,
      if cfg.retryMaxDelay <= 0 then MINUTE else cfg.retryMaxDelay)
  }

  /** What runNotificationOutbox builds. */
  function AppDispatcher(app: AppConfig, senderCount: int): DispatcherConfig {
    ApplyDispatcherDefaults(DispatcherConfig(
      NotificationBatchSize(app, senderCount), app.flushInterval, NotificationLockDuration(app),
      NotificationSendTimeout(app), app.flushInterval, MINUTE))
  }

  /** The lock lasts three send timeouts exactly when three send timeouts fit an int64. */
  lemma LockIsThreeTimeoutsIff(app: AppConfig, senderCount: int)
    requires app.requestTimeout < TWO_63
    ensures var cfg := AppDispatcher(app, senderCount);
            && cfg.sendTimeout > 0
            && (EffectiveLock(cfg.lockDuration) == 3 * cfg.sendTimeout <==> 3 * cfg.sendTimeout < TWO_63)
  {
  }

  /** The dispatcher's settings in terms of the application's. */
  lemma AppSettings(app: AppConfig, senderCount: int)
    requires app.requestTimeout * 3 < TWO_63
    ensures var cfg := AppDispatcher(app, senderCount);
            && cfg.batchSize == (if senderCount == 1 && app.telegramEnabled then 1
                                 else if app.outboxBatchSize >= 1 then app.outboxBatchSize else 100)
            && cfg.sendTimeout == (if app.telegramEnabled && app.requestTimeout >= 1 then app.requestTimeout
                                   else 10_000_000_000)
            && cfg.lockDuration == 3 * cfg.sendTimeout
            && cfg.pollInterval == cfg.retryBaseDelay
               == (if app.flushInterval >= 1 then app.flushInterval else 1_000_000_000)
            && cfg.retryMaxDelay == 60_000_000_000
  {
  }

  /** An example: with a request timeout of 2^62 ns the lock lasts thirty seconds. */
  lemma LockCanBeTooShort(app: AppConfig, senderCount: int)
    requires app.telegramEnabled && app.requestTimeout == TWO_62
    ensures var cfg := AppDispatcher(app, senderCount);
            cfg.sendTimeout == TWO_62 && EffectiveLock(cfg.lockDuration) == 30 * SECOND
  {
  }

  // ---------- state ----------

  /** senders are the channels that have a sender. */
  datatype Setup = Setup(cfg: DispatcherConfig, senders: seq<string>)

  datatype SendOutcome = Delivered | SendFailed(error: string, retryAfter: int)

  datatype Phase = Ready | Sending(send: nat) | Answered(outcome: SendOutcome)

  /** A claimed row as the worker remembers it. */
  datatype Ticket = Ticket(row: OutboxRow, lease: nat)

  datatype Worker = Worker(queue: seq<Ticket>, phase: Phase)

  /** One row in one claim; released when the holder's mark took effect. */
  datatype Lease = Lease(row: int, worker: string, from: int, until: int, released: Option<int>)

  /** One call of Send. */
  datatype SendCall = SendCall(lease: nat, start: int, end: Option<int>)

  /**
   One failure mark that took effect: the row may not be claimed before due; leases is the number of leases given so
   far.
   */
  datatype Failure = Failure(row: int, due: int, leases: nat)

  datatype State = State(
    now: int,
    rows: map<int, OutboxRow>,
    workers: map<string, Worker>,
    leases: seq<Lease>,
    sends: seq<SendCall>,
    failures: seq<Failure>,
    delivered: set<int>)

  datatype Step =
    | Tick(d: nat)
    | Insert(row: OutboxRow)
    | Claim(w: string, skip: set<int>, picked: seq<int>)
    | NoSender(w: string)
    | StartSend(w: string)
    | EndSend(w: string, outcome: SendOutcome)
    | Mark(w: string)
    | LoseMark(w: string)
    | Crash(w: string)

  /** No rows yet, idle workers. */
  predicate Initial(s: State) {
    && s.rows == map[] && s.leases == [] && s.sends == [] && s.failures == [] && s.delivered == {}
    && forall w :: w in s.workers ==> w != "" && TrimSpace(w) == w && s.workers[w] == Worker([], Ready)
  }

  /** Senders are registered under their trimmed, non-blank channels, and there is one at least. */
  predicate SetupOk(setup: Setup) {
    && setup.senders != []
    && forall c :: c in setup.senders ==> c != "" && TrimSpace(c) == c
  }

  /** An outbox row as the event store inserts it. */
  predicate NewRow(r: OutboxRow) {
    r.status.Pending? && r.retryCount == 0 && r.lockedBy == "" && r.lockedUntil.None?
  }

  ghost predicate Enabled(setup: Setup, s: State, step: Step) {
    match step
    case Tick(_) => true
    case Insert(row) => row.id !in s.rows && NewRow(row)
    case Claim(w, skip, picked) =>
      && w in s.workers && s.workers[w] == Worker([], Ready)
      && Picks(s.rows, Candidates(s.rows, s.now, NormalizeChannels(setup.senders), skip),
               EffectiveLimit(setup.cfg.batchSize), picked)
    case NoSender(w) =>
      && w in s.workers && s.workers[w].phase.Ready? && s.workers[w].queue != []
      && s.workers[w].queue[0].row.channel !in setup.senders
    case StartSend(w) =>
      && w in s.workers && s.workers[w].phase.Ready? && s.workers[w].queue != []
      && s.workers[w].queue[0].row.channel in setup.senders
    case EndSend(w, _) => w in s.workers && s.workers[w].phase.Sending? && s.workers[w].queue != []
    case Mark(w) => w in s.workers && s.workers[w].phase.Answered? && s.workers[w].queue != []
    case LoseMark(w) => w in s.workers && s.workers[w].phase.Answered? && s.workers[w].queue != []
    case Crash(w) => w in s.workers
  }

  function NewTickets(rows: map<int, OutboxRow>, picked: seq<int>, given: nat): (tickets: seq<Ticket>)
    requires forall i :: 0 <= i < |picked| ==> picked[i] in rows
  {
    seq(|picked|, i requires 0 <= i < |picked| => Ticket(rows[picked[i]], given + i))
  }

  function NewLeases(picked: seq<int>, w: string, now: int, until: int): seq<Lease> {
    seq(|picked|, i requires 0 <= i < |picked| => Lease(picked[i], w, now, until, None))
  }

  function Popped(s: State, w: string): map<string, Worker>
    requires w in s.workers && s.workers[w].queue != []
  {
    s.workers[w := Worker(s.workers[w].queue[1..], Ready)]
  }

  /** The send, if there is such a one, is over. */
  function Ended(sends: seq<SendCall>, phase: Phase, now: int): seq<SendCall> {
    if phase.Sending? && phase.send < |sends| then sends[phase.send := sends[phase.send].(end := Some(now))] else sends
  }

  function Released(leases: seq<Lease>, i: nat, now: int): seq<Lease> {
    if i < |leases| then leases[i := leases[i].(released := Some(now))] else leases
  }

  /** Whether a mark for the snapshot changes its row. */
  predicate Effective(rows: map<int, OutboxRow>, snapshot: OutboxRow) {
    snapshot.id != 0 && Matches(rows, snapshot)
  }

  function RetryOf(cfg: DispatcherConfig, retryAfter: int): RetryConfig {
    RetryConfig(cfg.retryBaseDelay, cfg.retryMaxDelay, retryAfter)
  }

  /** The worker's current row becomes r and its lease ends. */
  function Settle(s: State, w: string, r: OutboxRow, failures: seq<Failure>): State
    requires w in s.workers && s.workers[w].queue != []
  {
    s.(rows := s.rows[r.id := r],
       workers := Popped(s, w),
       leases := Released(s.leases, s.workers[w].queue[0].lease, s.now),
       failures := failures)
  }

  function MarkFailedBy(setup: Setup, s: State, w: string, error: string, retryAfter: int): State
    requires w in s.workers && s.workers[w].queue != []
  {
    var ticket, cfg := s.workers[w].queue[0].row, RetryOf(setup.cfg, retryAfter);
    if !Effective(s.rows, ticket) then s.(workers := Popped(s, w))
    else Settle(s, w, AfterFailed(s.rows, ticket, error, cfg, s.now)[ticket.id],
                s.failures + [Failure(ticket.id, s.now + FailureDelay(ticket.retryCount + 1, cfg), |s.leases|)])
  }

  function MarkSentBy(s: State, w: string): State
    requires w in s.workers && s.workers[w].queue != []
  {
    var ticket := s.workers[w].queue[0].row;
    if !Effective(s.rows, ticket) then s.(workers := Popped(s, w))
    else Settle(s, w, AfterSent(s.rows, ticket, s.now)[ticket.id], s.failures)
  }

  function ClaimBy(setup: Setup, s: State, w: string, picked: seq<int>): State
    requires w in s.workers && forall i :: 0 <= i < |picked| ==> picked[i] in s.rows
  {
    var until := s.now + EffectiveLock(setup.cfg.lockDuration);
    var rows := AfterClaim(s.rows, picked, w, until);
    s.(rows := rows,
       workers := s.workers[w := Worker(NewTickets(rows, picked, |s.leases|), Ready)],
       leases := s.leases + NewLeases(picked, w, s.now, until))
  }

  ghost function Apply(setup: Setup, s: State, step: Step): State
    requires Enabled(setup, s, step)
  {
    match step
    case Tick(d) => s.(now := s.now + d)
    case Insert(row) => s.(rows := s.rows[row.id := row])
    case Claim(w, _, picked) => ClaimBy(setup, s, w, picked)
    case NoSender(w) => MarkFailedBy(setup, s, w, "notification sender not found", 0)
    case StartSend(w) =>
      s.(workers := s.workers[w := Worker(s.workers[w].queue, Sending(|s.sends|))],
         sends := s.sends + [SendCall(s.workers[w].queue[0].lease, s.now, None)])
    case EndSend(w, outcome) =>
      s.(workers := s.workers[w := Worker(s.workers[w].queue, Answered(outcome))],
         sends := Ended(s.sends, s.workers[w].phase, s.now),
         delivered := if outcome.Delivered? then s.delivered + {s.workers[w].queue[0].row.id} else s.delivered)
    case Mark(w) =>
      (match s.workers[w].phase.outcome
       case Delivered => MarkSentBy(s, w)
       case SendFailed(error, retryAfter) => MarkFailedBy(setup, s, w, error, Wrap64(retryAfter + SECOND)))
    case LoseMark(w) => s.(workers := Popped(s, w))
    case Crash(w) =>
      s.(workers := s.workers[w := Worker([], Ready)], sends := Ended(s.sends, s.workers[w].phase, s.now))
  }

  ghost predicate Leads(setup: Setup, s: State, steps: seq<Step>, t: State)
    decreases |steps|
  {
    if steps == [] then s == t
    else Enabled(setup, s, steps[0]) && Leads(setup, Apply(setup, s, steps[0]), steps[1..], t)
  }

  // ---------- invariants ----------

  predicate RowOk(id: int, r: OutboxRow) {
    && r.id == id
    && (r.status.Processing? <==> r.lockedBy != "")
    && (r.status.Processing? <==> r.lockedUntil.Some?)
    && 0 <= r.retryCount <= EffectiveMax(r.maxRetries)
    && (r.status.Dead? <==> r.retryCount == EffectiveMax(r.maxRetries))
  }

  predicate RowsOk(s: State) {
    forall id :: id in s.rows ==> RowOk(id, s.rows[id])
  }

  /** The lease is no longer in force at time t. */
  predicate Over(l: Lease, t: int) {
    (l.released.Some? && l.released.value <= t) || l.until < t
  }

  /** The row is locked as the lease says. */
  predicate HeldBy(rows: map<int, OutboxRow>, l: Lease) {
    l.row in rows && rows[l.row].lockedBy == l.worker && rows[l.row].lockedUntil == Some(l.until)
  }

  predicate LeaseOk(setup: Setup, s: State, l: Lease) {
    && l.row in s.rows && l.worker != "" && l.from <= s.now
    && l.until == l.from + EffectiveLock(setup.cfg.lockDuration)
    && (l.released.Some? ==> l.from <= l.released.value <= s.now)
    && (Over(l, s.now) || HeldBy(s.rows, l))
  }

  predicate LeasesOk(setup: Setup, s: State) {
    && (forall i :: 0 <= i < |s.leases| ==> LeaseOk(setup, s, s.leases[i]))
    && (forall i, j :: 0 <= i < j < |s.leases| && s.leases[i].row == s.leases[j].row ==>
        Over(s.leases[i], s.leases[j].from))
  }

  /** No later lease gives the same row to the same worker. */
  predicate Newest(leases: seq<Lease>, i: nat) {
    i < |leases| && forall j :: i < j < |leases| && leases[j].worker == leases[i].worker ==>
        leases[j].row != leases[i].row
  }

  /** A worker's memory of a row is right as long as the row is locked by it. */
  predicate TicketOk(setup: Setup, s: State, w: string, t: Ticket) {
    && Newest(s.leases, t.lease)
    && s.leases[t.lease].row == t.row.id && s.leases[t.lease].worker == w && s.leases[t.lease].released.None?
    && t.row.id in s.rows && t.row.lockedBy == w && t.row.channel in setup.senders
    && t.row.maxRetries == s.rows[t.row.id].maxRetries
    && (s.rows[t.row.id].lockedBy == w ==> s.rows[t.row.id].retryCount == t.row.retryCount)
  }

  predicate QueueOk(setup: Setup, s: State, w: string, q: seq<Ticket>) {
    && w != "" && TrimSpace(w) == w
    && (forall k :: 0 <= k < |q| ==> TicketOk(setup, s, w, q[k]))
    && (forall k, m :: 0 <= k < m < |q| ==> q[k].row.id != q[m].row.id)
  }

  predicate QueuesOk(setup: Setup, s: State) {
    forall w :: w in s.workers ==> QueueOk(setup, s, w, s.workers[w].queue)
  }

  predicate Inv(setup: Setup, s: State) {
    RowsOk(s) && LeasesOk(setup, s) && QueuesOk(setup, s)
  }

  lemma InitialInv(setup: Setup, s: State)
    requires Initial(s)
    ensures Inv(setup, s)
  {
  }

  // ---------- a claim ----------

  /** A claimed row's earlier leases are over: it is unlocked, or its lock ran out. */
  lemma ClaimableIsFree(setup: Setup, s: State, i: int, channels: seq<string>)
    requires RowsOk(s) && LeasesOk(setup, s)
    requires 0 <= i < |s.leases| && Claimable(s.rows[s.leases[i].row], s.now, channels)
    ensures Over(s.leases[i], s.now)
  {
    assert LeaseOk(setup, s, s.leases[i]);
    assert RowOk(s.leases[i].row, s.rows[s.leases[i].row]);
  }

  /** Picked rows are claimable, distinct, and have a sender. */
  lemma PickedHaveSenders(setup: Setup, rows: map<int, OutboxRow>, now: int, skip: set<int>, picked: seq<int>)
    requires SetupOk(setup) && Keyed(rows)
    requires Picks(rows, Candidates(rows, now, NormalizeChannels(setup.senders), skip),
                   EffectiveLimit(setup.cfg.batchSize), picked)
    ensures forall i :: 0 <= i < |picked| ==>
              && picked[i] in rows && Claimable(rows[picked[i]], now, NormalizeChannels(setup.senders))
              && rows[picked[i]].channel in setup.senders
    ensures NoRepeats(picked)
  {
    var names := NormalizeChannels(setup.senders);
    NormalizeChannelsLaw(setup.senders);
    assert Names(setup.senders, setup.senders[0]) by { assert TrimSpace(setup.senders[0]) == setup.senders[0]; }
    assert setup.senders[0] in names;
    assert names != [];
    forall i | 0 <= i < |picked| ensures rows[picked[i]].channel in setup.senders {
      assert picked[i] in Candidates(rows, now, names, skip);
      assert Claimable(rows[picked[i]], now, names);
      assert rows[picked[i]].channel in names;
      assert Names(setup.senders, rows[picked[i]].channel);
    }
  }

  lemma PickedAreClaimable(setup: Setup, s: State, w: string, skip: set<int>, picked: seq<int>)
    requires SetupOk(setup) && RowsOk(s) && Enabled(setup, s, Claim(w, skip, picked))
    ensures forall i :: 0 <= i < |picked| ==>
              && picked[i] in s.rows && Claimable(s.rows[picked[i]], s.now, NormalizeChannels(setup.senders))
              && s.rows[picked[i]].channel in setup.senders
    ensures NoRepeats(picked)
  {
    assert Keyed(s.rows) by {
      forall id | id in s.rows ensures s.rows[id].id == id { assert RowOk(id, s.rows[id]); }
    }
    PickedHaveSenders(setup, s.rows, s.now, skip, picked);
  }

  lemma ClaimKeepsRows(setup: Setup, s: State, w: string, skip: set<int>, picked: seq<int>)
    requires SetupOk(setup) && Inv(setup, s) && Enabled(setup, s, Claim(w, skip, picked))
    ensures RowsOk(Apply(setup, s, Claim(w, skip, picked)))
  {
    PickedAreClaimable(setup, s, w, skip, picked);
    forall id | id in s.rows ensures RowOk(id, Apply(setup, s, Claim(w, skip, picked)).rows[id]) {
      assert RowOk(id, s.rows[id]);
      assert QueueOk(setup, s, w, s.workers[w].queue);
    }
  }

  lemma ClaimKeepsEachLease(setup: Setup, s: State, w: string, skip: set<int>, picked: seq<int>, i: nat)
    requires SetupOk(setup) && Inv(setup, s) && Enabled(setup, s, Claim(w, skip, picked))
    requires i < |Apply(setup, s, Claim(w, skip, picked)).leases|
    ensures var t := Apply(setup, s, Claim(w, skip, picked)); LeaseOk(setup, t, t.leases[i])
  {
    PickedAreClaimable(setup, s, w, skip, picked);
    assert QueueOk(setup, s, w, s.workers[w].queue);
    var t, n := Apply(setup, s, Claim(w, skip, picked)), |s.leases|;
    if i < n {
      assert LeaseOk(setup, s, s.leases[i]);
      if s.leases[i].row in picked { ClaimableIsFree(setup, s, i, NormalizeChannels(setup.senders)); }
    } else {
      assert t.leases[i].row == picked[i - n];
    }
  }

  lemma ClaimKeepsLeases(setup: Setup, s: State, w: string, skip: set<int>, picked: seq<int>)
    requires SetupOk(setup) && Inv(setup, s) && Enabled(setup, s, Claim(w, skip, picked))
    ensures LeasesOk(setup, Apply(setup, s, Claim(w, skip, picked)))
  {
    PickedAreClaimable(setup, s, w, skip, picked);
    var t, n := Apply(setup, s, Claim(w, skip, picked)), |s.leases|;
    forall i | 0 <= i < |t.leases| ensures LeaseOk(setup, t, t.leases[i]) {
      ClaimKeepsEachLease(setup, s, w, skip, picked, i);
    }
    forall i, j | 0 <= i < j < |t.leases| && t.leases[i].row == t.leases[j].row
      ensures Over(t.leases[i], t.leases[j].from)
    {
      if i < n <= j {
        assert t.leases[j].row == picked[j - n];
        ClaimableIsFree(setup, s, i, NormalizeChannels(setup.senders));
      }
    }
  }

  lemma NewLeasesAreNewest(leases: seq<Lease>, picked: seq<int>, w: string, now: int, until: int, k: nat)
    requires NoRepeats(picked) && k < |picked|
    ensures Newest(leases + NewLeases(picked, w, now, until), |leases| + k)
  {
    var all := leases + NewLeases(picked, w, now, until);
    forall j | |leases| + k < j < |all| ensures all[j].row != all[|leases| + k].row {
      assert all[j].row == picked[j - |leases|] && all[|leases| + k].row == picked[k];
    }
  }

  lemma ClaimedTicketOk(setup: Setup, s: State, w: string, skip: set<int>, picked: seq<int>, k: nat)
    requires SetupOk(setup) && Inv(setup, s) && Enabled(setup, s, Claim(w, skip, picked)) && k < |picked|
    ensures var t := Apply(setup, s, Claim(w, skip, picked));
            t.workers[w].queue[k].row.id == picked[k] && TicketOk(setup, t, w, t.workers[w].queue[k])
  {
    PickedAreClaimable(setup, s, w, skip, picked);
    assert RowOk(picked[k], s.rows[picked[k]]);
    NewLeasesAreNewest(s.leases, picked, w, s.now, s.now + EffectiveLock(setup.cfg.lockDuration), k);
  }

  lemma OtherTicketOk(setup: Setup, s: State, w: string, skip: set<int>, picked: seq<int>, v: string, t: Ticket)
    requires SetupOk(setup) && Inv(setup, s) && Enabled(setup, s, Claim(w, skip, picked))
    requires v != w && TicketOk(setup, s, v, t)
    ensures TicketOk(setup, Apply(setup, s, Claim(w, skip, picked)), v, t)
  {
    PickedAreClaimable(setup, s, w, skip, picked);
  }

  lemma ClaimKeepsQueues(setup: Setup, s: State, w: string, skip: set<int>, picked: seq<int>)
    requires SetupOk(setup) && Inv(setup, s) && Enabled(setup, s, Claim(w, skip, picked))
    ensures QueuesOk(setup, Apply(setup, s, Claim(w, skip, picked)))
  {
    PickedAreClaimable(setup, s, w, skip, picked);
    var t := Apply(setup, s, Claim(w, skip, picked));
    forall v | v in t.workers ensures QueueOk(setup, t, v, t.workers[v].queue) {
      assert QueueOk(setup, s, v, s.workers[v].queue);
      var q := t.workers[v].queue;
      if v == w {
        forall k | 0 <= k < |q| ensures TicketOk(setup, t, w, q[k]) && q[k].row.id == picked[k] {
          ClaimedTicketOk(setup, s, w, skip, picked, k);
        }
      } else {
        forall k | 0 <= k < |q| ensures TicketOk(setup, t, v, q[k]) {
          OtherTicketOk(setup, s, w, skip, picked, v, q[k]);
        }
      }
    }
  }

  // ---------- a mark ----------

  /**
   While the row is locked by the ticket's worker, the ticket's lease is the only one of the row that may still be in
   force.
   */
  lemma OthersAreOver(setup: Setup, s: State, w: string, t: Ticket, i: int)
    requires Inv(setup, s) && TicketOk(setup, s, w, t) && s.rows[t.row.id].lockedBy == w
    requires 0 <= i < |s.leases| && s.leases[i].row == t.row.id && i != t.lease
    ensures Over(s.leases[i], s.now)
  {
    assert LeaseOk(setup, s, s.leases[i]) && LeaseOk(setup, s, s.leases[t.lease]);
  }

  lemma PopKeeps(setup: Setup, s: State, w: string)
    requires Inv(setup, s) && w in s.workers && s.workers[w].queue != []
    ensures Inv(setup, s.(workers := Popped(s, w)))
  {
    var t := s.(workers := Popped(s, w));
    forall v | v in t.workers ensures QueueOk(setup, t, v, t.workers[v].queue) {
      assert QueueOk(setup, s, v, s.workers[v].queue);
      forall k | 0 <= k < |t.workers[v].queue| ensures TicketOk(setup, t, v, t.workers[v].queue[k]) {
        assert TicketOk(setup, s, v, s.workers[v].queue[if v == w then k + 1 else k]);
      }
    }
    forall i | 0 <= i < |t.leases| ensures LeaseOk(setup, t, t.leases[i]) {
      assert LeaseOk(setup, s, s.leases[i]);
    }
  }

  /** A row that a settling mark may leave behind. */
  predicate Settles(s: State, t: Ticket, r: OutboxRow) {
    t.row.id in s.rows && RowOk(t.row.id, r) && !r.status.Processing? && r.maxRetries == s.rows[t.row.id].maxRetries
  }

  lemma SettleKeepsLeases(setup: Setup, s: State, w: string, r: OutboxRow, failures: seq<Failure>)
    requires Inv(setup, s) && w in s.workers && s.workers[w].queue != []
    requires Settles(s, s.workers[w].queue[0], r) && s.rows[r.id].lockedBy == w
    ensures LeasesOk(setup, Settle(s, w, r, failures))
  {
    var ticket, t := s.workers[w].queue[0], Settle(s, w, r, failures);
    assert QueueOk(setup, s, w, s.workers[w].queue);
    assert TicketOk(setup, s, w, ticket);
    forall i | 0 <= i < |t.leases| ensures LeaseOk(setup, t, t.leases[i]) {
      assert LeaseOk(setup, s, s.leases[i]);
      if i != ticket.lease && s.leases[i].row == r.id { OthersAreOver(setup, s, w, ticket, i); }
    }
    forall i, j | 0 <= i < j < |t.leases| && t.leases[i].row == t.leases[j].row
      ensures Over(t.leases[i], t.leases[j].from)
    {
      assert Over(s.leases[i], s.leases[j].from);
      if i == ticket.lease { assert LeaseOk(setup, s, s.leases[j]); }
    }
  }

  lemma SettleKeepsQueues(setup: Setup, s: State, w: string, r: OutboxRow, failures: seq<Failure>)
    requires Inv(setup, s) && w in s.workers && s.workers[w].queue != []
    requires Settles(s, s.workers[w].queue[0], r) && s.rows[r.id].lockedBy == w
    ensures QueuesOk(setup, Settle(s, w, r, failures))
  {
    var ticket, t := s.workers[w].queue[0], Settle(s, w, r, failures);
    assert QueueOk(setup, s, w, s.workers[w].queue);
    assert TicketOk(setup, s, w, ticket);
    forall v | v in t.workers ensures QueueOk(setup, t, v, t.workers[v].queue) {
      assert QueueOk(setup, s, v, s.workers[v].queue);
      forall k | 0 <= k < |t.workers[v].queue| ensures TicketOk(setup, t, v, t.workers[v].queue[k]) {
        assert TicketOk(setup, s, v, s.workers[v].queue[if v == w then k + 1 else k]);
      }
    }
  }

  lemma SettleKeeps(setup: Setup, s: State, w: string, r: OutboxRow, failures: seq<Failure>)
    requires Inv(setup, s) && w in s.workers && s.workers[w].queue != []
    requires Settles(s, s.workers[w].queue[0], r) && s.rows[r.id].lockedBy == w
    ensures Inv(setup, Settle(s, w, r, failures))
  {
    SettleKeepsLeases(setup, s, w, r, failures);
    SettleKeepsQueues(setup, s, w, r, failures);
  }

  /** An effective mark comes from the row's holder, whose memory of the retry count is right. */
  lemma EffectiveIsHeld(setup: Setup, s: State, w: string)
    requires Inv(setup, s) && w in s.workers && s.workers[w].queue != []
    ensures var ticket := s.workers[w].queue[0].row;
            && ticket.id in s.rows && ticket.lockedBy == w && RowOk(ticket.id, s.rows[ticket.id])
            && ticket.maxRetries == s.rows[ticket.id].maxRetries
            && (Effective(s.rows, ticket) ==>
                  && s.rows[ticket.id].lockedBy == w && s.rows[ticket.id].status.Processing?
                  && s.rows[ticket.id].retryCount == ticket.retryCount < EffectiveMax(ticket.maxRetries))
  {
    assert QueueOk(setup, s, w, s.workers[w].queue);
    assert TicketOk(setup, s, w, s.workers[w].queue[0]);
    assert RowOk(s.workers[w].queue[0].row.id, s.rows[s.workers[w].queue[0].row.id]);
  }

  /** Every remembered row has a sender: the branch for a missing one is never taken. */
  lemma QueuedHasSender(setup: Setup, s: State, w: string)
    requires Inv(setup, s)
    ensures !Enabled(setup, s, NoSender(w))
  {
    if w in s.workers && s.workers[w].queue != [] {
      assert QueueOk(setup, s, w, s.workers[w].queue);
      assert TicketOk(setup, s, w, s.workers[w].queue[0]);
    }
  }

  lemma MarkSentKeeps(setup: Setup, s: State, w: string)
    requires Inv(setup, s) && w in s.workers && s.workers[w].queue != []
    ensures Inv(setup, MarkSentBy(s, w))
  {
    EffectiveIsHeld(setup, s, w);
    var ticket := s.workers[w].queue[0].row;
    if Effective(s.rows, ticket) {
      SettleKeeps(setup, s, w, SentRow(s.rows[ticket.id], s.now), s.failures);
    } else {
      PopKeeps(setup, s, w);
    }
  }

  lemma MarkFailedKeeps(setup: Setup, s: State, w: string, error: string, retryAfter: int)
    requires Inv(setup, s) && w in s.workers && s.workers[w].queue != []
    ensures Inv(setup, MarkFailedBy(setup, s, w, error, retryAfter))
  {
    EffectiveIsHeld(setup, s, w);
    var ticket, cfg := s.workers[w].queue[0].row, RetryOf(setup.cfg, retryAfter);
    if Effective(s.rows, ticket) {
      SettleKeeps(setup, s, w, FailedRow(s.rows[ticket.id], ticket, error, cfg, s.now),
                  s.failures + [Failure(ticket.id, s.now + FailureDelay(ticket.retryCount + 1, cfg), |s.leases|)]);
    } else {
      PopKeeps(setup, s, w);
    }
  }

  // ---------- the other steps ----------

  lemma InsertKeeps(setup: Setup, s: State, row: OutboxRow)
    requires Inv(setup, s) && Enabled(setup, s, Insert(row))
    ensures Inv(setup, Apply(setup, s, Insert(row)))
  {
    var t := Apply(setup, s, Insert(row));
    forall i | 0 <= i < |t.leases| ensures LeaseOk(setup, t, t.leases[i]) {
      assert LeaseOk(setup, s, s.leases[i]);
    }
    forall v | v in t.workers ensures QueueOk(setup, t, v, t.workers[v].queue) {
      assert QueueOk(setup, s, v, s.workers[v].queue);
      forall k | 0 <= k < |t.workers[v].queue| ensures TicketOk(setup, t, v, t.workers[v].queue[k]) {
        assert TicketOk(setup, s, v, s.workers[v].queue[k]);
      }
    }
  }

  lemma TickKeeps(setup: Setup, s: State, d: nat)
    requires Inv(setup, s)
    ensures Inv(setup, Apply(setup, s, Tick(d)))
  {
    var t := Apply(setup, s, Tick(d));
    forall i | 0 <= i < |t.leases| ensures LeaseOk(setup, t, t.leases[i]) {
      assert LeaseOk(setup, s, s.leases[i]);
    }
    QueuesFrame(setup, s, t);
  }

  /** Queues that shrink or stay keep their invariant as long as rows and leases stay. */
  lemma QueuesFrame(setup: Setup, s: State, t: State)
    requires QueuesOk(setup, s) && t.rows == s.rows && t.leases == s.leases && t.workers.Keys == s.workers.Keys
    requires forall w :: w in t.workers ==> t.workers[w].queue == s.workers[w].queue || t.workers[w].queue == []
    ensures QueuesOk(setup, t)
  {
    forall v | v in t.workers ensures QueueOk(setup, t, v, t.workers[v].queue) {
      assert QueueOk(setup, s, v, s.workers[v].queue);
      forall k | 0 <= k < |t.workers[v].queue| ensures TicketOk(setup, t, v, t.workers[v].queue[k]) {
        assert TicketOk(setup, s, v, s.workers[v].queue[k]);
      }
    }
  }

  lemma QuietKeeps(setup: Setup, s: State, step: Step)
    requires Inv(setup, s) && Enabled(setup, s, step) && (step.StartSend? || step.EndSend? || step.Crash?)
    ensures Inv(setup, Apply(setup, s, step))
  {
    var t := Apply(setup, s, step);
    forall i | 0 <= i < |t.leases| ensures LeaseOk(setup, t, t.leases[i]) {
      assert LeaseOk(setup, s, s.leases[i]);
    }
    QueuesFrame(setup, s, t);
  }

  lemma StepKeepsInv(setup: Setup, s: State, step: Step)
    requires SetupOk(setup) && Inv(setup, s) && Enabled(setup, s, step)
    ensures Inv(setup, Apply(setup, s, step))
  {
    match step
    case Tick(d) => TickKeeps(setup, s, d);
    case Insert(row) => InsertKeeps(setup, s, row);
    case Claim(w, skip, picked) =>
      ClaimKeepsRows(setup, s, w, skip, picked);
      ClaimKeepsLeases(setup, s, w, skip, picked);
      ClaimKeepsQueues(setup, s, w, skip, picked);
    case NoSender(w) => MarkFailedKeeps(setup, s, w, "notification sender not found", 0);
    case Mark(w) =>
      MarkSentKeeps(setup, s, w);
      if s.workers[w].phase.outcome.SendFailed? {
        MarkFailedKeeps(setup, s, w, s.workers[w].phase.outcome.error,
                        Wrap64(s.workers[w].phase.outcome.retryAfter + SECOND));
      }
    case LoseMark(w) => PopKeeps(setup, s, w);
    case _ => QuietKeeps(setup, s, step);
  }
}
