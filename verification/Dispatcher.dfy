/**
 The dispatcher's own loop (notifications/dispatcher.go): one round claims rows and then sends and marks them in turn.
 */
module Dispatcher {
  import opened Basics
  import opened Tables
  import opened Outbox
  import opened Dispatch

  const NO_SENDER := "notification sender not found"

  datatype DispatchError = SenderMissing | SendError(text: string) | MarkError

  /** The rows after sendOne: answer is what Send returns, now the clock of the mark. */
  function AfterSendOne(setup: Setup, rows: map<int, OutboxRow>, row: OutboxRow, answer: SendOutcome,
                        now: int): map<int, OutboxRow> {
    if row.id == 0 then rows
    else if row.channel !in setup.senders then AfterFailed(rows, row, NO_SENDER, RetryOf(setup.cfg, 0), now)
    else match answer
      case Delivered => AfterSent(rows, row, now)
      case SendFailed(error, retryAfter) => AfterFailed(rows, row, error,
                                                        RetryOf(setup.cfg, Wrap64(retryAfter + SECOND)), now)
  }

  function AfterSends(setup: Setup, rows: map<int, OutboxRow>, claimed: seq<OutboxRow>, answers: nat -> SendOutcome,
                      clocks: nat -> int): map<int, OutboxRow> {
    if claimed == [] then rows
    else
      var n := |claimed| - 1;
      AfterSendOne(setup, AfterSends(setup, rows, claimed[..n], answers, clocks), claimed[n], answers(n), clocks(n))
  }

  class Loop {
    const setup: Setup
    const store: Store

    constructor (setup: Setup, store: Store)
      ensures this.setup == setup && this.store == store
    {
      this.setup := setup;
      this.store := store;
    }

    method SendOne(row: OutboxRow, answer: SendOutcome, now: int) returns (r: Outcome<DispatchError>)
      modifies store
      ensures store.rows == AfterSendOne(setup, old(store.rows), row, answer, now)
      ensures r.Pass? <==> row.id != 0 && row.channel in setup.senders && answer.Delivered?
    {
      if row.channel !in setup.senders {
        var _ := store.MarkFailed(row, NO_SENDER, RetryOf(setup.cfg, 0), now);
        return Fail(SenderMissing);
      }
      if answer.SendFailed? {
        var cfg := RetryOf(setup.cfg, 0).(retryAfter := Wrap64(answer.retryAfter + SECOND));
        var _ := store.MarkFailed(row, answer.error, cfg, now);
        return Fail(SendError(answer.error));
      }
      var marked := store.MarkSent(row, now);
      r := if marked.Fail? then Fail(MarkError) else Pass;
    }

    /** One turn of Run's loop when nothing interferes; an empty claim and a failed one leave everything as it is. */
    method RunRound(workerId: string, now: int, skip: set<int>, answers: nat -> SendOutcome, clocks: nat -> int)
    returns (claimed: seq<OutboxRow>)
      requires Keyed(store.rows)
      modifies store
      ensures TrimSpace(workerId) == "" ==> claimed == [] && store.rows == old(store.rows)
      ensures TrimSpace(workerId) != "" ==>
                var picked := seq(|claimed|, i requires 0 <= i < |claimed| => claimed[i].id);
                var until := now + EffectiveLock(setup.cfg.lockDuration);
                var locked := AfterClaim(old(store.rows), picked, TrimSpace(workerId), until);
                && Picks(old(store.rows), Candidates(old(store.rows), now, NormalizeChannels(setup.senders), skip),
                         EffectiveLimit(setup.cfg.batchSize), picked)
                && (forall i :: 0 <= i < |claimed| ==> picked[i] in locked && claimed[i] == locked[picked[i]])
                && store.rows == AfterSends(setup, locked, claimed, answers, clocks)
    {
      TrimSpaceLaw(workerId);
      var worker := TrimSpace(workerId);
      var r := store.ClaimDue(ClaimOptions(worker, setup.senders, setup.cfg.batchSize, setup.cfg.lockDuration), now,
                              skip);
      if r.Err? {
        return [];
      }
      claimed := r.value;
      ghost var locked := store.rows;
      var i := 0;
      while i < |claimed|
        invariant 0 <= i <= |claimed|
        invariant store.rows == AfterSends(setup, locked, claimed[..i], answers, clocks)
      {
        assert claimed[..i + 1][..i] == claimed[..i];
        var _ := SendOne(claimed[i], answers(i), clocks(i));
        i := i + 1;
      }
      assert claimed[..i] == claimed;
    }
  }

  /** The protocol's mark step does to the rows what sendOne does. */
  lemma MarkIsSendOne(setup: Setup, s: State, w: string)
    requires Inv(setup, s) && Enabled(setup, s, Mark(w))
    ensures Apply(setup, s, Mark(w)).rows
            == AfterSendOne(setup, s.rows, s.workers[w].queue[0].row, s.workers[w].phase.outcome, s.now)
  {
    var ticket := s.workers[w].queue[0].row;
    assert QueueOk(setup, s, w, s.workers[w].queue);
    assert TicketOk(setup, s, w, s.workers[w].queue[0]);
    EffectiveIsHeld(setup, s, w);
    if !Effective(s.rows, ticket) {
      assert Apply(setup, s, Mark(w)).rows == s.rows;
    }
  }

  /** The row that a mark leaves behind. */
  function Settled(setup: Setup, row: OutboxRow, answer: SendOutcome, now: int): OutboxRow {
    match answer
    case Delivered => SentRow(row, now)
    case SendFailed(error, retryAfter) => FailedRow(row, row, error, RetryOf(setup.cfg, Wrap64(retryAfter + SECOND)),
                                                    now)
  }

  predicate HoldsRow(setup: Setup, rows: map<int, OutboxRow>, row: OutboxRow, worker: string) {
    && row.id != 0 && row.id in rows && rows[row.id] == row
    && row.lockedBy == worker && row.channel in setup.senders
  }

  /** Rows locked for one worker, as that worker remembers them. */
  predicate Batch(setup: Setup, rows: map<int, OutboxRow>, claimed: seq<OutboxRow>, worker: string) {
    && worker != ""
    && (forall i :: 0 <= i < |claimed| ==> HoldsRow(setup, rows, claimed[i], worker))
    && (forall i, j :: 0 <= i < j < |claimed| ==> claimed[i].id != claimed[j].id)
  }

  lemma SendOneSettles(setup: Setup, rows: map<int, OutboxRow>, row: OutboxRow, answer: SendOutcome, now: int)
    requires row.id != 0 && row.id in rows && rows[row.id] == row && row.channel in setup.senders
    ensures AfterSendOne(setup, rows, row, answer, now) == rows[row.id := Settled(setup, row, answer, now)]
  {
  }

  predicate NoneOf(claimed: seq<OutboxRow>, id: int) {
    forall k :: 0 <= k < |claimed| ==> claimed[k].id != id
  }

  /** Every claimed row is settled by its own answer, and no other row is touched. */
  ghost predicate SettledBatch(setup: Setup, rows: map<int, OutboxRow>, claimed: seq<OutboxRow>,
                               answers: nat -> SendOutcome, clocks: nat -> int,
                               after: map<int, OutboxRow>) {
    && after.Keys == rows.Keys
    && (forall k :: 0 <= k < |claimed| ==>
        claimed[k].id in after && after[claimed[k].id] == Settled(setup, claimed[k], answers(k), clocks(k)))
    && (forall id :: id in rows && NoneOf(claimed, id) ==> after[id] == rows[id])
  }

  lemma NoneOfBefore(claimed: seq<OutboxRow>, n: nat, id: int)
    requires n < |claimed| && NoneOf(claimed[..n + 1], id)
    ensures NoneOf(claimed[..n], id) && claimed[n].id != id
  {
    assert claimed[..n + 1][n] == claimed[n];
    assert forall k :: 0 <= k < n ==> claimed[..n][k] == claimed[..n + 1][k];
  }

  lemma OwnIdIsNew(setup: Setup, rows: map<int, OutboxRow>, claimed: seq<OutboxRow>, worker: string, n: nat)
    requires Batch(setup, rows, claimed, worker) && n < |claimed|
    ensures NoneOf(claimed[..n], claimed[n].id) && HoldsRow(setup, rows, claimed[n], worker)
  {
  }

  lemma SettleOneMore(setup: Setup, rows: map<int, OutboxRow>, claimed: seq<OutboxRow>, worker: string,
                      answers: nat -> SendOutcome, clocks: nat -> int,
                      before: map<int, OutboxRow>, n: nat)
    requires Batch(setup, rows, claimed, worker) && n < |claimed|
    requires SettledBatch(setup, rows, claimed[..n], answers, clocks, before)
    ensures before[claimed[n].id] == claimed[n]
    ensures SettledBatch(setup, rows, claimed[..n + 1], answers, clocks,
                         before[claimed[n].id := Settled(setup, claimed[n], answers(n), clocks(n))])
  {
    OwnIdIsNew(setup, rows, claimed, worker, n);
    var after := before[claimed[n].id := Settled(setup, claimed[n], answers(n), clocks(n))];
    forall k | 0 <= k <= n ensures after[claimed[..n + 1][k].id] == Settled(setup, claimed[k], answers(k), clocks(k)) {
      if k < n { assert claimed[..n][k] == claimed[k]; }
    }
    forall id | id in rows && NoneOf(claimed[..n + 1], id) ensures after[id] == rows[id] {
      NoneOfBefore(claimed, n, id);
    }
  }

  /** A round without interference settles every claimed row. */
  lemma {:induction false} RoundSettlesBatch(setup: Setup, rows: map<int, OutboxRow>, claimed: seq<OutboxRow>,
                                             worker: string,
                                             answers: nat -> SendOutcome, clocks: nat -> int)
    requires Batch(setup, rows, claimed, worker)
    ensures SettledBatch(setup, rows, claimed, answers, clocks, AfterSends(setup, rows, claimed, answers, clocks))
    decreases |claimed|
  {
    if claimed != [] {
      var n := |claimed| - 1;
      var before := AfterSends(setup, rows, claimed[..n], answers, clocks);
      RoundSettlesBatch(setup, rows, claimed[..n], worker, answers, clocks);
      assert HoldsRow(setup, rows, claimed[n], worker);
      SettleOneMore(setup, rows, claimed, worker, answers, clocks, before, n);
      SendOneSettles(setup, before, claimed[n], answers(n), clocks(n));
      assert claimed[..n + 1] == claimed;
    }
  }

  /** What a round claims is such a batch. */
  lemma ClaimedIsBatch(setup: Setup, rows: map<int, OutboxRow>, now: int, skip: set<int>, picked: seq<int>,
                       worker: string, until: int, claimed: seq<OutboxRow>)
    requires SetupOk(setup) && Keyed(rows) && 0 !in rows && worker != ""
    requires Picks(rows, Candidates(rows, now, NormalizeChannels(setup.senders), skip),
                   EffectiveLimit(setup.cfg.batchSize), picked)
    requires |claimed| == |picked| && forall i :: 0 <= i < |claimed| ==>
             picked[i] in rows && claimed[i] == AfterClaim(rows, picked, worker, until)[picked[i]]
    ensures Batch(setup, AfterClaim(rows, picked, worker, until), claimed, worker)
  {
    PickedHaveSenders(setup, rows, now, skip, picked);
    forall i | 0 <= i < |claimed|
      ensures claimed[i].id == picked[i] && claimed[i].lockedBy == worker && claimed[i].channel in setup.senders
    {
      assert rows[picked[i]].id == picked[i];
    }
  }
}
