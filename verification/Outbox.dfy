/**
 The notification outbox store (database/store_notification_outbox.go): claim due rows under a timed lock, mark them
 afterwards.
 */
module Outbox {
  import opened Basics
  import opened Tables
  import opened Backoff

  const SECOND: int := 1_000_000_000
  const MINUTE: int := 60 * SECOND

  datatype OutboxError = WorkerRequired | IdZero

  datatype ClaimOptions = ClaimOptions(workerId: string, channels: seq<string>, limit: int, lockDuration: int)

  datatype RetryConfig = RetryConfig(baseDelay: int, maxDelay: int, retryAfter: int)

  // ---------- what may be claimed ----------

  /** The channels of a claim, trimmed, without blanks and repetitions. */
  function NormalizeChannels(channels: seq<string>): seq<string> {
    if channels == [] then []
    else
      var out, channel := NormalizeChannels(channels[..|channels| - 1]), TrimSpace(channels[|channels| - 1]);
      if channel == "" || channel in out then out else out + [channel]
  }

  method NormalizeChannelsLoop(channels: seq<string>) returns (out: seq<string>)
    ensures out == NormalizeChannels(channels)
  {
    out := [];
    var seen: set<string> := {};
    var i := 0;
    while i < |channels|
      invariant 0 <= i <= |channels|
      invariant out == NormalizeChannels(channels[..i])
      invariant forall c :: c in seen <==> c in out
    {
      assert channels[..i + 1][..i] == channels[..i];
      var channel := TrimSpace(channels[i]);
      if channel != "" && channel !in seen {
        seen := seen + {channel};
        out := out + [channel];
      }
      i := i + 1;
    }
    assert channels[..i] == channels;
  }

  /** Some listed channel trims to the non-blank name c. */
  predicate Names(channels: seq<string>, c: string) {
    c != "" && exists i :: 0 <= i < |channels| && TrimSpace(channels[i]) == c
  }

  predicate NoRepeats<T(==)>(s: seq<T>) {
    forall i, j :: 0 <= i < j < |s| ==> s[i] != s[j]
  }

  /** The result holds every trimmed non-blank channel, once, and nothing else. */
  lemma {:induction false} NormalizeChannelsLaw(channels: seq<string>)
    ensures forall c :: c in NormalizeChannels(channels) <==> Names(channels, c)
    ensures NoRepeats(NormalizeChannels(channels))
  {
    if channels != [] {
      var rest, channel := channels[..|channels| - 1], TrimSpace(channels[|channels| - 1]);
      NormalizeChannelsLaw(rest);
      forall c ensures c in NormalizeChannels(channels) <==> Names(channels, c) {
        assert channels == rest + [channels[|channels| - 1]];
        assert Names(channels, c) <==> Names(rest, c) || (c != "" && c == channel);
      }
    }
  }

  /** A lock that has run out, or a processing row without one. */
  predicate LockExpired(r: OutboxRow, now: int) {
    r.lockedUntil.None? || r.lockedUntil.value < now
  }

  /** The WHERE clause of ClaimDue; no channels means every channel. */
  predicate Claimable(r: OutboxRow, now: int, channels: seq<string>) {
    && r.nextRetryAt <= now
    && (r.status.Pending? || r.status.Failed? || (r.status.Processing? && LockExpired(r, now)))
    && (channels == [] || r.channel in channels)
  }

  /** The ORDER BY clause: next_retry_at, then id. */
  predicate Before(a: OutboxRow, b: OutboxRow) {
    a.nextRetryAt < b.nextRetryAt || (a.nextRetryAt == b.nextRetryAt && a.id < b.id)
  }

  /** Rows locked by another transaction are skipped. */
  function Candidates(rows: map<int, OutboxRow>, now: int, channels: seq<string>, skip: set<int>): set<int> {
    set id | id in rows && id !in skip && Claimable(rows[id], now, channels)
  }

  ghost predicate Keyed(rows: map<int, OutboxRow>) {
    forall id :: id in rows ==> rows[id].id == id
  }

  /** The first limit candidates in order. */
  ghost predicate Picks(rows: map<int, OutboxRow>, pool: set<int>, limit: int, picked: seq<int>)
    requires pool <= rows.Keys
  {
    && |picked| == Min(limit, |pool|)
    && (forall i :: 0 <= i < |picked| ==> picked[i] in pool)
    && (forall i, j :: 0 <= i < j < |picked| ==> Before(rows[picked[i]], rows[picked[j]]))
    && (forall i, id :: 0 <= i < |picked| && id in pool && id !in picked ==> Before(rows[picked[i]], rows[id]))
  }

  function EffectiveLimit(limit: int): int {
    if limit <= 0 then 100 else limit
  }

  function EffectiveLock(lockDuration: int): int {
    if lockDuration <= 0 then 30 * SECOND else lockDuration
  }

  function Locked(r: OutboxRow, worker: string, until: int): OutboxRow {
    r.(status := Processing, lockedBy := worker, lockedUntil := Some(until))
  }

  /** The table after a claim. */
  function AfterClaim(rows: map<int, OutboxRow>, picked: seq<int>, worker: string, until: int): map<int, OutboxRow> {
    map id | id in rows :: if id in picked then Locked(rows[id], worker, until) else rows[id]
  }

  // ---------- marks ----------

  /** The fence: a snapshot with an owner updates its row only while that owner still has the lock. */
  predicate Matches(rows: map<int, OutboxRow>, snapshot: OutboxRow) {
    snapshot.id in rows && (snapshot.lockedBy == "" || rows[snapshot.id].lockedBy == snapshot.lockedBy)
  }

  function SentRow(r: OutboxRow, now: int): OutboxRow {
    r.(status := Sent, lockedBy := "", lockedUntil := None, lastError := "", sentAt := Some(now))
  }

  function AfterSent(rows: map<int, OutboxRow>, snapshot: OutboxRow, now: int): map<int, OutboxRow> {
    if Matches(rows, snapshot) then rows[snapshot.id := SentRow(rows[snapshot.id], now)] else rows
  }

  function EffectiveMax(maxRetries: int): (m: int)
    ensures m >= 1
  {
    if maxRetries <= 0 then 10 else maxRetries
  }

  /** The wait before the next try: backoff or the sender's demand, whichever is longer. */
  function FailureDelay(retryCount: int, cfg: RetryConfig): int {
    var base := if cfg.baseDelay <= 0 then SECOND else cfg.baseDelay;
    var max := if cfg.maxDelay <= 0 then MINUTE else cfg.maxDelay;
    Max(OutboxDelay(retryCount, base, max), cfg.retryAfter)
  }

  function Truncate(s: string, max: int): string {
    if max <= 0 || |s| <= max then s else s[..max]
  }

  /** The row after an effective failure mark: everything is computed from the snapshot. */
  function FailedRow(r: OutboxRow, snapshot: OutboxRow, error: string, cfg: RetryConfig, now: int): OutboxRow {
    var retryCount := snapshot.retryCount + 1;
    var dead := retryCount >= EffectiveMax(snapshot.maxRetries);
    r.(status := if dead then Dead else Failed,
       retryCount := retryCount,
       nextRetryAt := if dead then now else now + FailureDelay(retryCount, cfg),
       lockedBy := "", lockedUntil := None, lastError := Truncate(error, 4000))
  }

  function AfterFailed(rows: map<int, OutboxRow>, snapshot: OutboxRow, error: string, cfg: RetryConfig,
                       now: int): map<int, OutboxRow> {
    if Matches(rows, snapshot) then rows[snapshot.id := FailedRow(rows[snapshot.id], snapshot, error, cfg, now)]
        else rows
  }

  /** Settings that are at least one stay; otherwise 100 rows, thirty seconds and ten tries. */
  lemma SettingsStay(limit: int, lockDuration: int, maxRetries: int)
    ensures EffectiveLimit(limit) == limit >= 1 || (limit <= 0 && EffectiveLimit(limit) == 100)
    ensures EffectiveLock(lockDuration) == lockDuration >= 1
            || (lockDuration <= 0 && EffectiveLock(lockDuration) == 30_000_000_000)
    ensures EffectiveMax(maxRetries) == maxRetries >= 1 || (maxRetries <= 0 && EffectiveMax(maxRetries) == 10)
  {
  }

  // ---------- what claims and marks change ----------

  /** A claim locks the picked rows and touches nothing else. */
  lemma ClaimMeans(rows: map<int, OutboxRow>, picked: seq<int>, worker: string, until: int, id: int)
    requires id in rows
    ensures var rows' := AfterClaim(rows, picked, worker, until);
            && rows'.Keys == rows.Keys
            && (id !in picked ==> rows'[id] == rows[id])
            && (id in picked ==>
                  && rows'[id].status.Processing? && rows'[id].lockedBy == worker
                  && rows'[id].lockedUntil == Some(until)
                  && SameMessage(rows[id], rows'[id]) && rows'[id].retryCount == rows[id].retryCount
                  && rows'[id].nextRetryAt == rows[id].nextRetryAt && rows'[id].sentAt == rows[id].sentAt
                  && rows'[id].lastError == rows[id].lastError)
  {
  }

  /** Both tables have the same rows, except that the one with this ID may differ. */
  predicate OthersStay(rows: map<int, OutboxRow>, rows': map<int, OutboxRow>, id: int) {
    rows'.Keys == rows.Keys && forall x :: x in rows && x != id ==> rows'[x] == rows[x]
  }

  /** The row is there, and the snapshot has no owner or the row's. */
  predicate Fits(rows: map<int, OutboxRow>, snapshot: OutboxRow) {
    snapshot.id in rows && (snapshot.lockedBy == "" || snapshot.lockedBy == rows[snapshot.id].lockedBy)
  }

  /** A sent mark that fits settles its row; one that does not changes nothing. */
  lemma SentMeans(rows: map<int, OutboxRow>, snapshot: OutboxRow, now: int)
    ensures var rows' := AfterSent(rows, snapshot, now);
            && OthersStay(rows, rows', snapshot.id)
            && (!Fits(rows, snapshot) ==> rows' == rows)
            && (Fits(rows, snapshot) ==>
                  var r, r' := rows[snapshot.id], rows'[snapshot.id];
                  && r'.status.Sent? && r'.sentAt == Some(now) && r'.lastError == ""
                  && r'.lockedBy == "" && r'.lockedUntil.None?
                  && SameMessage(r, r') && r'.retryCount == r.retryCount && r'.nextRetryAt == r.nextRetryAt)
  {
  }

  /**
   A failure mark that fits counts one failure on top of the snapshot's, kills the row at the maximum, otherwise makes
   it due after the longer of backoff and demand, and keeps the beginning of the error.
   */
  lemma FailedMeans(rows: map<int, OutboxRow>, snapshot: OutboxRow, error: string, cfg: RetryConfig, now: int)
    ensures var rows' := AfterFailed(rows, snapshot, error, cfg, now);
            && OthersStay(rows, rows', snapshot.id)
            && (!Fits(rows, snapshot) ==> rows' == rows)
            && (Fits(rows, snapshot) ==>
                  var r, r', n := rows[snapshot.id], rows'[snapshot.id], snapshot.retryCount + 1;
                  var backoff := OutboxDelay(n, if cfg.baseDelay <= 0 then 1_000_000_000 else cfg.baseDelay,
                                             if cfg.maxDelay <= 0 then 60_000_000_000 else cfg.maxDelay);
                  var dead := n >= (if snapshot.maxRetries <= 0 then 10 else snapshot.maxRetries);
                  && r'.retryCount == n && r'.lockedBy == "" && r'.lockedUntil.None?
                  && r'.status == (if dead then Dead else Failed)
                  && r'.nextRetryAt == (if dead then now else now + Max(backoff, cfg.retryAfter))
                  && r'.lastError <= error && |r'.lastError| == Min(|error|, 4000)
                  && SameMessage(r, r') && r'.sentAt == r.sentAt)
  {
  }

  // ---------- the store ----------

  ghost predicate IsFirst(rows: map<int, OutboxRow>, pool: set<int>, id: int)
    requires pool <= rows.Keys
  {
    id in pool && forall x :: x in pool && x != id ==> Before(rows[id], rows[x])
  }

  lemma FirstOfMore(rows: map<int, OutboxRow>, rest: set<int>, a: int, b: int)
    requires Keyed(rows) && rest <= rows.Keys && a in rows && a !in rest && IsFirst(rows, rest, b)
    ensures IsFirst(rows, rest + {a}, a) || IsFirst(rows, rest + {a}, b)
  {
    if Before(rows[a], rows[b]) {
      assert IsFirst(rows, rest + {a}, a);
    } else {
      assert Before(rows[b], rows[a]);
    }
  }

  /** Some candidate precedes all others. */
  lemma {:induction false} FirstExists(rows: map<int, OutboxRow>, pool: set<int>, a: int) returns (id: int)
    requires Keyed(rows) && pool <= rows.Keys && a in pool
    ensures IsFirst(rows, pool, id)
    decreases |pool|
  {
    var rest := pool - {a};
    assert pool == rest + {a};
    if c :| c in rest {
      var b := FirstExists(rows, rest, c);
      FirstOfMore(rows, rest, a, b);
      id := if IsFirst(rows, pool, a) then a else b;
    } else {
      id := a;
    }
  }

  class Store {
    var rows: map<int, OutboxRow>

    constructor (rows: map<int, OutboxRow>)
      ensures this.rows == rows
    {
      this.rows := rows;
    }

    /** skip are the rows that other transactions hold; now is the caller's clock. */
    method ClaimDue(opt: ClaimOptions, now: int, skip: set<int>) returns (r: Result<seq<OutboxRow>, OutboxError>)
      requires Keyed(rows)
      modifies this
      ensures r.Err? <==> TrimSpace(opt.workerId) == ""
      ensures r.Err? ==> rows == old(rows)
      ensures r.Ok? ==>
                var worker, until := TrimSpace(opt.workerId), now + EffectiveLock(opt.lockDuration);
                var picked := seq(|r.value|, i requires 0 <= i < |r.value| => r.value[i].id);
                && Picks(old(rows), Candidates(old(rows), now, NormalizeChannels(opt.channels), skip),
                         EffectiveLimit(opt.limit), picked)
                && rows == AfterClaim(old(rows), picked, worker, until)
                && forall i :: 0 <= i < |r.value| ==> r.value[i] == rows[picked[i]]
    {
      var worker := TrimSpace(opt.workerId);
      if worker == "" {
        return Err(WorkerRequired);
      }
      var limit := if opt.limit <= 0 then 100 else opt.limit;
      var lockDuration := if opt.lockDuration <= 0 then 30 * SECOND else opt.lockDuration;
      var channels := NormalizeChannelsLoop(opt.channels);
      var pool := Candidates(rows, now, channels, skip);
      var picked := PickFirst(rows, pool, limit);
      var lockUntil := now + lockDuration;
      rows := AfterClaim(rows, picked, worker, lockUntil);
      var snapshots := seq(|picked|, i requires 0 <= i < |picked| && picked[i] in rows reads this => rows[picked[i]]);
      assert forall i :: 0 <= i < |picked| ==> picked[i] in rows && snapshots[i].id == picked[i];
      assert picked == seq(|snapshots|, i requires 0 <= i < |snapshots| => snapshots[i].id);
      r := Ok(snapshots);
    }

    method MarkSent(snapshot: OutboxRow, now: int) returns (r: Outcome<OutboxError>)
      modifies this
      ensures r.Fail? <==> snapshot.id == 0
      ensures rows == if r.Pass? then AfterSent(old(rows), snapshot, now) else old(rows)
    {
      if snapshot.id == 0 {
        return Fail(IdZero);
      }
      if snapshot.id in rows {
        var row := rows[snapshot.id];
        if snapshot.lockedBy == "" || row.lockedBy == snapshot.lockedBy {
          rows := rows[snapshot.id := row.(status := Sent, lockedBy := "", lockedUntil := None, lastError := "",
                                           sentAt := Some(now))];
        }
      }
      r := Pass;
    }

    method MarkFailed(snapshot: OutboxRow, error: string, cfg: RetryConfig, now: int) returns (r: Outcome<OutboxError>)
      modifies this
      ensures r.Fail? <==> snapshot.id == 0
      ensures rows == if r.Pass? then AfterFailed(old(rows), snapshot, error, cfg, now) else old(rows)
    {
      if snapshot.id == 0 {
        return Fail(IdZero);
      }
      var baseDelay := if cfg.baseDelay <= 0 then SECOND else cfg.baseDelay;
      var maxDelay := if cfg.maxDelay <= 0 then MINUTE else cfg.maxDelay;
      var retryCount := snapshot.retryCount + 1;
      var maxRetries := if snapshot.maxRetries <= 0 then 10 else snapshot.maxRetries;
      var status := Failed;
      var delay := OutboxDelay(retryCount, baseDelay, maxDelay);
      if cfg.retryAfter > delay {
        delay := cfg.retryAfter;
      }
      var nextRetryAt := now + delay;
      if retryCount >= maxRetries {
        status := Dead;
        nextRetryAt := now;
      }
      var lastError := Truncate(error, 4000);
      if snapshot.id in rows && (snapshot.lockedBy == "" || rows[snapshot.id].lockedBy == snapshot.lockedBy) {
        rows := rows[snapshot.id := rows[snapshot.id].(status := status, retryCount := retryCount,
                                                       nextRetryAt := nextRetryAt,
                                                       lockedBy := "", lockedUntil := None, lastError := lastError)];
      }
      r := Pass;
    }
  }

  /** ORDER BY next_retry_at, id LIMIT limit. */
  method PickFirst(rows: map<int, OutboxRow>, pool: set<int>, limit: int) returns (picked: seq<int>)
    requires Keyed(rows) && pool <= rows.Keys && limit >= 0
    ensures Picks(rows, pool, limit, picked)
  {
    picked := [];
    var left := pool;
    while |picked| < limit && left != {}
      invariant left <= pool && |picked| + |left| == |pool| && |picked| <= limit
      invariant forall i :: 0 <= i < |picked| ==> picked[i] in pool && picked[i] !in left
      invariant forall i, j :: 0 <= i < j < |picked| ==> Before(rows[picked[i]], rows[picked[j]])
      invariant forall i, id :: 0 <= i < |picked| && id in left ==> Before(rows[picked[i]], rows[id])
      invariant forall id :: id in pool && id !in left ==> id in picked
      decreases left
    {
      ghost var some := Inhabited(left);
      ghost var first := FirstExists(rows, left, some);
      var id :| id in left && forall x :: x in left && x != id ==> Before(rows[id], rows[x]);
      picked := picked + [id];
      left := left - {id};
    }
  }

  /** The order leaves no choice: a claim's rows are determined. */
  lemma {:induction false} PicksUnique(rows: map<int, OutboxRow>, pool: set<int>, limit: int, a: seq<int>, b: seq<int>,
                                       n: nat)
    requires Keyed(rows) && pool <= rows.Keys && n <= |a| && n <= |b|
    requires Picks(rows, pool, limit, a) && Picks(rows, pool, limit, b)
    ensures a[..n] == b[..n]
    decreases n
  {
    if n > 0 {
      PicksUnique(rows, pool, limit, a, b, n - 1);
      var x, y := a[n - 1], b[n - 1];
      NotYetPicked(rows, pool, limit, a, b, n - 1);
      NotYetPicked(rows, pool, limit, b, a, n - 1);
      assert a[..n] == a[..n - 1] + [x] && b[..n] == b[..n - 1] + [y];
    }
  }

  /** After equal beginnings the next row of a does not come after the next row of b. */
  lemma NotYetPicked(rows: map<int, OutboxRow>, pool: set<int>, limit: int, a: seq<int>, b: seq<int>, n: nat)
    requires Keyed(rows) && pool <= rows.Keys && n < |a| && n < |b| && a[..n] == b[..n]
    requires Picks(rows, pool, limit, a) && Picks(rows, pool, limit, b)
    ensures a[n] == b[n] || Before(rows[a[n]], rows[b[n]])
  {
    if b[n] in a {
      var i :| 0 <= i < |a| && a[i] == b[n];
      assert i >= n by { assert forall k :: 0 <= k < n ==> a[..n][k] == b[..n][k]; }
    }
  }
}
