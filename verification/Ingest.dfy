/**
 One chunk from the chain to the tables (Scanner.processChunk in
 chains/evm/scanner.go, PipelineHandler.HandleLogs in chains/evm/handler.go).

 The chain is the final content of all blocks: a sequence of logs.  eth_getLogs
 answers a query with the matching logs of the chain, in chain order.
 */
module Ingest {
  import opened Basics
  import opened Domain
  import opened Source
  import opened Chunks
  import H = Handler
  import opened Tables
  import ES = EventStore

  // ---------- collecting the logs of a chunk ----------

  /** logIdentity, within one chain. */
  predicate SameLog(a: Log, b: Log) {
    a.txHash == b.txHash && a.index == b.index
  }

  predicate HasLog(logs: seq<Log>, log: Log) {
    exists i :: 0 <= i < |logs| && SameLog(logs[i], log)
  }

  ghost predicate UniqueLogs(logs: seq<Log>) {
    forall i, j :: 0 <= i < j < |logs| ==> !SameLog(logs[i], logs[j])
  }

  function AddFresh(acc: seq<Log>, logs: seq<Log>): seq<Log> {
    if logs == [] then acc
    else
      var out, log := AddFresh(acc, logs[..|logs| - 1]), logs[|logs| - 1];
      if HasLog(out, log) then out else out + [log]
  }

  function Collect(answers: seq<seq<Log>>): seq<Log> {
    if answers == [] then []
    else AddFresh(Collect(answers[..|answers| - 1]), answers[|answers| - 1])
  }

  /** The query loop of processChunk: None is a failed eth_getLogs call. */
  method CollectLogs(answers: seq<Option<seq<Log>>>) returns (r: Option<seq<Log>>)
    ensures r.Some? <==> forall q :: 0 <= q < |answers| ==> answers[q].Some?
    ensures r.Some? ==> r.value == Collect(seq(|answers|, q requires 0 <= q < |answers| => answers[q].value))
  {
    var allLogs: seq<Log> := [];
    var seen: set<(Hash, nat)> := {};
    ghost var done: seq<seq<Log>> := [];
    var q := 0;
    while q < |answers|
      invariant 0 <= q <= |answers|
      invariant |done| == q && forall k :: 0 <= k < q ==> answers[k] == Some(done[k])
      invariant allLogs == Collect(done)
      invariant forall log :: HasLog(allLogs, log) <==> (log.txHash, log.index) in seen
    {
      if answers[q].None? {
        return None;
      }
      var logs := answers[q].value;
      ghost var before := allLogs;
      var i := 0;
      while i < |logs|
        invariant 0 <= i <= |logs|
        invariant allLogs == AddFresh(before, logs[..i])
        invariant forall log :: HasLog(allLogs, log) <==> (log.txHash, log.index) in seen
      {
        assert logs[..i + 1][..i] == logs[..i];
        var log := logs[i];
        if (log.txHash, log.index) !in seen {
          HasLogSnoc(allLogs, log);
          seen := seen + {(log.txHash, log.index)};
          allLogs := allLogs + [log];
        }
        i := i + 1;
      }
      assert logs[..i] == logs;
      assert (done + [logs])[..q] == done;
      done := done + [logs];
      q := q + 1;
    }
    assert done == seq(|answers|, k requires 0 <= k < |answers| => answers[k].value);
    r := Some(allLogs);
  }

  lemma HasLogSnoc(logs: seq<Log>, log: Log)
    ensures forall x :: HasLog(logs + [log], x) <==> HasLog(logs, x) || SameLog(log, x)
  {
    var more := logs + [log];
    forall x ensures HasLog(more, x) <==> HasLog(logs, x) || SameLog(log, x) {
      if HasLog(logs, x) {
        var i :| 0 <= i < |logs| && SameLog(logs[i], x);
        assert more[i] == logs[i];
      }
      if SameLog(log, x) { assert more[|logs|] == log; }
    }
  }

  lemma {:induction false} AddFreshLaw(acc: seq<Log>, logs: seq<Log>)
    requires UniqueLogs(acc)
    ensures var out := AddFresh(acc, logs);
            && UniqueLogs(out)
            && (forall x :: x in out ==> x in acc || x in logs)
            && (forall x :: HasLog(out, x) <==> HasLog(acc, x) || HasLog(logs, x))
  {
    if logs != [] {
      var init, log := logs[..|logs| - 1], logs[|logs| - 1];
      AddFreshLaw(acc, init);
      HasLogSnoc(init, log);
      HasLogSnoc(AddFresh(acc, init), log);
      assert logs == init + [log];
      SameLogCongruent(AddFresh(acc, init), log);
    }
  }

  lemma SameLogCongruent(logs: seq<Log>, log: Log)
    ensures HasLog(logs, log) ==> forall x :: SameLog(log, x) ==> HasLog(logs, x)
  {
    if HasLog(logs, log) {
      var i :| 0 <= i < |logs| && SameLog(logs[i], log);
      forall x | SameLog(log, x) ensures HasLog(logs, x) { assert SameLog(logs[i], x); }
    }
  }

  ghost predicate InSome(answers: seq<seq<Log>>, log: Log) {
    exists q :: 0 <= q < |answers| && log in answers[q]
  }

  /** Collecting keeps each identity once, invents nothing and drops no identity. */
  lemma {:induction false} CollectLaw(answers: seq<seq<Log>>)
    ensures var out := Collect(answers);
            && UniqueLogs(out)
            && (forall x :: x in out ==> InSome(answers, x))
            && (forall x :: InSome(answers, x) ==> HasLog(out, x))
  {
    if answers != [] {
      var init, last := answers[..|answers| - 1], answers[|answers| - 1];
      CollectLaw(init);
      AddFreshLaw(Collect(init), last);
      var out := Collect(answers);
      forall x | x in out ensures InSome(answers, x) {
        if x in last {
          assert x in answers[|answers| - 1];
        } else {
          var q :| 0 <= q < |init| && x in init[q];
          assert x in answers[q];
        }
      }
      forall x | InSome(answers, x) ensures HasLog(out, x) {
        var q :| 0 <= q < |answers| && x in answers[q];
        if q < |init| {
          assert x in init[q];
        } else {
          var i :| 0 <= i < |last| && last[i] == x;
          assert SameLog(last[i], x);
        }
      }
    }
  }

  // ---------- collecting keeps the order ----------

  function Flat(answers: seq<seq<Log>>): seq<Log> {
    if answers == [] then [] else Flat(answers[..|answers| - 1]) + answers[|answers| - 1]
  }

  lemma {:induction false} AddFreshConcat(acc: seq<Log>, a: seq<Log>, b: seq<Log>)
    ensures AddFresh(AddFresh(acc, a), b) == AddFresh(acc, a + b)
    decreases |b|
  {
    if b == [] {
      assert a + b == a;
    } else {
      var init, log := b[..|b| - 1], b[|b| - 1];
      AddFreshConcat(acc, a, init);
      assert (a + b)[..|a + b| - 1] == a + init && (a + b)[|a + b| - 1] == log;
    }
  }

  lemma {:induction false} CollectIsAddFresh(answers: seq<seq<Log>>)
    ensures Collect(answers) == AddFresh([], Flat(answers))
  {
    if answers != [] {
      CollectIsAddFresh(answers[..|answers| - 1]);
      AddFreshConcat([], Flat(answers[..|answers| - 1]), answers[|answers| - 1]);
    }
  }

  /** No earlier log has this one's identity. */
  predicate IsFirstLog(logs: seq<Log>, i: nat)
    requires i < |logs|
  {
    forall j :: 0 <= j < i ==> !SameLog(logs[j], logs[i])
  }

  /** The positions at, in order, are those of the first logs, and out has these logs. */
  ghost predicate FirstLogs(out: seq<Log>, logs: seq<Log>, at: seq<nat>) {
    && |at| == |out|
    && (forall k :: 0 <= k < |at| ==> at[k] < |logs| && IsFirstLog(logs, at[k]) && out[k] == logs[at[k]])
    && (forall k, m :: 0 <= k < m < |at| ==> at[k] < at[m])
    && (forall i :: 0 <= i < |logs| && IsFirstLog(logs, i) ==> i in at)
  }

  lemma FirstLogsSnoc(out: seq<Log>, logs: seq<Log>, at: seq<nat>, log: Log)
    requires FirstLogs(out, logs, at)
    ensures var n, all := |logs|, logs + [log];
            if IsFirstLog(all, n) then FirstLogs(out + [log], all, at + [n]) else FirstLogs(out, all, at)
  {
    var n, all := |logs|, logs + [log];
    forall i | 0 <= i < n ensures IsFirstLog(all, i) <==> IsFirstLog(logs, i) {
      assert forall j :: 0 <= j <= i ==> all[j] == logs[j];
    }
    if IsFirstLog(all, n) {
      forall i | 0 <= i < |all| && IsFirstLog(all, i) ensures i in at + [n] {
        assert i < n ==> i in at;
        assert (at + [n])[|at|] == n;
      }
    }
  }

  lemma {:induction false} AddFreshTakesFirsts(logs: seq<Log>) returns (at: seq<nat>)
    ensures FirstLogs(AddFresh([], logs), logs, at)
  {
    if logs == [] {
      at := [];
    } else {
      var n := |logs| - 1;
      at := AddFreshTakesFirsts(logs[..n]);
      FirstLogsSnoc(AddFresh([], logs[..n]), logs[..n], at, logs[n]);
      AddFreshLaw([], logs[..n]);
      assert logs == logs[..n] + [logs[n]];
      assert IsFirstLog(logs, n) <==> !HasLog(logs[..n], logs[n]);
      if IsFirstLog(logs, n) { at := at + [n]; }
    }
  }

  /** The logs come in the order of the answers, each identity where it occurs first. */
  lemma CollectTakesFirsts(answers: seq<seq<Log>>) returns (at: seq<nat>)
    ensures FirstLogs(Collect(answers), Flat(answers), at)
  {
    CollectIsAddFresh(answers);
    at := AddFreshTakesFirsts(Flat(answers));
  }

  // ---------- the logs of a chunk are the configured logs of its blocks ----------

  /** eth_getLogs. */
  function Answer(chain: seq<Log>, q: FilterQuery): seq<Log> {
    if chain == [] then []
    else Answer(chain[..|chain| - 1], q) + (if QueryMatches(q, chain[|chain| - 1]) then [chain[|chain| - 1]] else [])
  }

  lemma {:induction false} AnswerLaw(chain: seq<Log>, q: FilterQuery, log: Log)
    ensures log in Answer(chain, q) <==> log in chain && QueryMatches(q, log)
  {
    if chain != [] {
      AnswerLaw(chain[..|chain| - 1], q, log);
      assert chain == chain[..|chain| - 1] + [chain[|chain| - 1]];
    }
  }

  function Answers(chain: seq<Log>, qs: seq<FilterQuery>): seq<seq<Log>> {
    seq(|qs|, q requires 0 <= q < |qs| => Answer(chain, qs[q]))
  }

  function ChunkLogs(chain: seq<Log>, src: QuerySource, from: nat, to: nat): seq<Log> {
    Collect(Answers(chain, Queries(src, from, to)))
  }

  /** Each configured log of the block range once, and nothing else. */
  lemma ChunkLogsExact(chain: seq<Log>, src: QuerySource, from: nat, to: nat)
    requires UniqueLogs(chain) && (src.specs == [] ==> src.allowEmptyFilter)
    ensures UniqueLogs(ChunkLogs(chain, src, from, to))
    ensures forall log :: log in ChunkLogs(chain, src, from, to)
                          <==> log in chain && from <= log.blockNumber <= to && SourceMatches(src, log)
  {
    var qs := Queries(src, from, to);
    var answers, logs := Answers(chain, qs), ChunkLogs(chain, src, from, to);
    CollectLaw(answers);
    forall log ensures log in logs <==> log in chain && from <= log.blockNumber <= to && SourceMatches(src, log) {
      InSomeAnswer(chain, src, from, to, log);
      if log in logs {
        assert InSome(answers, log);
      }
      if InSome(answers, log) {
        var i :| 0 <= i < |logs| && SameLog(logs[i], log);
        InSomeAnswer(chain, src, from, to, logs[i]);
        assert InSome(answers, logs[i]);
        OneOfIdentity(chain, logs[i], log);
      }
    }
  }

  lemma InSomeAnswer(chain: seq<Log>, src: QuerySource, from: nat, to: nat, log: Log)
    requires src.specs == [] ==> src.allowEmptyFilter
    ensures InSome(Answers(chain, Queries(src, from, to)), log)
            <==> log in chain && from <= log.blockNumber <= to && SourceMatches(src, log)
  {
    var qs := Queries(src, from, to);
    QueriesMeanSource(src, from, to, log);
    forall q | 0 <= q < |qs| ensures log in Answers(chain, qs)[q] <==> log in chain && QueryMatches(qs[q], log) {
      AnswerLaw(chain, qs[q], log);
    }
    if log in chain && SomeMatches(qs, log) {
      var q :| 0 <= q < |qs| && QueryMatches(qs[q], log);
      assert log in Answers(chain, qs)[q];
    }
  }

  lemma OneOfIdentity(chain: seq<Log>, a: Log, b: Log)
    requires UniqueLogs(chain) && a in chain && b in chain && SameLog(a, b)
    ensures a == b
  {
    var i :| 0 <= i < |chain| && chain[i] == a;
    var j :| 0 <= j < |chain| && chain[j] == b;
  }

  // ---------- handling a batch ----------

  /** The fixed parts of a deployment: what is scanned and what is done with it. */
  datatype Setup = Setup(
    src: QuerySource,
    batch: ScanBatch,
    pipeline: H.Pipeline,
    programs: H.Programs,
    planner: Option<ES.Planner>)

  datatype CommitFate = Confirmed | Unconfirmed | Refused

  /**
   What the world does to one processChunk call: cancellation polls, RPC answers, drawn IDs and the fate of the commit.
   */
  datatype Attempt = Attempt(
    buildPolls: nat -> bool,
    rpcOk: nat -> bool,
    sendersOk: bool,
    logPolls: nat -> bool,
    ids: seq<int>,
    now: int,
    savePolls: nat -> bool,
    fate: CommitFate)

  datatype IngestError = HandleFailed(cause: H.HandleError) | SaveFailed(reason: ES.SaveError) | CommitFailed

  /** HandleLogs: the tables after the call and the error it returns. */
  ghost function Handle(db: Database, s: Setup, logs: seq<Log>, a: Attempt): (Database, bool) {
    if logs == [] then (db, true)
    else if !H.NoFatal(s.pipeline, s.programs, s.batch, logs) || (exists i :: 0 <= i < |logs| && a.logPolls(i))
        then (db, false)
    else
      var events := H.AcceptedEvents(s.pipeline, s.programs, s.batch, logs);
      if events == [] then (db, true)
      else if a.fate.Refused? then (db, false)
      else
        var (db', r) := ES.Save(db, s.planner, events, a.ids, a.now, a.savePolls);
        (db', r.Pass? && a.fate.Confirmed?)
  }

  /** What an error of HandleLogs says about the call. */
  ghost predicate Explains(db: Database, s: Setup, logs: seq<Log>, a: Attempt, error: IngestError) {
    match error
    case HandleFailed(cause) =>
      exists i: nat :: H.StopsAt(s.pipeline, s.programs, s.batch, logs, a.logPolls, i, cause)
    case SaveFailed(reason) =>
      ES.Save(db, s.planner, H.AcceptedEvents(s.pipeline, s.programs, s.batch, logs), a.ids, a.now, a.savePolls).1
      == Fail(reason)
    case CommitFailed => !a.fate.Confirmed?
  }

  lemma StoppedBatchFails(db: Database, s: Setup, logs: seq<Log>, a: Attempt, cause: H.HandleError)
    requires exists i: nat :: H.StopsAt(s.pipeline, s.programs, s.batch, logs, a.logPolls, i, cause)
    ensures Handle(db, s, logs, a) == (db, false) && Explains(db, s, logs, a, HandleFailed(cause))
  {
    var i: nat :| H.StopsAt(s.pipeline, s.programs, s.batch, logs, a.logPolls, i, cause);
    assert a.logPolls(i) || H.Judge(s.pipeline, s.programs, s.batch, logs[i]).Fatal?;
  }

  method HandleLogs(s: Setup, logs: seq<Log>, a: Attempt, store: ES.Store) returns (r: Outcome<IngestError>)
    requires store.planner == s.planner && ES.UniqueKeys(store.events)
    modifies store
    ensures (store.Contents(), r.Pass?) == Handle(old(store.Contents()), s, logs, a)
    ensures r.Fail? ==> Explains(old(store.Contents()), s, logs, a, r.error)
  {
    if |logs| == 0 {
      return Pass;
    }
    var tally := H.Sift(s.pipeline, s.programs, s.batch, logs, a.logPolls);
    if tally.Err? {
      StoppedBatchFails(store.Contents(), s, logs, a, tally.error);
      return Fail(HandleFailed(tally.error));
    }
    if |tally.value.events| == 0 {
      return Pass;
    }
    if a.fate.Refused? {
      return Fail(CommitFailed);
    }
    var saved := store.SaveEvents(tally.value.events, a.ids, a.now, a.savePolls);
    if saved.Fail? {
      return Fail(SaveFailed(saved.error));
    }
    if a.fate.Unconfirmed? {
      return Fail(CommitFailed);
    }
    r := Pass;
  }

  /** processChunk: the tables after the call and the result it hands to the collector. */
  ghost function Process(db: Database, s: Setup, chain: seq<Log>, job: Chunk, a: Attempt): (Database, ChunkResult) {
    var queries := Queries(s.src, job.from, job.to);
    var logs := ChunkLogs(chain, s.src, job.from, job.to);
    if job.from > job.to || (s.src.specs == [] && !s.src.allowEmptyFilter)
       || (exists i :: 0 <= i < |s.src.specs| && a.buildPolls(i)) then (db, ChunkResult(job, 0, Some(QueriesFailed)))
    else if exists q :: 0 <= q < |queries| && !a.rpcOk(q) then (db, ChunkResult(job, 0, Some(FetchFailed)))
    else if !a.sendersOk then (db, ChunkResult(job, |logs|, Some(SendersFailed)))
    else
      var (db', ok) := Handle(db, s, logs, a);
      (db', ChunkResult(job, |logs|, if ok then None else Some(HandlerFailed)))
  }

  method FetchLogs(chain: seq<Log>, qs: seq<FilterQuery>, rpcOk: nat -> bool) returns (r: Option<seq<Log>>)
    ensures r.Some? <==> forall q :: 0 <= q < |qs| ==> rpcOk(q)
    ensures r.Some? ==> r.value == Collect(Answers(chain, qs))
  {
    var answers := seq(|qs|, q requires 0 <= q < |qs| => if rpcOk(q) then Some(Answer(chain, qs[q])) else None);
    assert forall q :: 0 <= q < |qs| ==> (answers[q].Some? <==> rpcOk(q));
    r := CollectLogs(answers);
    if r.Some? {
      assert seq(|answers|, q requires 0 <= q < |answers| => answers[q].value) == Answers(chain, qs);
    }
  }

  method ProcessChunk(s: Setup, chain: seq<Log>, job: Chunk, a: Attempt, store: ES.Store) returns (result: ChunkResult)
    requires store.planner == s.planner && ES.UniqueKeys(store.events)
    modifies store
    ensures (store.Contents(), result) == Process(old(store.Contents()), s, chain, job, a)
  {
    var queries := BuildQueries(s.src, job.from, job.to, a.buildPolls);
    if queries.Err? {
      return ChunkResult(job, 0, Some(QueriesFailed));
    }
    var collected := FetchLogs(chain, queries.value, a.rpcOk);
    if collected.None? {
      return ChunkResult(job, 0, Some(FetchFailed));
    }
    if !a.sendersOk {
      return ChunkResult(job, |collected.value|, Some(SendersFailed));
    }
    var handled := HandleLogs(s, collected.value, a, store);
    result := ChunkResult(job, |collected.value|, if handled.Pass? then None else Some(HandlerFailed));
  }
}
