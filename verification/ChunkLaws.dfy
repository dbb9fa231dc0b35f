/** Exactly when a batch and a chunk come out without an error (HandleLogs and processChunk). */
module ChunkLaws {
  import opened Basics
  import opened Domain
  import opened Source
  import opened Chunks
  import opened Tables
  import opened Ingest
  import opened IngestLaws
  import opened SaveLaws
  import H = Handler
  import ES = EventStore
  import Laws = EventStoreLaws

  // ---------- one batch ----------

  /** No log stops the batch, and nothing is cancelled before any of them. */
  predicate AllJudged(s: Setup, logs: seq<Log>, a: Attempt) {
    forall i :: 0 <= i < |logs| ==> !Fate(s, logs[i]).Fatal? && !a.logPolls(i)
  }

  predicate NoneAccepted(s: Setup, logs: seq<Log>) {
    forall i :: 0 <= i < |logs| ==> !Fate(s, logs[i]).Accepted?
  }

  /** The batch is empty, or every log can be judged and either none is accepted or the accepted ones can be saved. */
  ghost predicate BatchPasses(db: Database, s: Setup, logs: seq<Log>, a: Attempt) {
    || logs == []
    || (&& AllJudged(s, logs, a)
        && (NoneAccepted(s, logs)
            || (a.fate.Confirmed? && CanSave(db, s.planner, Events(s, logs), a.ids, a.savePolls))))
  }

  lemma NoneAcceptedIff(s: Setup, logs: seq<Log>)
    ensures NoneAccepted(s, logs) <==> Events(s, logs) == []
  {
    if Events(s, logs) != [] {
      var i := EventFromLog(s, logs, Events(s, logs)[0]);
    }
    forall i | 0 <= i < |logs| && Fate(s, logs[i]).Accepted? ensures Events(s, logs) != [] {
      EventOfLog(s, logs, i);
    }
  }

  /** A batch passes exactly then. */
  lemma HandlePassesIff(db: Database, s: Setup, logs: seq<Log>, a: Attempt)
    requires Laws.DatabaseOk(db)
    ensures Handle(db, s, logs, a).1 <==> BatchPasses(db, s, logs, a)
  {
    NoneAcceptedIff(s, logs);
    EventsWellKeyed(s, logs);
    SavePassesIff(db, s.planner, Events(s, logs), a.ids, a.now, a.savePolls);
  }

  /** Nothing accepted, nothing changed; and a batch that fails changes nothing unless its commit was not confirmed. */
  lemma HandleLeavesTables(db: Database, s: Setup, logs: seq<Log>, a: Attempt)
    requires Laws.DatabaseOk(db)
    requires NoneAccepted(s, logs) || (!Handle(db, s, logs, a).1 && !a.fate.Unconfirmed?)
    ensures Handle(db, s, logs, a).0 == db
  {
    NoneAcceptedIff(s, logs);
    EventsWellKeyed(s, logs);
    Laws.SaveKeepsDatabase(db, s.planner, Events(s, logs), a.ids, a.now, a.savePolls);
  }

  // ---------- one chunk ----------

  /** The range and the source are legal, and building the queries is not cancelled. */
  predicate QueriesBuilt(s: Setup, job: Chunk, a: Attempt) {
    && job.from <= job.to && (s.src.specs == [] ==> s.src.allowEmptyFilter)
    && forall i :: 0 <= i < |s.src.specs| ==> !a.buildPolls(i)
  }

  /** The node answers every query. */
  predicate AllAnswered(s: Setup, job: Chunk, a: Attempt) {
    forall q :: 0 <= q < |Queries(s.src, job.from, job.to)| ==> a.rpcOk(q)
  }

  /** Nothing fails before the handler is called. */
  predicate Reaches(s: Setup, job: Chunk, a: Attempt) {
    QueriesBuilt(s, job, a) && AllAnswered(s, job, a) && a.sendersOk
  }

  /** A chunk passes exactly when nothing outside fails and its batch passes; and each error has its own cause. */
  lemma ProcessPassesIff(db: Database, s: Setup, chain: seq<Log>, job: Chunk, a: Attempt)
    requires Laws.DatabaseOk(db)
    ensures var r, logs := Process(db, s, chain, job, a).1, ChunkLogs(chain, s.src, job.from, job.to);
            && (r.err.None? <==> Reaches(s, job, a) && BatchPasses(db, s, logs, a))
            && (r.err == Some(QueriesFailed) <==> !QueriesBuilt(s, job, a))
            && (r.err == Some(FetchFailed) <==> QueriesBuilt(s, job, a) && !AllAnswered(s, job, a))
            && (r.err == Some(SendersFailed)
                <==> QueriesBuilt(s, job, a) && AllAnswered(s, job, a) && !a.sendersOk)
            && (r.err == Some(HandlerFailed) <==> Reaches(s, job, a) && !BatchPasses(db, s, logs, a))
            && r.job == job
            && r.logCount == (if QueriesBuilt(s, job, a) && AllAnswered(s, job, a) then |logs| else 0)
  {
    HandlePassesIff(db, s, ChunkLogs(chain, s.src, job.from, job.to), a);
  }

  /** A chunk whose blocks hold no configured log passes and changes nothing. */
  lemma QuietChunkPasses(db: Database, s: Setup, chain: seq<Log>, job: Chunk, a: Attempt)
    requires Laws.DatabaseOk(db) && UniqueLogs(chain) && Reaches(s, job, a)
    requires forall log :: log in chain && job.from <= log.blockNumber <= job.to ==> !SourceMatches(s.src, log)
    ensures Process(db, s, chain, job, a) == (db, ChunkResult(job, 0, None))
  {
    var logs := ChunkLogs(chain, s.src, job.from, job.to);
    ChunkLogsExact(chain, s.src, job.from, job.to);
    SomeMember(logs);
    ProcessPassesIff(db, s, chain, job, a);
  }

  // ---------- the same chunk again ----------

  lemma SettledIsStored(db: Database, s: Setup, logs: seq<Log>)
    requires forall i :: 0 <= i < |logs| ==> Settled(db, s, logs[i])
    ensures Laws.AllStored(db, s.planner, ES.Dedupe(Events(s, logs)))
  {
    EventsWellKeyed(s, logs);
    Laws.DedupeLaw(Events(s, logs));
    var unique := ES.Dedupe(Events(s, logs));
    forall e | e in unique ensures Laws.Stored(db, s.planner, e) {
      var k :| 0 <= k < |unique| && unique[k] == e;
      var i := EventFromLog(s, logs, unique[k]);
    }
  }

  lemma HandledBatchPasses(db: Database, s: Setup, logs: seq<Log>, a: Attempt)
    requires Laws.DatabaseOk(db) && a.fate.Confirmed?
    requires forall i :: 0 <= i < |logs| ==> Settled(db, s, logs[i]) && !a.logPolls(i)
    requires Supplied(s.planner, Events(s, logs), a.ids, a.savePolls)
    ensures Handle(db, s, logs, a) == (db, true)
  {
    SettledIsStored(db, s, logs);
    EventsWellKeyed(s, logs);
    SavingAgainChangesNothing(db, s.planner, Events(s, logs), a.ids, a.now, a.savePolls);
  }

  /**
   After a crash between the save and the cursor: a chunk whose logs are settled passes again and changes nothing,
   whatever IDs are drawn this time.
   */
  lemma ReplayPasses(db: Database, s: Setup, chain: seq<Log>, job: Chunk, a: Attempt)
    requires Laws.DatabaseOk(db) && UniqueLogs(chain) && Reaches(s, job, a) && a.fate.Confirmed?
    requires forall log :: log in chain && job.from <= log.blockNumber <= job.to && SourceMatches(s.src, log)
                           ==> Settled(db, s, log)
    requires var logs := ChunkLogs(chain, s.src, job.from, job.to);
             && Supplied(s.planner, Events(s, logs), a.ids, a.savePolls)
             && forall i :: 0 <= i < |logs| ==> !a.logPolls(i)
    ensures var logs := ChunkLogs(chain, s.src, job.from, job.to);
            Process(db, s, chain, job, a) == (db, ChunkResult(job, |logs|, None))
  {
    var logs := ChunkLogs(chain, s.src, job.from, job.to);
    ChunkLogsExact(chain, s.src, job.from, job.to);
    forall i | 0 <= i < |logs| ensures Settled(db, s, logs[i]) { assert logs[i] in logs; }
    HandledBatchPasses(db, s, logs, a);
  }
}
