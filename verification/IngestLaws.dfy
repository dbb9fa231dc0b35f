/** What one processChunk call means for the logs of its blocks. */
module IngestLaws {
  import opened Basics
  import opened Domain
  import opened EventKey
  import opened Source
  import opened Chunks
  import opened Tables
  import opened Ingest
  import H = Handler
  import ES = EventStore
  import Laws = EventStoreLaws
  import SF = Snowflake

  function Fate(s: Setup, log: Log): H.Verdict {
    H.Judge(s.pipeline, s.programs, s.batch, log)
  }

  /**
   What a batch that ends without an error owes the log: it can be handled, and if it is accepted, everything about it
   is stored.
   */
  ghost predicate Settled(db: Database, s: Setup, log: Log) {
    match Fate(s, log)
    case Fatal(_) => false
    case Accepted(event) => Laws.Stored(db, s.planner, event)
    case _ => true
  }

  /** Event rows are never altered or removed; outbox rows stay with their messages. */
  ghost predicate Grows(db: Database, db': Database) {
    Laws.Extends(db.events, db'.events) && KeepsMessages(db.outbox, db'.outbox)
  }

  /** Nothing that was stored is ever lost. */
  lemma StoredGrows(db: Database, db': Database, planner: Option<ES.Planner>, e: EventEnvelope)
    requires Grows(db, db') && Laws.Stored(db, planner, e)
    ensures Laws.Stored(db', planner, e)
  {
    Laws.ExtendsKeepsKey(db.events, db'.events, e.eventKey);
    if planner.Some? {
      forall k | 0 <= k < |planner.value(e).value| ensures Laws.RouteStored(db', e, planner.value(e).value[k]) {
        assert Laws.RouteStored(db, e, planner.value(e).value[k]);
        var id :| id in db.outbox && Laws.Delivers(db.outbox[id], e, planner.value(e).value[k]);
        assert Laws.Delivers(db'.outbox[id], e, planner.value(e).value[k]);
      }
    }
  }

  lemma SettledGrows(db: Database, db': Database, s: Setup, log: Log)
    requires Grows(db, db') && Settled(db, s, log)
    ensures Settled(db', s, log)
  {
    if Fate(s, log).Accepted? { StoredGrows(db, db', s.planner, Fate(s, log).event); }
  }

  // ---------- the events of a batch ----------

  function Events(s: Setup, logs: seq<Log>): seq<EventEnvelope> {
    H.AcceptedEvents(s.pipeline, s.programs, s.batch, logs)
  }

  lemma EventFromLog(s: Setup, logs: seq<Log>, e: EventEnvelope) returns (i: nat)
    requires e in Events(s, logs)
    ensures i < |logs| && Fate(s, logs[i]) == H.Accepted(e)
  {
    H.AcceptedEventsAreOfLogs(s.pipeline, s.programs, s.batch, logs, e);
    i :| 0 <= i < |logs| && H.Judge(s.pipeline, s.programs, s.batch, logs[i]) == H.Accepted(e);
  }

  lemma EventOfLog(s: Setup, logs: seq<Log>, i: nat)
    requires i < |logs| && Fate(s, logs[i]).Accepted?
    ensures Fate(s, logs[i]).event in Events(s, logs)
  {
    H.AcceptedEventsAreOfLogs(s.pipeline, s.programs, s.batch, logs, Fate(s, logs[i]).event);
    assert H.EventOf(s.pipeline, s.programs, s.batch, logs, Fate(s, logs[i]).event);
  }

  /** Accepted events carry their log's key. */
  lemma EventsWellKeyed(s: Setup, logs: seq<Log>)
    ensures Laws.AllWellKeyed(Events(s, logs))
  {
    var events := Events(s, logs);
    forall k | 0 <= k < |events| ensures Laws.WellKeyed(events[k]) {
      var i := EventFromLog(s, logs, events[k]);
      H.AcceptedMirrorsLog(s.pipeline, s.programs, s.batch, logs[i]);
    }
  }

  /** Two accepted logs with the same event key are the same log. */
  lemma KeyFixesLog(s: Setup, logs: seq<Log>, i: nat, j: nat)
    requires UniqueLogs(logs) && i < |logs| && j < |logs|
    requires Fate(s, logs[i]).Accepted? && Fate(s, logs[j]).Accepted?
    requires Fate(s, logs[i]).event.eventKey == Fate(s, logs[j]).event.eventKey
    ensures i == j
  {
    H.AcceptedMirrorsLog(s.pipeline, s.programs, s.batch, logs[i]);
    H.AcceptedMirrorsLog(s.pipeline, s.programs, s.batch, logs[j]);
    EventKeyInjective(s.batch.chainId, logs[i].txHash, logs[i].index, s.batch.chainId, logs[j].txHash, logs[j].index);
    assert SameLog(logs[i], logs[j]) && SameLog(logs[j], logs[i]);
  }

  /** Deduplication in memory drops no event of a batch of distinct logs. */
  lemma DedupeKeepsAll(s: Setup, logs: seq<Log>, e: EventEnvelope)
    requires UniqueLogs(logs) && e in Events(s, logs)
    ensures e in ES.Dedupe(Events(s, logs))
  {
    var events := Events(s, logs);
    var unique := ES.Dedupe(events);
    EventsWellKeyed(s, logs);
    Laws.DedupeLaw(events);
    assert ES.HasEventKey(unique, e.eventKey);
    var m :| 0 <= m < |unique| && unique[m].eventKey == e.eventKey;
    var i := EventFromLog(s, logs, e);
    var j := EventFromLog(s, logs, unique[m]);
    KeyFixesLog(s, logs, i, j);
  }

  // ---------- drawn IDs ----------

  /** IDs that nobody has drawn before and that do not repeat. */
  ghost predicate FreshDraw(drawn: set<int>, ids: seq<int>) {
    && (forall i :: 0 <= i < |ids| ==> ids[i] !in drawn)
    && (forall i, j :: 0 <= i < j < |ids| ==> ids[i] != ids[j])
  }

  ghost predicate KnownIds(db: Database, drawn: set<int>) {
    forall id :: id in db.events ==> id in drawn
  }

  lemma FreshDrawIsFresh(db: Database, drawn: set<int>, es: seq<EventEnvelope>, ids: seq<int>)
    requires KnownIds(db, drawn) && FreshDraw(drawn, ids) && |es| <= |ids|
    ensures Laws.FreshIds(db.events, es, ids)
  {
  }

  /** A generator and its history of calls. */
  datatype Drawer = Drawer(g: SF.Gen, calls: seq<seq<int>>)

  /** The IDs that the history issued, in order. */
  function Issued(d: Drawer): seq<int>
    requires SF.Polled(d.calls)
  {
    SF.Run(d.g, d.calls).1
  }

  ghost predicate Draws(d: Drawer) {
    SF.Valid(d.g) && SF.Polled(d.calls)
  }

  /** Positions of a history, each later than the one before. */
  predicate Rising(at: seq<nat>, n: nat) {
    (forall i :: 0 <= i < |at| ==> at[i] < n) && forall i, j :: 0 <= i < j < |at| ==> at[i] < at[j]
  }

  function At(ids: seq<int>, at: seq<nat>): (r: seq<int>)
    requires forall i :: 0 <= i < |at| ==> at[i] < |ids|
    ensures |r| == |at| && forall i :: 0 <= i < |at| ==> r[i] == ids[at[i]]
  {
    seq(|at|, i requires 0 <= i < |at| => ids[at[i]])
  }

  /** The ID was issued at a used position of this history, or anywhere in the history of another worker. */
  ghost predicate DrawnBefore(d: Drawer, used: set<nat>, others: set<Drawer>, id: int)
    requires Draws(d) && forall o :: o in others ==> Draws(o)
  {
    || (exists k :: k in used && k < |Issued(d)| && Issued(d)[k] == id)
    || (exists o :: o in others && Draws(o) && id in Issued(o))
  }

  /**
   However the draws of one generator are dealt out among chunk workers and chains, the IDs that one of them gets are
   distinct, and fresh after the IDs at any other positions and after those of any set of other workers.
   */
  lemma GeneratorDrawsAreFresh(d: Drawer, at: seq<nat>, used: set<nat>, others: set<Drawer>, drawn: set<int>)
    requires Draws(d) && SF.AllInRange(d.g, d.calls)
    requires forall o :: o in others ==> Draws(o) && o.g.workerId != d.g.workerId
    requires Rising(at, |Issued(d)|) && forall i :: 0 <= i < |at| ==> at[i] !in used
    requires forall id :: id in drawn ==> DrawnBefore(d, used, others, id)
    ensures FreshDraw(drawn, At(Issued(d), at))
  {
    SF.IssuedIdsIncrease(d.g, d.calls);
    var ids := Issued(d);
    forall i | 0 <= i < |at| ensures At(ids, at)[i] !in drawn {
      if DrawnBefore(d, used, others, ids[at[i]]) {
        if o :| o in others && Draws(o) && ids[at[i]] in Issued(o) {
          SF.WorkersNeverCollide(d.g, d.calls, o.g, o.calls);
        }
      }
    }
  }

  // ---------- one save, one batch, one chunk ----------

  lemma SaveStores(db: Database, s: Setup, logs: seq<Log>, a: Attempt, drawn: set<int>)
    requires Laws.DatabaseOk(db) && UniqueLogs(logs)
    requires s.planner.Some? || (KnownIds(db, drawn) && FreshDraw(drawn, a.ids))
    requires ES.Save(db, s.planner, Events(s, logs), a.ids, a.now, a.savePolls).1.Pass?
    ensures forall e :: e in Events(s, logs)
                        ==> Laws.Stored(ES.Save(db, s.planner, Events(s, logs), a.ids, a.now, a.savePolls).0,
                                        s.planner, e)
  {
    var events := Events(s, logs);
    var db' := ES.Save(db, s.planner, events, a.ids, a.now, a.savePolls).0;
    EventsWellKeyed(s, logs);
    match s.planner {
      case Some(planner) => Laws.PlannedSaveStores(db, planner, events, a.ids, a.now, a.savePolls);
      case None =>
        Laws.PlainSaveStoresIffFresh(db, events, a.ids, a.now, a.savePolls);
        FreshDrawIsFresh(db, drawn, ES.Dedupe(events), a.ids);
    }
    forall e | e in events ensures Laws.Stored(db', s.planner, e) {
      DedupeKeepsAll(s, logs, e);
    }
  }

  /** HandleLogs without an error has handled every log of its batch. */
  lemma HandleHandles(db: Database, s: Setup, logs: seq<Log>, a: Attempt, drawn: set<int>)
    requires Laws.DatabaseOk(db) && UniqueLogs(logs)
    requires s.planner.Some? || (KnownIds(db, drawn) && FreshDraw(drawn, a.ids))
    requires Handle(db, s, logs, a).1
    ensures forall i :: 0 <= i < |logs| ==> Settled(Handle(db, s, logs, a).0, s, logs[i])
  {
    if logs != [] {
      var db' := Handle(db, s, logs, a).0;
      if Events(s, logs) != [] { SaveStores(db, s, logs, a, drawn); }
      forall i | 0 <= i < |logs| ensures Settled(db', s, logs[i]) {
        assert !Fate(s, logs[i]).Fatal?;
        if Fate(s, logs[i]).Accepted? { EventOfLog(s, logs, i); }
      }
    }
  }

  /** Sound tables that have only grown, by these events under drawn IDs. */
  ghost predicate KeptBy(db: Database, db': Database, es: seq<EventEnvelope>, ids: seq<int>) {
    && Laws.DatabaseOk(db') && Grows(db, db')
    && forall id :: id in db'.events && id !in db.events ==> id in ids && db'.events[id].event in es
  }

  lemma SaveKept(db: Database, s: Setup, logs: seq<Log>, a: Attempt)
    requires Laws.DatabaseOk(db)
    ensures KeptBy(db, ES.Save(db, s.planner, Events(s, logs), a.ids, a.now, a.savePolls).0, Events(s, logs), a.ids)
  {
    var events := Events(s, logs);
    EventsWellKeyed(s, logs);
    Laws.SaveKeepsDatabase(db, s.planner, events, a.ids, a.now, a.savePolls);
    var saved := ES.Save(db, s.planner, events, a.ids, a.now, a.savePolls).0;
    forall id | id in saved.events && id !in db.events ensures id in a.ids && saved.events[id].event in events {
      Laws.NewEventsAreOfBatch(db, s.planner, events, a.ids, a.now, a.savePolls, id);
    }
  }

  lemma HandleKept(db: Database, s: Setup, logs: seq<Log>, a: Attempt)
    requires Laws.DatabaseOk(db)
    ensures KeptBy(db, Handle(db, s, logs, a).0, Events(s, logs), a.ids)
  {
    SaveKept(db, s, logs, a);
    assert KeptBy(db, db, Events(s, logs), a.ids);
  }

  ghost predicate SourceOk(s: Setup) {
    s.src.specs == [] ==> s.src.allowEmptyFilter
  }

  /** A chunk result without an error: the chunk is not backwards and each configured log of its blocks is handled. */
  lemma ProcessHandles(db: Database, s: Setup, chain: seq<Log>, job: Chunk, a: Attempt, drawn: set<int>)
    requires Laws.DatabaseOk(db) && UniqueLogs(chain) && SourceOk(s)
    requires s.planner.Some? || (KnownIds(db, drawn) && FreshDraw(drawn, a.ids))
    requires Process(db, s, chain, job, a).1.err.None?
    ensures job.from <= job.to
    ensures forall log :: log in chain && SourceMatches(s.src, log) && job.from <= log.blockNumber <= job.to
                          ==> Settled(Process(db, s, chain, job, a).0, s, log)
  {
    var logs := ChunkLogs(chain, s.src, job.from, job.to);
    ChunkLogsExact(chain, s.src, job.from, job.to);
    HandleHandles(db, s, logs, a, drawn);
    forall log | log in chain && SourceMatches(s.src, log) && job.from <= log.blockNumber <= job.to
      ensures Settled(Process(db, s, chain, job, a).0, s, log)
    {
      assert log in logs;
    }
  }

  /** The event comes from a configured log of the chain at or below the block. */
  ghost predicate FromChain(e: EventEnvelope, s: Setup, chain: seq<Log>, top: int) {
    exists i :: 0 <= i < |chain| && SourceMatches(s.src, chain[i]) && chain[i].blockNumber <= top
                && Fate(s, chain[i]) == H.Accepted(e)
  }

  lemma ChunkEventFromChain(s: Setup, chain: seq<Log>, from: nat, to: nat, e: EventEnvelope)
    requires UniqueLogs(chain) && SourceOk(s) && e in Events(s, ChunkLogs(chain, s.src, from, to))
    ensures FromChain(e, s, chain, to)
  {
    var logs := ChunkLogs(chain, s.src, from, to);
    var i := EventFromLog(s, logs, e);
    ChunkLogsExact(chain, s.src, from, to);
    assert logs[i] in logs;
    var j :| 0 <= j < |chain| && chain[j] == logs[i];
  }

  /** Whatever becomes of a chunk, the tables stay sound, only grow, and grow only by events of the chunk's blocks. */
  lemma ProcessKeeps(db: Database, s: Setup, chain: seq<Log>, job: Chunk, a: Attempt)
    requires Laws.DatabaseOk(db) && UniqueLogs(chain) && SourceOk(s)
    ensures var (db', r) := Process(db, s, chain, job, a);
            && r.job == job
            && Laws.DatabaseOk(db') && Grows(db, db')
            && forall id :: id in db'.events && id !in db.events
                            ==> id in a.ids && FromChain(db'.events[id].event, s, chain, job.to)
  {
    var logs := ChunkLogs(chain, s.src, job.from, job.to);
    HandleKept(db, s, logs, a);
    var db' := Process(db, s, chain, job, a).0;
    assert db' == db || db' == Handle(db, s, logs, a).0;
    forall id | id in db'.events && id !in db.events
      ensures id in a.ids && FromChain(db'.events[id].event, s, chain, job.to)
    {
      ChunkEventFromChain(s, chain, job.from, job.to, db'.events[id].event);
    }
  }
}
