/** What the rows say: every stored event and every message body is a configured log of the chain, column by column. */
module Messages {
  import opened Basics
  import opened Domain
  import opened Source
  import opened Chunks
  import opened Tables
  import opened Ingest
  import opened IngestLaws
  import opened SaveLaws
  import opened Scan
  import opened Refinement
  import H = Handler
  import ES = EventStore
  import Laws = EventStoreLaws

  /** The row is for a route of the event and its message says what the event says. */
  predicate Announces(r: OutboxRow, planner: ES.Planner, e: EventEnvelope) {
    && planner(e).Ok? && (exists k :: 0 <= k < |planner(e).value| && Laws.Delivers(r, e, planner(e).value[k]))
    && Tells(r.payload, e) && r.payload.eventId == r.eventId
  }

  /** The event is what the handler makes of a configured log of the chain. */
  ghost predicate OfChain(world: World, e: EventEnvelope, i: nat) {
    i < |world.chain| && SourceMatches(world.setup.src, world.chain[i])
    && Fate(world.setup, world.chain[i]) == H.Accepted(e)
  }

  ghost predicate AnnouncesChain(world: World, r: OutboxRow) {
    world.setup.planner.Some?
    && exists e, i: nat :: OfChain(world, e, i) && Announces(r, world.setup.planner.value, e)
  }

  // ---------- one save ----------

  lemma {:induction false} NoticeIsOfEvent(planner: ES.Planner, es: seq<EventEnvelope>, k: nat)
    requires k < |Notices(planner, es)|
    ensures var n := Notices(planner, es)[k];
            n.e in es && planner(n.e).Ok? && n.route in planner(n.e).value
  {
    var init := es[..|es| - 1];
    if k < |Notices(planner, init)| {
      NoticeIsOfEvent(planner, init, k);
      assert Notices(planner, es)[k] == Notices(planner, init)[k];
    } else {
      var e := es[|es| - 1];
      assert Notices(planner, es)[k] == NoticesOf(e, planner(e).value)[k - |Notices(planner, init)|];
    }
  }

  lemma RowAnnounces(r: OutboxRow, id: int, events: map<int, ChainEvent>, n: Notice, now: int, planner: ES.Planner)
    requires RowOf(r, id, events, n, now) && planner(n.e).Ok? && n.route in planner(n.e).value
    ensures Announces(r, planner, n.e)
  {
    var k :| 0 <= k < |planner(n.e).value| && planner(n.e).value[k] == n.route;
    assert Laws.Delivers(r, n.e, planner(n.e).value[k]);
  }

  /** A new outbox row announces one of the saved events. */
  lemma NewRowAnnounces(db: Database, planner: ES.Planner, es: seq<EventEnvelope>, ids: seq<int>, now: int,
                        done: nat -> bool, id: int)
    requires Laws.DatabaseOk(db) && Laws.AllWellKeyed(es)
    requires id in ES.Save(db, Some(planner), es, ids, now, done).0.outbox && id !in db.outbox
    ensures exists e :: e in es && Announces(ES.Save(db, Some(planner), es, ids, now, done).0.outbox[id], planner, e)
  {
    Laws.SaveKeepsDatabase(db, Some(planner), es, ids, now, done);
    PlannedSaveAdds(db, planner, es, ids, now, done);
    Laws.DedupeLaw(es);
    var db', unique := ES.Save(db, Some(planner), es, ids, now, done).0, ES.Dedupe(es);
    var ns, rest := Notices(planner, unique), ids[|unique|..];
    var k: nat :| k < |ns| && IsNews(db.outbox, ns, k) && rest[k] == id;
    NoticeIsOfEvent(planner, unique, k);
    RowAnnounces(db'.outbox[id], id, db'.events, ns[k], now, planner);
    assert ns[k].e in es;
  }

  // ---------- one chunk ----------

  lemma EventIsOfChain(world: World, job: Chunk, e: EventEnvelope)
    requires Sound(world)
    requires e in Events(world.setup, ChunkLogs(world.chain, world.setup.src, job.from, job.to))
    ensures exists i: nat :: OfChain(world, e, i)
  {
    ChunkEventFromChain(world.setup, world.chain, job.from, job.to, e);
    var i :| 0 <= i < |world.chain| && SourceMatches(world.setup.src, world.chain[i])
             && world.chain[i].blockNumber <= job.to && Fate(world.setup, world.chain[i]) == H.Accepted(e);
    assert OfChain(world, e, i);
  }

  /** A row that a chunk adds to the outbox announces a configured log. */
  lemma ProcessAnnounces(world: World, db: Database, job: Chunk, a: Attempt, id: int)
    requires Sound(world) && Laws.DatabaseOk(db)
    requires id in Process(db, world.setup, world.chain, job, a).0.outbox && id !in db.outbox
    ensures AnnouncesChain(world, Process(db, world.setup, world.chain, job, a).0.outbox[id])
  {
    var s, logs := world.setup, ChunkLogs(world.chain, world.setup.src, job.from, job.to);
    EventsWellKeyed(s, logs);
    assert s.planner.Some?;
    NewRowAnnounces(db, s.planner.value, Events(s, logs), a.ids, a.now, a.savePolls, id);
    var e :| e in Events(s, logs)
             && Announces(Process(db, s, world.chain, job, a).0.outbox[id], s.planner.value, e);
    EventIsOfChain(world, job, e);
    var i: nat :| OfChain(world, e, i);
  }

  // ---------- every run ----------

  ghost predicate AllAnnounce(world: World, s: State) {
    forall id :: id in s.db.outbox ==> AnnouncesChain(world, s.db.outbox[id])
  }

  lemma SameMessageAnnounces(world: World, a: OutboxRow, b: OutboxRow)
    requires SameMessage(a, b) && AnnouncesChain(world, a)
    ensures AnnouncesChain(world, b)
  {
    var planner := world.setup.planner.value;
    var e, i: nat :| OfChain(world, e, i) && Announces(a, planner, e);
    var k :| 0 <= k < |planner(e).value| && Laws.Delivers(a, e, planner(e).value[k]);
    assert Laws.Delivers(b, e, planner(e).value[k]);
    assert Announces(b, planner, e);
  }

  lemma StepAnnounces(world: World, s: State, step: Step)
    requires Sound(world) && Inv(world, s) && AllAnnounce(world, s)
    requires Enabled(s, step) && Honest(world, s, step) && !step.ForeignSave?
    ensures AllAnnounce(world, Apply(world, s, step))
  {
    var t := Apply(world, s, step);
    match step
    case ProcessOne(w, i, attempt) =>
      var job := s.scanners[w].chunks[i];
      ProcessKeeps(s.db, world.setup, world.chain, job, attempt);
      forall id | id in t.db.outbox ensures AnnouncesChain(world, t.db.outbox[id]) {
        if id in s.db.outbox {
          SameMessageAnnounces(world, s.db.outbox[id], t.db.outbox[id]);
        } else {
          ProcessAnnounces(world, s.db, job, attempt, id);
        }
      }
    case Dispatch(outbox) =>
      forall id | id in t.db.outbox ensures AnnouncesChain(world, t.db.outbox[id]) {
        SameMessageAnnounces(world, s.db.outbox[id], t.db.outbox[id]);
      }
    case _ =>
  }

  lemma {:induction false} RunAnnounces(world: World, s: State, steps: seq<Step>, t: State)
    requires Sound(world) && Inv(world, s) && AllAnnounce(world, s) && Leads(world, s, steps, t) && Own(steps)
    ensures AllAnnounce(world, t)
    decreases |steps|
  {
    if steps != [] {
      StepAnnounces(world, s, steps[0]);
      StepKeepsInv(world, s, steps[0]);
      RunAnnounces(world, Apply(world, s, steps[0]), steps[1..], t);
    }
  }

  /** The event has every field of the log, and its name and payload are what a decoder answered. */
  ghost predicate SaysLog(world: World, e: EventEnvelope, log: Log) {
    && log in world.chain && SourceMatches(world.setup.src, log)
    && Fate(world.setup, log) == H.Accepted(e) && H.MirrorsLog(e, world.setup.batch, log)
  }

  /**
   In every reachable state each event row is a configured log, column by column, and each outbox row is for a route of
   such an event and carries its columns in the message.
   */
  lemma StoredMirrorsChain(world: World, scannerCount: nat, steps: seq<Step>, t: State)
    requires Sound(world) && Leads(world, Start(scannerCount), steps, t) && Own(steps)
    ensures forall id :: id in t.db.events ==> exists log :: SaysLog(world, t.db.events[id].event, log)
    ensures forall id :: id in t.db.outbox ==>
              && world.setup.planner.Some?
              && exists e, log :: SaysLog(world, e, log) && Announces(t.db.outbox[id], world.setup.planner.value, e)
  {
    StartInv(world, scannerCount);
    RunIsTraced(world, Start(scannerCount), steps, t);
    RunAnnounces(world, Start(scannerCount), steps, t);
    forall id | id in t.db.events ensures exists log :: SaysLog(world, t.db.events[id].event, log) {
      TracedSaysLog(world, t, id);
    }
    forall id | id in t.db.outbox
      ensures world.setup.planner.Some?
              && exists e, log :: SaysLog(world, e, log) && Announces(t.db.outbox[id], world.setup.planner.value, e)
    {
      AnnouncedSaysLog(world, t.db.outbox[id]);
    }
  }

  lemma TracedSaysLog(world: World, s: State, id: int)
    requires Traced(world, s) && id in s.db.events
    ensures exists log :: SaysLog(world, s.db.events[id].event, log)
  {
    var e := s.db.events[id].event;
    assert FromChain(e, world.setup, world.chain, s.topSafe);
    var i :| 0 <= i < |world.chain| && SourceMatches(world.setup.src, world.chain[i])
             && world.chain[i].blockNumber <= s.topSafe && Fate(world.setup, world.chain[i]) == H.Accepted(e);
    H.AcceptedMirrorsLog(world.setup.pipeline, world.setup.programs, world.setup.batch, world.chain[i]);
    assert SaysLog(world, e, world.chain[i]);
  }

  lemma AnnouncedSaysLog(world: World, r: OutboxRow)
    requires AnnouncesChain(world, r)
    ensures exists e, log :: SaysLog(world, e, log) && Announces(r, world.setup.planner.value, e)
  {
    var e, i: nat :| OfChain(world, e, i) && Announces(r, world.setup.planner.value, e);
    H.AcceptedMirrorsLog(world.setup.pipeline, world.setup.programs, world.setup.batch, world.chain[i]);
    assert SaysLog(world, e, world.chain[i]);
  }
}
