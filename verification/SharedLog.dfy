/** A whole run in which another monitor owns the row of a shared log and our cursor passes it all the same. */
module SharedLog {
  import opened Basics
  import opened Domain
  import opened EventKey
  import opened Source
  import opened Chunks
  import opened CursorStore
  import opened Tables
  import opened Ingest
  import opened IngestLaws
  import opened Scan
  import opened Refinement
  import opened ForeignSaves
  import H = Handler
  import ES = EventStore
  import Laws = EventStoreLaws

  /** A chain of one log, which our handler accepts as e, and scanner settings that take one block a round. */
  ghost predicate OneLog(world: World, log: Log, e: EventEnvelope) {
    && world.chain == [log] && world.setup.planner.None? && world.setup.src.specs == []
       && world.setup.src.allowEmptyFilter
    && world.cfg.startBlock == log.blockNumber && 1 <= log.blockNumber < TWO_64 - 1
    && world.cfg.confirmations == 1 && world.cfg.chunkSize == 1 && world.cfg.maxInflightChunks == 1
    && world.cfg.chainId != 0 && world.cfg.chainName != "" && world.cfg.network != "" && world.setup.src.name != ""
    && Fate(world.setup, log) == H.Accepted(e) && ES.Storable(1, e)
  }

  /** The same event as another monitor stores it. */
  function Theirs(e: EventEnvelope): EventEnvelope {
    e.(monitor := e.monitor + "'")
  }

  lemma TheirsDiffers(world: World, log: Log, e: EventEnvelope)
    requires OneLog(world, log, e)
    ensures Theirs(e) != e && Theirs(e).eventKey == e.eventKey && ES.Storable(1, Theirs(e)) && Laws.WellKeyed(Theirs(e))
    ensures e.blockNumber == log.blockNumber
  {
    H.AcceptedMirrorsLog(world.setup.pipeline, world.setup.programs, world.setup.batch, log);
    assert |Theirs(e).monitor| == |e.monitor| + 1;
  }

  lemma OneLogIsSound(world: World, log: Log, e: EventEnvelope)
    requires OneLog(world, log, e)
    ensures Sound(world)
  {
  }

  /** Nothing fails: no cancellation, every call answered, the commit confirmed. */
  function Smooth(ids: seq<int>): Attempt {
    Attempt(Nothing(), (q: nat) => true, true, Nothing(), ids, 0, Nothing(), Confirmed)
  }

  lemma OneLogBatch(world: World, log: Log, e: EventEnvelope)
    requires OneLog(world, log, e)
    ensures ChunkLogs(world.chain, world.setup.src, log.blockNumber, log.blockNumber) == [log]
    ensures Events(world.setup, [log]) == [e]
  {
    var b, logs := log.blockNumber, ChunkLogs(world.chain, world.setup.src, log.blockNumber, log.blockNumber);
    ChunkLogsExact(world.chain, world.setup.src, b, b);
    assert log in logs;
    forall i | 0 <= i < |logs| ensures logs[i] == log { assert logs[i] in logs; }
    assert |logs| > 1 ==> SameLog(logs[0], logs[1]);
    assert [log][..0] == []
           && H.AcceptedEvents(world.setup.pipeline, world.setup.programs, world.setup.batch, [log][..0]) == [];
  }

  /** Saving the event changes nothing when its key already has a row. */
  lemma SaveSkips(world: World, log: Log, e: EventEnvelope, db: Database)
    requires OneLog(world, log, e) && ES.HasKey(db.events, e.eventKey)
    ensures ES.Save(db, None, [e], [2], 0, Nothing()) == (db, Pass)
  {
    Laws.SaveOne(db, e, 2, 0, Nothing());
    var row := ChainEvent(2, e);
    var id :| id in db.events && db.events[id].event.eventKey == e.eventKey;
    assert ES.Clash(db.events[id], row);
    assert ES.InsertEvent(db.events, row) == db.events;
  }

  lemma HandleOne(db: Database, s: Setup, log: Log, e: EventEnvelope, a: Attempt)
    requires Fate(s, log) == H.Accepted(e) && Events(s, [log]) == [e] && !a.logPolls(0) && a.fate.Confirmed?
    requires ES.Save(db, s.planner, [e], a.ids, a.now, a.savePolls) == (db, Pass)
    ensures Handle(db, s, [log], a) == (db, true)
  {
  }

  lemma BatchPasses(world: World, log: Log, e: EventEnvelope, db: Database)
    requires OneLog(world, log, e) && ES.HasKey(db.events, e.eventKey)
    ensures Handle(db, world.setup, [log], Smooth([2])) == (db, true)
  {
    OneLogBatch(world, log, e);
    SaveSkips(world, log, e, db);
    HandleOne(db, world.setup, log, e, Smooth([2]));
  }

  /** The chunk of the log succeeds and changes nothing when the key already has a row. */
  lemma ChunkPasses(world: World, log: Log, e: EventEnvelope, db: Database)
    requires OneLog(world, log, e) && ES.HasKey(db.events, e.eventKey)
    ensures var job := Chunk(0, log.blockNumber, log.blockNumber);
            Process(db, world.setup, world.chain, job, Smooth([2])) == (db, ChunkResult(job, 1, None))
  {
    OneLogBatch(world, log, e);
    BatchPasses(world, log, e, db);
  }

  function TheirSave(e: EventEnvelope): Step {
    ForeignSave(Laws.Batch([Theirs(e)], [1], 0, Nothing()), None)
  }

  /** The tables after the other monitor's save. */
  function TheirTables(e: EventEnvelope): Database {
    Database(map[1 := ChainEvent(1, Theirs(e))], map[])
  }

  lemma TheirSaveStores(world: World, log: Log, e: EventEnvelope)
    requires OneLog(world, log, e)
    ensures Apply(world, Start(1), TheirSave(e)) == Start(1).(db := TheirTables(e), drawn := {1})
    ensures Honest(world, Start(1), TheirSave(e))
    ensures ES.HasKey(TheirTables(e).events, e.eventKey) && Taken(TheirTables(e), e)
  {
    TheirsDiffers(world, log, e);
    var row := ChainEvent(1, Theirs(e));
    Laws.SaveOne(Start(1).db, Theirs(e), 1, 0, Nothing());
    assert map[][1 := row] == map[1 := row];
    assert TheirTables(e).events[1].event == Theirs(e);
    assert (set id | id in [1]) == {1};
  }

  function OurSteps(b: U64): seq<Step>
    requires b + 1 < TWO_64
  {
    [Observe(0, b + 1)] + ([PlanRound(0)]
                           + ([ProcessOne(0, 0, Smooth([2]))] + ([EndRound(0)] + ([SavePending(0)] + []))))
  }

  lemma LeadsFirst(world: World, s: State, step: Step, rest: seq<Step>, t: State)
    requires Enabled(s, step) && Honest(world, s, step) && Leads(world, Apply(world, s, step), rest, t)
    ensures Leads(world, s, [step] + rest, t)
  {
    assert ([step] + rest)[1..] == rest;
  }

  /** The scanner between planning and the end of the round. */
  function Round(b: U64, results: map<U64, ChunkResult>): Scanner
    requires b + 1 < TWO_64
  {
    Scanning(b + 1, b, b, [Chunk(0, b, b)], results)
  }

  lemma PlansOneChunk(world: World, log: Log, e: EventEnvelope)
    requires OneLog(world, log, e)
    ensures Planned(world, None, log.blockNumber + 1) == Round(log.blockNumber, map[])
  {
    var b := log.blockNumber;
    assert NextToBlock(b, b, 1) == b;
    assert PlanChunks(world.cfg, b, b) == [Chunk(0, b, b)];
  }

  lemma CommitsOneBlock(world: World, log: Log, e: EventEnvelope, result: ChunkResult)
    requires OneLog(world, log, e) && result == ChunkResult(Chunk(0, log.blockNumber, log.blockNumber), 1, None)
    ensures var b := log.blockNumber;
            Committed(world, Round(b, map[b := result])) == Saving(CursorFor(world, b + 1, b, b + 1))
    ensures Savable(CursorFor(world, log.blockNumber + 1, log.blockNumber, log.blockNumber + 1))
  {
    var b := log.blockNumber;
    var chunks, results := [Chunk(0, b, b)], map[b := result];
    assert Succeeded(chunks[0], results);
    assert ErrorFree(chunks, results) == 1;
    assert CommitPoint(b, chunks, results) == b + 1;
  }

  lemma ScansOverIt(world: World, log: Log, e: EventEnvelope, s: State) returns (t: State)
    requires OneLog(world, log, e) && s == Start(1).(db := TheirTables(e), drawn := {1})
    requires ES.HasKey(s.db.events, e.eventKey)
    ensures Leads(world, s, OurSteps(log.blockNumber), t)
    ensures t.db == s.db
            && t.cursor == Some(CursorFor(world, log.blockNumber + 1, log.blockNumber, log.blockNumber + 1))
  {
    var b := log.blockNumber;
    var s1 := Apply(world, s, Observe(0, b + 1));
    var s2 := Apply(world, s1, PlanRound(0));
    PlansOneChunk(world, log, e);
    assert s2.scanners[0] == Round(b, map[]);
    ChunkPasses(world, log, e, s2.db);
    var s3 := Apply(world, s2, ProcessOne(0, 0, Smooth([2])));
    var result := ChunkResult(Chunk(0, b, b), 1, None);
    assert map[][b := result] == map[b := result];
    assert s3.scanners[0] == Round(b, map[b := result]);
    CommitsOneBlock(world, log, e, result);
    var s4 := Apply(world, s3, EndRound(0));
    t := Apply(world, s4, SavePending(0));
    OurStepsLead(world, s, s1, s2, s3, s4, t, b);
  }

  lemma OurStepsLead(world: World, s: State, s1: State, s2: State, s3: State, s4: State, t: State, b: U64)
    requires b + 1 < TWO_64 && Enabled(s, Observe(0, b + 1)) && s1 == Apply(world, s, Observe(0, b + 1))
    requires Enabled(s1, PlanRound(0)) && s2 == Apply(world, s1, PlanRound(0))
    requires Enabled(s2, ProcessOne(0, 0, Smooth([2]))) && s3 == Apply(world, s2, ProcessOne(0, 0, Smooth([2])))
             && s2.drawn == {1}
    requires Enabled(s3, EndRound(0)) && s4 == Apply(world, s3, EndRound(0))
    requires Enabled(s4, SavePending(0)) && t == Apply(world, s4, SavePending(0))
    ensures Leads(world, s, OurSteps(b), t)
  {
    LeadsFirst(world, s4, SavePending(0), [], t);
    LeadsFirst(world, s3, EndRound(0), [SavePending(0)] + [], t);
    LeadsFirst(world, s2, ProcessOne(0, 0, Smooth([2])), [EndRound(0)] + ([SavePending(0)] + []), t);
    LeadsFirst(world, s1, PlanRound(0), [ProcessOne(0, 0, Smooth([2]))] + ([EndRound(0)] + ([SavePending(0)] + [])), t);
    LeadsFirst(world, s, Observe(0, b + 1), [PlanRound(0)]
               + ([ProcessOne(0, 0, Smooth([2]))] + ([EndRound(0)] + ([SavePending(0)] + []))), t);
  }

  /**
   The run: the other monitor saves first, our scanner passes the block, our event never gets a row, and the tables do
   not refine the sequential scan.
   */
  lemma SharedLogIsTheirs(world: World, log: Log, e: EventEnvelope)
    requires OneLog(world, log, e)
    ensures Sound(world)
    ensures exists t :: Leads(world, Start(1), [TheirSave(e)] + OurSteps(log.blockNumber), t)
                        && t.cursor.Some? && t.cursor.value.nextBlock == log.blockNumber + 1
                        && !HasRow(t.db, e) && !Refines(world, t.db, log.blockNumber, log.blockNumber + 1)
  {
    OneLogIsSound(world, log, e);
    OneLogIsAccepted(world, log, e);
    var t := TheirsThenOurs(world, log, e);
    PassedWithoutOurs(world, log.blockNumber, e, [TheirSave(e)] + OurSteps(log.blockNumber), t);
  }

  lemma TheirsThenOurs(world: World, log: Log, e: EventEnvelope) returns (t: State)
    requires OneLog(world, log, e)
    ensures Leads(world, Start(1), [TheirSave(e)] + OurSteps(log.blockNumber), t)
    ensures Taken(t.db, e) && t.cursor.Some? && t.cursor.value.nextBlock == log.blockNumber + 1
  {
    TheirSaveStores(world, log, e);
    var s := Apply(world, Start(1), TheirSave(e));
    t := ScansOverIt(world, log, e, s);
    LeadsFirst(world, Start(1), TheirSave(e), OurSteps(log.blockNumber), t);
  }

  lemma PassedWithoutOurs(world: World, b: nat, e: EventEnvelope, steps: seq<Step>, t: State)
    requires Sound(world) && Leads(world, Start(1), steps, t) && world.cfg.startBlock == b
    requires AcceptedIn(world, e, b, b + 1)
    requires Taken(t.db, e) && t.cursor.Some? && t.cursor.value.nextBlock == b + 1
    ensures !HasRow(t.db, e) && !Refines(world, t.db, b, b + 1)
  {
    TakenRunFails(world, 1, steps, t, e);
  }

  lemma OneLogIsAccepted(world: World, log: Log, e: EventEnvelope)
    requires OneLog(world, log, e)
    ensures AcceptedIn(world, e, log.blockNumber, log.blockNumber + 1)
  {
    assert SourceMatches(world.setup.src, world.chain[0]) && world.chain[0] == log;
  }

  // ---------- such a world ----------

  function SampleLog(): Log {
    var hash: Hash := seq(32, _ => 1);
    var address: Address := seq(20, _ => 1);
    Log(address, [hash], "", 5, hash, hash, 0, 0, false)
  }

  function SampleWorld(): World {
    var decoder := H.Decoder("d", [H.DecoderKey(SampleLog().address, SampleLog().topics[0], true)], 0);
    World(ScannerConfig(1, "c", "n", 5, 1, 1, 1, 1),
          Setup(QuerySource("m", [], 100, true),
                ScanBatch(1, "c", "n", "m"),
                H.Pipeline(H.HandlerConfig(false, false), H.Index(map[], map[SampleLog().topics[0] := decoder]), []),
                H.Programs((d: H.Decoder, b: ScanBatch, l: Log) => Ok(Some(DecodedEvent("e", Text("{}", true)))),
                           (f: H.Filter, x: EventEnvelope) => Ok(H.FilterResult(true, ""))),
                None),
          [SampleLog()])
  }

  function SampleEvent(): EventEnvelope {
    var log := SampleLog();
    EventEnvelope(BuildEventKey(1, log.txHash, 0), 1, "c", "n", "m", "e", 5, log.blockHash, log.txHash, 0, 0,
                  log.address,
                  log.topics[0], Text("{}", true), RawLogOf(log), false)
  }

  lemma SampleIsAccepted()
    ensures Fate(SampleWorld().setup, SampleLog()) == H.Accepted(SampleEvent())
  {
    var log, setup := SampleLog(), SampleWorld().setup;
    assert H.FindDecoder(setup.pipeline.index, log).Some?;
    assert H.BuildEvent(setup.batch, log, Some(DecodedEvent("e", Text("{}", true)))) == Some(SampleEvent());
  }

  /** The conditions of the run are met by a chain with one log. */
  lemma SharedLogExists()
    ensures OneLog(SampleWorld(), SampleLog(), SampleEvent())
  {
    SampleIsAccepted();
    assert SampleLog().txHash[0] == 1 && SampleLog().address[0] == 1;
  }
}
