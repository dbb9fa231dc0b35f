/**
 The whole pipeline as a step system: any number of scanner processes share one
 cursor key and one database, chunks are processed in any order and may fail
 anywhere, a process may crash or be cancelled between any two steps, and
 dispatchers work on the outbox meanwhile.  A database transaction and a cursor
 upsert are one step each.
 */
module Scan {
  import opened Basics
  import opened Domain
  import opened EventKey
  import opened Source
  import opened Chunks
  import opened CursorStore
  import opened Tables
  import opened Ingest
  import opened IngestLaws
  import ES = EventStore
  import Laws = EventStoreLaws

  /** What does not change during a run: the scanner configuration, the handler and the final chain. */
  datatype World = World(cfg: ScannerConfig, setup: Setup, chain: seq<Log>)

  datatype Scanner =
    | Idle
    | Observed(latest: U64)
    | Scanning(latest: U64, next: U64, safe: U64, chunks: seq<Chunk>, results: map<U64, ChunkResult>)
    | Saving(pending: Cursor)

  datatype State = State(
    db: Database,
    cursor: Option<Cursor>,
    scanners: seq<Scanner>,
    topSafe: int,
    drawn: set<int>,
    finished: set<Log>)

  datatype Step =
    | Observe(w: nat, height: U64)
    | PlanRound(w: nat)
    | ProcessOne(w: nat, i: nat, attempt: Attempt)
    | EndRound(w: nat)
    | SavePending(w: nat)
    | Crash(w: nat)
    | ForeignSave(batch: Laws.Batch, planner: Option<ES.Planner>)
    | Dispatch(outbox: map<int, OutboxRow>)

  function Start(scannerCount: nat): State {
    State(Database(map[], map[]), None, seq(scannerCount, _ => Idle), -1, {}, {})
  }

  function CursorKey(world: World): string {
    Decimal(world.cfg.chainId) + ":" + world.cfg.network + ":" + world.setup.src.name
  }

  /** Two scanners share a cursor row exactly when chain IDs agree and so do the texts network:name. */
  lemma CursorKeysAgreeIff(a: World, b: World)
    ensures CursorKey(a) == CursorKey(b)
            <==> a.cfg.chainId == b.cfg.chainId
                 && a.cfg.network + ":" + a.setup.src.name == b.cfg.network + ":" + b.setup.src.name
  {
    var x, y := a.cfg.network + ":" + a.setup.src.name, b.cfg.network + ":" + b.setup.src.name;
    assert CursorKey(a) == Decimal(a.cfg.chainId) + ":" + x && CursorKey(b) == Decimal(b.cfg.chainId) + ":" + y;
    if CursorKey(a) == CursorKey(b) {
      SplitAtFirstColon(Decimal(a.cfg.chainId), x, Decimal(b.cfg.chainId), y);
      DecimalInjective(a.cfg.chainId, b.cfg.chainId);
    }
  }

  /** Without colons in their networks that is when chain, network and source agree. */
  lemma CursorKeyInjective(a: World, b: World)
    requires NoColon(a.cfg.network) && NoColon(b.cfg.network)
    ensures CursorKey(a) == CursorKey(b)
            <==> (a.cfg.chainId, a.cfg.network, a.setup.src.name) == (b.cfg.chainId, b.cfg.network, b.setup.src.name)
  {
    CursorKeysAgreeIff(a, b);
    if CursorKey(a) == CursorKey(b) {
      SplitAtFirstColon(a.cfg.network, a.setup.src.name, b.cfg.network, b.setup.src.name);
    }
  }

  /** With a colon in a network different sources can share a row. */
  lemma CursorKeysCollide(a: World, b: World)
    requires a.cfg.chainId == b.cfg.chainId
    requires a.cfg.network == "x" && a.setup.src.name == "y:z" && b.cfg.network == "x:y" && b.setup.src.name == "z"
    ensures CursorKey(a) == CursorKey(b)
  {
    CursorKeysAgreeIff(a, b);
    assert "x" + ":" + "y:z" == "x:y:z" && "x:y" + ":" + "z" == "x:y:z";
  }

  function CursorFor(world: World, next: U64, safe: U64, latest: U64): Cursor {
    Cursor(CursorKey(world), world.cfg.chainId, world.cfg.chainName, world.cfg.network, world.setup.src.name, next,
           safe, latest)
  }

  function NextBlock(world: World, cursor: Option<Cursor>): U64 {
    if cursor.Some? then cursor.value.nextBlock else world.cfg.startBlock
  }

  /** scanOnce up to runChunks: read the cursor and plan, or have nothing to do. */
  function Planned(world: World, cursor: Option<Cursor>, latest: U64): Scanner {
    match SafeBlock(latest, world.cfg.confirmations)
    case None => Idle
    case Some(safe) =>
      var next := NextBlock(world, cursor);
      if next > safe then Idle
      else
        var chunks := PlanChunks(world.cfg, next, safe);
        if chunks == [] then Idle else Scanning(latest, next, safe, chunks, map[])
  }

  /** scanOnce after runChunks: save when the commit point moved. */
  function Committed(world: World, sc: Scanner): Scanner
    requires sc.Scanning?
  {
    var advanced := CommitPoint(sc.next, sc.chunks, sc.results);
    if advanced > sc.next then Saving(CursorFor(world, advanced, sc.safe, sc.latest)) else Idle
  }

  predicate Enabled(s: State, step: Step) {
    match step
    case Observe(w, _) => w < |s.scanners| && s.scanners[w].Idle?
    case PlanRound(w) => w < |s.scanners| && s.scanners[w].Observed?
    case ProcessOne(w, i, _) => w < |s.scanners| && s.scanners[w].Scanning? && i < |s.scanners[w].chunks|
    case EndRound(w) => w < |s.scanners| && s.scanners[w].Scanning?
    case SavePending(w) => w < |s.scanners| && s.scanners[w].Saving?
    case Crash(w) => w < |s.scanners|
    case ForeignSave(_, _) => true
    case Dispatch(_) => true
  }

  /** The logs that processChunk passed to a HandleLogs call that returned nil. */
  function FinishedBy(world: World, result: ChunkResult): set<Log> {
    if result.err.Some? then {}
    else set log | log in ChunkLogs(world.chain, world.setup.src, result.job.from, result.job.to)
  }

  /** finished collects the logs of every HandleLogs call that returned nil. */
  ghost function Apply(world: World, s: State, step: Step): State
    requires Enabled(s, step)
  {
    match step
    case Observe(w, height) =>
      var safe := SafeBlock(height, world.cfg.confirmations);
      s.(scanners := s.scanners[w := Observed(height)],
         topSafe := if safe.Some? then Max(s.topSafe, safe.value) else s.topSafe)
    case PlanRound(w) =>
      s.(scanners := s.scanners[w := Planned(world, s.cursor, s.scanners[w].latest)])
    case ProcessOne(w, i, attempt) =>
      var sc := s.scanners[w];
      var (db, result) := Process(s.db, world.setup, world.chain, sc.chunks[i], attempt);
      s.(db := db, scanners := s.scanners[w := sc.(results := sc.results[sc.chunks[i].from := result])],
         drawn := s.drawn + (set id | id in attempt.ids),
         finished := s.finished + FinishedBy(world, result))
    case EndRound(w) =>
      s.(scanners := s.scanners[w := Committed(world, s.scanners[w])])
    case SavePending(w) =>
      var c := s.scanners[w].pending;
      s.(cursor := if Savable(c) then Some(Merge(s.cursor, c)) else s.cursor, scanners := s.scanners[w := Idle])
    case Crash(w) =>
      s.(scanners := s.scanners[w := Idle])
    case ForeignSave(b, planner) =>
      s.(db := ES.Save(s.db, planner, b.es, b.ids, b.now, b.done).0, drawn := s.drawn + (set id | id in b.ids))
    case Dispatch(outbox) =>
      s.(db := Database(s.db.events, outbox))
  }

  /**
   The environment's side: foreign events are keyed like our own, without a planner drawn IDs are fresh, and
   dispatchers change nothing but the delivery of outbox rows.
   */
  ghost predicate Honest(world: World, s: State, step: Step) {
    match step
    case ProcessOne(_, _, attempt) => world.setup.planner.Some? || FreshDraw(s.drawn, attempt.ids)
    case ForeignSave(b, _) => Laws.AllWellKeyed(b.es)
    case Dispatch(outbox) => OnlyDispatches(s.db.outbox, outbox)
    case _ => true
  }

  /** The steps lead from s to t, each of them possible and honest. */
  ghost predicate Leads(world: World, s: State, steps: seq<Step>, t: State)
    decreases |steps|
  {
    if steps == [] then s == t
    else
      && Enabled(s, steps[0]) && Honest(world, s, steps[0])
      && Leads(world, Apply(world, s, steps[0]), steps[1..], t)
  }

  /**
   Logs have one identity each, confirmations are at least one as the defaults make them, the source was constructed.
   */
  ghost predicate Sound(world: World) {
    UniqueLogs(world.chain) && world.cfg.confirmations >= 1 && SourceOk(world.setup)
  }

  // ---------- no loss: the invariant ----------

  /** What the run has achieved: the tables, and the logs of finished batches. */
  datatype Progress = Progress(db: Database, finished: set<Log>)

  function Here(s: State): Progress {
    Progress(s.db, s.finished)
  }

  ghost predicate Advances(p: Progress, p': Progress) {
    Grows(p.db, p'.db) && p.finished <= p'.finished
  }

  /**
   The log went through a HandleLogs call that returned nil, and if it was accepted, everything about it is stored.
   */
  ghost predicate Handled(world: World, p: Progress, log: Log) {
    log in p.finished && Settled(p.db, world.setup, log)
  }

  ghost predicate HandledBetween(world: World, p: Progress, from: nat, to: nat) {
    forall i | 0 <= i < |world.chain| && SourceMatches(world.setup.src, world.chain[i])
        && from <= world.chain[i].blockNumber < to
      :: Handled(world, p, world.chain[i])
  }

  ghost predicate HandledUpTo(world: World, p: Progress, next: nat) {
    world.cfg.startBlock <= next && HandledBetween(world, p, world.cfg.startBlock, next)
  }

  ghost predicate ResultsGood(world: World, p: Progress, results: map<U64, ChunkResult>) {
    forall f :: f in results && results[f].err.None? ==>
                  && results[f].job.from <= results[f].job.to
                  && HandledBetween(world, p, results[f].job.from, results[f].job.to + 1)
  }

  ghost predicate ScannerOk(world: World, p: Progress, sc: Scanner) {
    match sc
    case Scanning(latest, next, safe, chunks, results) =>
      && SafeBlock(latest, world.cfg.confirmations) == Some(safe) && next <= safe
      && HandledUpTo(world, p, next)
      && Linked(chunks, next, safe, world.cfg.chunkSize)
      && PoolResults(chunks, results)
      && ResultsGood(world, p, results)
    case Saving(c) => HandledUpTo(world, p, c.nextBlock)
    case _ => true
  }

  ghost predicate Inv(world: World, s: State) {
    && Laws.DatabaseOk(s.db)
    && KnownIds(s.db, s.drawn)
    && (s.cursor.Some? ==> HandledUpTo(world, Here(s), s.cursor.value.nextBlock))
    && forall w :: 0 <= w < |s.scanners| ==> ScannerOk(world, Here(s), s.scanners[w])
  }

  lemma BetweenGrows(world: World, p: Progress, p': Progress, from: nat, to: nat)
    requires Advances(p, p') && HandledBetween(world, p, from, to)
    ensures HandledBetween(world, p', from, to)
  {
    forall i | 0 <= i < |world.chain| && SourceMatches(world.setup.src, world.chain[i])
        && from <= world.chain[i].blockNumber < to
      ensures Handled(world, p', world.chain[i])
    {
      SettledGrows(p.db, p'.db, world.setup, world.chain[i]);
    }
  }

  lemma ScannerOkGrows(world: World, p: Progress, p': Progress, sc: Scanner)
    requires Advances(p, p') && ScannerOk(world, p, sc)
    ensures ScannerOk(world, p', sc)
  {
    match sc
    case Scanning(_, next, _, _, results) =>
      BetweenGrows(world, p, p', world.cfg.startBlock, next);
      forall f | f in results && results[f].err.None?
        ensures HandledBetween(world, p', results[f].job.from, results[f].job.to + 1)
      {
        BetweenGrows(world, p, p', results[f].job.from, results[f].job.to + 1);
      }
    case Saving(c) => BetweenGrows(world, p, p', world.cfg.startBlock, c.nextBlock);
    case _ =>
  }

  /**
   Blocks below next are handled, and so is every block of every good chunk, hence every block below the commit point.
   */
  lemma CommitIsHandled(world: World, p: Progress, sc: Scanner)
    requires Sound(world) && sc.Scanning? && ScannerOk(world, p, sc)
    ensures HandledUpTo(world, p, CommitPoint(sc.next, sc.chunks, sc.results))
  {
    var point, k := CommitPoint(sc.next, sc.chunks, sc.results), ErrorFree(sc.chunks, sc.results);
    CommitPassesGoodBlocks(sc.chunks, sc.results, sc.next, sc.safe, world.cfg.chunkSize);
    forall i | 0 <= i < |world.chain| && SourceMatches(world.setup.src, world.chain[i])
               && world.cfg.startBlock <= world.chain[i].blockNumber < point
      ensures Handled(world, p, world.chain[i])
    {
      var b := world.chain[i].blockNumber;
      if b >= sc.next {
        assert Covered(sc.chunks, k, b);
        var c :| 0 <= c < k && sc.chunks[c].from <= b <= sc.chunks[c].to;
        assert Succeeded(sc.chunks[c], sc.results);
        EntryEnd(sc.chunks, sc.results, sc.next, sc.safe, world.cfg.chunkSize, c);
        assert sc.results[sc.chunks[c].from].job.from == sc.chunks[c].from;
      }
    }
  }

  lemma PlannedOk(world: World, p: Progress, cursor: Option<Cursor>, latest: U64)
    requires cursor.Some? ==> HandledUpTo(world, p, cursor.value.nextBlock)
    ensures ScannerOk(world, p, Planned(world, cursor, latest))
  {
    var safe := SafeBlock(latest, world.cfg.confirmations);
    if safe.Some? {
      PlanLinked(NextBlock(world, cursor), safe.value, world.cfg.chunkSize, Max(world.cfg.maxInflightChunks, 0), 0);
    }
  }

  lemma ProcessOk(world: World, s: State, w: nat, i: nat, attempt: Attempt)
    requires Sound(world) && Inv(world, s)
    requires Enabled(s, ProcessOne(w, i, attempt)) && Honest(world, s, ProcessOne(w, i, attempt))
    ensures Inv(world, Apply(world, s, ProcessOne(w, i, attempt)))
  {
    var sc := s.scanners[w];
    var job := sc.chunks[i];
    var t := Apply(world, s, ProcessOne(w, i, attempt));
    var result := Process(s.db, world.setup, world.chain, job, attempt).1;
    ProcessKeeps(s.db, world.setup, world.chain, job, attempt);
    if s.cursor.Some? { BetweenGrows(world, Here(s), Here(t), world.cfg.startBlock, s.cursor.value.nextBlock); }
    forall v | 0 <= v < |t.scanners| ensures ScannerOk(world, Here(t), t.scanners[v]) {
      ScannerOkGrows(world, Here(s), Here(t), s.scanners[v]);
      if v == w { ResultAdded(world, s, w, i, attempt); }
    }
  }

  /** A chunk result without an error covers the configured logs of its blocks. */
  lemma ChunkHandled(world: World, s: State, job: Chunk, attempt: Attempt, p: Progress)
    requires Sound(world) && Laws.DatabaseOk(s.db) && KnownIds(s.db, s.drawn)
    requires world.setup.planner.Some? || FreshDraw(s.drawn, attempt.ids)
    requires var (db, result) := Process(s.db, world.setup, world.chain, job, attempt);
             result.job == job && result.err.None? && p.db == db && FinishedBy(world, result) <= p.finished
    ensures job.from <= job.to && HandledBetween(world, p, job.from, job.to + 1)
  {
    ProcessHandles(s.db, world.setup, world.chain, job, attempt, s.drawn);
    ChunkLogsExact(world.chain, world.setup.src, job.from, job.to);
    forall i | 0 <= i < |world.chain| && SourceMatches(world.setup.src, world.chain[i])
               && job.from <= world.chain[i].blockNumber < job.to + 1
      ensures Handled(world, p, world.chain[i])
    {
      assert world.chain[i] in ChunkLogs(world.chain, world.setup.src, job.from, job.to);
    }
  }

  /** A scanner may note the result of one of its chunks. */
  lemma ResultNoted(world: World, p: Progress, sc: Scanner, result: ChunkResult)
    requires sc.Scanning? && ScannerOk(world, p, sc) && result.job in sc.chunks
    requires result.err.None? ==>
             result.job.from <= result.job.to && HandledBetween(world, p, result.job.from, result.job.to + 1)
    ensures ScannerOk(world, p, sc.(results := sc.results[result.job.from := result]))
  {
    var results := sc.results[result.job.from := result];
    assert PoolResults(sc.chunks, results);
    assert ResultsGood(world, p, results);
  }

  lemma ResultAdded(world: World, s: State, w: nat, i: nat, attempt: Attempt)
    requires Sound(world) && Inv(world, s)
    requires Enabled(s, ProcessOne(w, i, attempt)) && Honest(world, s, ProcessOne(w, i, attempt))
    requires ScannerOk(world, Here(Apply(world, s, ProcessOne(w, i, attempt))), s.scanners[w])
    ensures var t := Apply(world, s, ProcessOne(w, i, attempt)); ScannerOk(world, Here(t), t.scanners[w])
  {
    var job := s.scanners[w].chunks[i];
    var p := Here(Apply(world, s, ProcessOne(w, i, attempt)));
    var result := Process(s.db, world.setup, world.chain, job, attempt).1;
    assert result.job == job;
    if result.err.None? { ChunkHandled(world, s, job, attempt, p); }
    ResultNoted(world, p, s.scanners[w], result);
  }

  /** Tables may grow beside the scanners. */
  lemma GrowthKeepsInv(world: World, s: State, t: State)
    requires Inv(world, s) && Advances(Here(s), Here(t)) && t.cursor == s.cursor && t.scanners == s.scanners
    requires Laws.DatabaseOk(t.db) && KnownIds(t.db, t.drawn)
    ensures Inv(world, t)
  {
    if s.cursor.Some? { BetweenGrows(world, Here(s), Here(t), world.cfg.startBlock, s.cursor.value.nextBlock); }
    forall v | 0 <= v < |t.scanners| ensures ScannerOk(world, Here(t), t.scanners[v]) {
      ScannerOkGrows(world, Here(s), Here(t), s.scanners[v]);
    }
  }

  lemma ForeignOk(world: World, s: State, b: Laws.Batch, planner: Option<ES.Planner>)
    requires Inv(world, s) && Laws.AllWellKeyed(b.es)
    ensures Inv(world, Apply(world, s, ForeignSave(b, planner)))
  {
    var t := Apply(world, s, ForeignSave(b, planner));
    Laws.SaveKeepsDatabase(s.db, planner, b.es, b.ids, b.now, b.done);
    forall id | id in t.db.events ensures id in t.drawn {
      if id !in s.db.events { Laws.NewEventsAreOfBatch(s.db, planner, b.es, b.ids, b.now, b.done, id); }
    }
    GrowthKeepsInv(world, s, t);
  }

  lemma DispatchOk(world: World, s: State, outbox: map<int, OutboxRow>)
    requires Inv(world, s) && OnlyDispatches(s.db.outbox, outbox)
    ensures Inv(world, Apply(world, s, Dispatch(outbox)))
  {
    Laws.DispatchKeepsOutbox(s.db.outbox, outbox, s.db.events);
    GrowthKeepsInv(world, s, Apply(world, s, Dispatch(outbox)));
  }

  lemma StepKeepsInv(world: World, s: State, step: Step)
    requires Sound(world) && Inv(world, s) && Enabled(s, step) && Honest(world, s, step)
    ensures Inv(world, Apply(world, s, step))
  {
    match step
    case PlanRound(w) => PlannedOk(world, Here(s), s.cursor, s.scanners[w].latest);
    case ProcessOne(w, i, attempt) => ProcessOk(world, s, w, i, attempt);
    case EndRound(w) => CommitIsHandled(world, Here(s), s.scanners[w]);
    case SavePending(w) =>
      assert ScannerOk(world, Here(s), s.scanners[w]);
    case ForeignSave(b, planner) => ForeignOk(world, s, b, planner);
    case Dispatch(outbox) => DispatchOk(world, s, outbox);
    case _ =>
  }

  lemma {:induction false} LeadsKeepsInv(world: World, s: State, steps: seq<Step>, t: State)
    requires Sound(world) && Inv(world, s) && Leads(world, s, steps, t)
    ensures Inv(world, t)
    decreases |steps|
  {
    if steps != [] {
      StepKeepsInv(world, s, steps[0]);
      LeadsKeepsInv(world, Apply(world, s, steps[0]), steps[1..], t);
    }
  }

  lemma StartInv(world: World, scannerCount: nat)
    ensures Inv(world, Start(scannerCount))
  {
  }

  /** Some step of the run is a processChunk call that ended without an error and had the log in its batch. */
  ghost predicate HandledInRun(world: World, s: State, steps: seq<Step>, t: State, log: Log)
    requires Leads(world, s, steps, t)
    decreases |steps|
  {
    steps != [] && (HandledBy(world, s, steps[0], log)
                    || HandledInRun(world, Apply(world, s, steps[0]), steps[1..], t, log))
  }

  ghost predicate HandledBy(world: World, s: State, step: Step, log: Log)
    requires Enabled(s, step)
  {
    && step.ProcessOne?
    && var job := s.scanners[step.w].chunks[step.i];
    && Process(s.db, world.setup, world.chain, job, step.attempt).1.err.None?
    && log in ChunkLogs(world.chain, world.setup.src, job.from, job.to)
  }

  lemma {:induction false} FinishedIsHandledInRun(world: World, s: State, steps: seq<Step>, t: State, log: Log)
    requires Leads(world, s, steps, t) && log in t.finished
    ensures log in s.finished || HandledInRun(world, s, steps, t, log)
    decreases |steps|
  {
    if steps != [] {
      FinishedIsHandledInRun(world, Apply(world, s, steps[0]), steps[1..], t, log);
    }
  }

  /**
   No loss: in every reachable state every configured log below the stored cursor
   was in a batch that HandleLogs finished without an error, and if it was
   accepted, its key has a row and each of its routes an outbox row.
   */
  lemma NoLoss(world: World, scannerCount: nat, steps: seq<Step>, t: State, log: Log)
    requires Sound(world) && Leads(world, Start(scannerCount), steps, t)
    requires log in world.chain && SourceMatches(world.setup.src, log)
    requires t.cursor.Some? && world.cfg.startBlock <= log.blockNumber < t.cursor.value.nextBlock
    ensures HandledInRun(world, Start(scannerCount), steps, t, log)
    ensures Settled(t.db, world.setup, log)
  {
    StartInv(world, scannerCount);
    LeadsKeepsInv(world, Start(scannerCount), steps, t);
    var i :| 0 <= i < |world.chain| && world.chain[i] == log;
    assert Handled(world, Here(t), world.chain[i]);
    FinishedIsHandledInRun(world, Start(scannerCount), steps, t, log);
  }

  /** Every cursor, stored or about to be, has the shape next <= safe + 1, latest = safe + confirmations. */
  ghost predicate Shaped(world: World, s: State) {
    && (s.cursor.Some? ==> Aligned(s.cursor.value, world.cfg.confirmations))
    && forall w :: 0 <= w < |s.scanners| && s.scanners[w].Saving? ==>
       Aligned(s.scanners[w].pending, world.cfg.confirmations)
  }

  ghost predicate NotBehind(a: Option<Cursor>, b: Option<Cursor>) {
    a.Some? ==> && b.Some? && a.value.nextBlock <= b.value.nextBlock
                && a.value.safeBlock <= b.value.safeBlock && a.value.latestBlock <= b.value.latestBlock
  }

  lemma StepKeepsShape(world: World, s: State, step: Step)
    requires Sound(world) && Inv(world, s) && Enabled(s, step) && Shaped(world, s)
    ensures Shaped(world, Apply(world, s, step)) && NotBehind(s.cursor, Apply(world, s, step).cursor)
  {
    if step.EndRound? {
      var sc := s.scanners[step.w];
      assert ScannerOk(world, Here(s), sc);
      CommitPassesGoodBlocks(sc.chunks, sc.results, sc.next, sc.safe, world.cfg.chunkSize);
    }
  }

  /** Over every run, scanners with stale reads included, the stored cursor never moves back and keeps its shape. */
  lemma {:induction false} CursorNeverMovesBack(world: World, s: State, steps: seq<Step>, t: State)
    requires Sound(world) && Inv(world, s) && Shaped(world, s) && Leads(world, s, steps, t)
    ensures Shaped(world, t) && NotBehind(s.cursor, t.cursor)
    decreases |steps|
  {
    if steps != [] {
      StepKeepsInv(world, s, steps[0]);
      StepKeepsShape(world, s, steps[0]);
      CursorNeverMovesBack(world, Apply(world, s, steps[0]), steps[1..], t);
    }
  }
}
