/** One call of scanOnce (chains/evm/scanner.go), and how many calls a lone scanner needs to catch up. */
module ScanRound {
  import opened Basics
  import opened Chunks
  import opened Domain
  import opened Tables
  import opened Ingest
  import opened Scan
  import H = Handler
  import ES = EventStore
  import CS = CursorStore

  /**
   What the world does to one call: the height the node answers (none is a failed call), how the database answers the
   cursor's read and write, and which chunks come out of the pool, in the order of their transactions.
   */
  datatype RoundInput = RoundInput(height: Option<U64>, read: CS.Reply, write: CS.Reply, order: seq<(nat, Attempt)>)

  /** What is stored: the event and outbox tables, and the cursor table. */
  datatype Held = Held(db: Database, rows: map<string, CS.Cursor>)

  // ---------- the pool ----------

  /** The database and the result map after these chunks; an index beyond the chunks is no job. */
  ghost function RunAll(db: Database, world: World, chunks: seq<Chunk>, order: seq<(nat, Attempt)>)
    : (Database, map<U64, ChunkResult>)
  {
    if order == [] then (db, map[])
    else
      var before, (i, attempt) := RunAll(db, world, chunks, order[..|order| - 1]), order[|order| - 1];
      if i >= |chunks| then before
      else
        var (db', result) := Process(before.0, world.setup, world.chain, chunks[i], attempt);
        (db', before.1[chunks[i].from := result])
  }

  lemma SaveKeepsUnique(db: Database, s: Setup, logs: seq<Log>, a: Attempt)
    requires ES.UniqueKeys(db.events)
    ensures ES.UniqueKeys(Handle(db, s, logs, a).0.events)
  {
    var events := H.AcceptedEvents(s.pipeline, s.programs, s.batch, logs);
    var built := ES.BuildRows(ES.Dedupe(events), a.ids, a.savePolls);
    if built.Ok? { ES.InsertEventsKeepUnique(db.events, built.value); }
  }

  lemma ProcessKeepsUnique(db: Database, world: World, job: Chunk, a: Attempt)
    requires ES.UniqueKeys(db.events)
    ensures ES.UniqueKeys(Process(db, world.setup, world.chain, job, a).0.events)
  {
    SaveKeepsUnique(db, world.setup, ChunkLogs(world.chain, world.setup.src, job.from, job.to), a);
  }

  /** runChunks, as far as its transactions go: one processChunk after the other. */
  method RunChunks(world: World, chunks: seq<Chunk>, order: seq<(nat, Attempt)>, events: ES.Store)
    returns (results: map<U64, ChunkResult>)
    requires events.planner == world.setup.planner && ES.UniqueKeys(events.events)
    modifies events
    ensures (events.Contents(), results) == RunAll(old(events.Contents()), world, chunks, order)
    ensures ES.UniqueKeys(events.events)
  {
    results := map[];
    var k := 0;
    while k < |order|
      invariant 0 <= k <= |order| && ES.UniqueKeys(events.events)
      invariant (events.Contents(), results) == RunAll(old(events.Contents()), world, chunks, order[..k])
    {
      assert order[..k + 1][..k] == order[..k];
      var (i, attempt) := order[k];
      if i < |chunks| {
        ProcessKeepsUnique(events.Contents(), world, chunks[i], attempt);
        var result := ProcessChunk(world.setup, world.chain, chunks[i], attempt, events);
        results := results[chunks[i].from := result];
      }
      k := k + 1;
    }
    assert order[..k] == order;
  }

  // ---------- one call ----------

  /** What scanOnce does to the tables, whether it reports progress, and whether it fails. */
  ghost function Round(world: World, t: Held, input: RoundInput): (Held, bool, bool) {
    if input.height.None? then (t, false, true)
    else if SafeBlock(input.height.value, world.cfg.confirmations).None? then (t, false, false)
    else if input.read.Broken? then (t, false, true)
    else
      var cursor := CS.Lookup(t.rows, CursorKey(world));
      var sc := Planned(world, cursor, input.height.value);
      if !sc.Scanning? then (t, false, false)
      else
        var (db, results) := RunAll(t.db, world, sc.chunks, input.order);
        Ended(world, Held(db, t.rows), cursor, sc.(results := results), input.write)
  }

  /** The rest of the call after runChunks. */
  ghost function Ended(world: World, t: Held, cursor: Option<CS.Cursor>, sc: Scanner, write: CS.Reply)
    : (Held, bool, bool)
    requires sc.Scanning?
  {
    var next, failing := Committed(world, sc), ErrorFree(sc.chunks, sc.results) < |sc.chunks|;
    if !next.Saving? then (t, false, failing)
    else if !CS.Savable(next.pending) then (t, false, true)
    else (if write.Done? || write.applied
          then t.(rows := t.rows[CursorKey(world) := CS.Merge(cursor, next.pending)])
          else t,
          write.Done?,
          write.Broken? || failing)
  }

  method ScanOnce(world: World, cursors: CS.Store, events: ES.Store, input: RoundInput)
    returns (progressed: bool, failed: bool)
    requires events.planner == world.setup.planner && ES.UniqueKeys(events.events)
    modifies cursors, events
    ensures (Held(events.Contents(), cursors.rows), progressed, failed)
            == Round(world, Held(old(events.Contents()), old(cursors.rows)), input)
    ensures ES.UniqueKeys(events.events)
  {
    if input.height.None? {
      return false, true;
    }
    var latest := input.height.value;
    var safe := SafeBlock(latest, world.cfg.confirmations);
    if safe.None? {
      return false, false;
    }
    var key := CursorKey(world);
    var found := cursors.GetCursor(key, input.read);
    if found.Err? {
      return false, true;
    }
    var next := world.cfg.startBlock;
    if found.value.Some? {
      next := found.value.value.nextBlock;
    }
    if next > safe.value {
      return false, false;
    }
    var chunks := PlanChunksLoop(world.cfg, next, safe.value);
    if |chunks| == 0 {
      return false, false;
    }
    var results := RunChunks(world, chunks, input.order, events);
    var advanced, committedChunks, committedLogs, firstErr := ComputeCommitPoint(next, chunks, results);
    progressed := advanced > next;
    if progressed {
      var saved := cursors.SaveCursor(CursorFor(world, advanced, safe.value, latest), input.write);
      if saved.Fail? {
        return false, true;
      }
    }
    failed := firstErr.Some?;
  }

  // ---------- catching up ----------

  ghost predicate AllGood(chunks: seq<Chunk>, results: map<U64, ChunkResult>) {
    PoolResults(chunks, results) && ErrorFree(chunks, results) == |chunks|
  }

  /** A round without failures takes the stored cursor from one value to the next. */
  ghost predicate GoodRound(world: World, latest: U64, before: Option<CS.Cursor>, after: Option<CS.Cursor>) {
    var sc := Planned(world, before, latest);
    if !sc.Scanning? then after == before
    else
      exists results ::
        && AllGood(sc.chunks, results)
        && Committed(world, sc.(results := results)).Saving?
        && after == Some(CS.Merge(before, Committed(world, sc.(results := results)).pending))
  }

  /** Consecutive stored cursors of a lone scanner with a fixed chain height and no failures. */
  ghost predicate LoneRun(world: World, latest: U64, cursors: seq<Option<CS.Cursor>>) {
    forall i :: 0 <= i < |cursors| - 1 ==> GoodRound(world, latest, cursors[i], cursors[i + 1])
  }

  ghost predicate Sized(world: World, safe: U64) {
    && world.cfg.chunkSize >= 1 && world.cfg.maxInflightChunks >= 1 && world.cfg.confirmations >= 1
    && safe + world.cfg.chunkSize - 1 < TWO_64
  }

  lemma GoodCommit(world: World, next: U64, safe: U64, results: map<U64, ChunkResult>)
    requires Sized(world, safe) && next <= safe && safe + 1 < TWO_64
    requires AllGood(PlanChunks(world.cfg, next, safe), results)
    ensures CommitPoint(next, PlanChunks(world.cfg, next, safe), results)
            == PlanEnd(next, safe, world.cfg.chunkSize, world.cfg.maxInflightChunks)
  {
    PlanIsTiling(world.cfg, next, safe);
    CommitPointExact(PlanChunks(world.cfg, next, safe), results, next, safe, world.cfg.chunkSize,
                     world.cfg.maxInflightChunks);
  }

  // ---------- such runs exist ----------

  function AllFetched(chunks: seq<Chunk>): map<U64, ChunkResult> {
    if chunks == [] then map[] else AllFetched(chunks[1..])[chunks[0].from := ChunkResult(chunks[0], 0, None)]
  }

  lemma {:induction false} AllFetchedIsGood(chunks: seq<Chunk>)
    ensures PoolResults(chunks, AllFetched(chunks))
    ensures forall i :: 0 <= i < |chunks| ==> Succeeded(chunks[i], AllFetched(chunks))
    ensures AllGood(chunks, AllFetched(chunks))
  {
    if chunks != [] { AllFetchedIsGood(chunks[1..]); }
  }

  /** From every stored cursor a round without failures is possible. */
  lemma GoodRoundExists(world: World, latest: U64, safe: U64, before: Option<CS.Cursor>)
    requires SafeBlock(latest, world.cfg.confirmations) == Some(safe) && Sized(world, safe)
    ensures exists after :: GoodRound(world, latest, before, after)
  {
    var sc := Planned(world, before, latest);
    if !sc.Scanning? {
      assert GoodRound(world, latest, before, before);
    } else {
      var results, next := AllFetched(sc.chunks), NextBlock(world, before);
      AllFetchedIsGood(sc.chunks);
      GoodCommit(world, next, safe, results);
      AtLeastFactor(world.cfg.chunkSize, world.cfg.maxInflightChunks);
      var after := Some(CS.Merge(before, Committed(world, sc.(results := results)).pending));
      assert GoodRound(world, latest, before, after);
    }
  }

  /** A lone run of every length starts from every stored cursor. */
  lemma {:induction false} LoneRunExists(world: World, latest: U64, safe: U64, first: Option<CS.Cursor>, rounds: nat)
    requires SafeBlock(latest, world.cfg.confirmations) == Some(safe) && Sized(world, safe)
    ensures exists cursors :: |cursors| == rounds + 1 && cursors[0] == first && LoneRun(world, latest, cursors)
  {
    if rounds == 0 {
      assert LoneRun(world, latest, [first]);
    } else {
      LoneRunExists(world, latest, safe, first, rounds - 1);
      var init :| |init| == rounds && init[0] == first && LoneRun(world, latest, init);
      GoodRoundExists(world, latest, safe, init[rounds - 1]);
      var last :| GoodRound(world, latest, init[rounds - 1], last);
      var cursors := init + [last];
      assert LoneRun(world, latest, cursors);
    }
  }

  lemma GoodRoundAdvances(world: World, latest: U64, safe: U64, before: Option<CS.Cursor>, after: Option<CS.Cursor>)
    requires SafeBlock(latest, world.cfg.confirmations) == Some(safe) && Sized(world, safe)
    requires GoodRound(world, latest, before, after)
    ensures NextBlock(world, after)
            == if NextBlock(world, before) > safe then NextBlock(world, before)
               else PlanEnd(NextBlock(world, before), safe, world.cfg.chunkSize, world.cfg.maxInflightChunks)
  {
    var next := NextBlock(world, before);
    if next <= safe {
      assert PlanChunks(world.cfg, next, safe) != [];
      var sc := Planned(world, before, latest);
      var results :| && AllGood(sc.chunks, results)
                     && Committed(world, sc.(results := results)).Saving?
                     && after == Some(CS.Merge(before, Committed(world, sc.(results := results)).pending));
      GoodCommit(world, next, safe, results);
      CommitIsStored(world, before, after, sc.(results := results));
    }
  }

  lemma CommitIsStored(world: World, before: Option<CS.Cursor>, after: Option<CS.Cursor>, sc: Scanner)
    requires sc.Scanning? && sc.next == NextBlock(world, before) && Committed(world, sc).Saving?
    requires after == Some(CS.Merge(before, Committed(world, sc).pending))
    ensures NextBlock(world, after) == CommitPoint(sc.next, sc.chunks, sc.results)
  {
  }

  lemma LoneRunTail(world: World, latest: U64, cursors: seq<Option<CS.Cursor>>)
    requires |cursors| > 1 && LoneRun(world, latest, cursors)
    ensures GoodRound(world, latest, cursors[0], cursors[1]) && LoneRun(world, latest, cursors[1..])
  {
    assert GoodRound(world, latest, cursors[0], cursors[0 + 1]);
    var rest := cursors[1..];
    forall i | 0 <= i < |rest| - 1 ensures GoodRound(world, latest, rest[i], rest[i + 1]) {
      assert GoodRound(world, latest, cursors[i + 1], cursors[i + 1 + 1]);
    }
  }

  /**
   With a fixed height and no failures a lone scanner is done after exactly ceil((safe + 1 - next) / (chunkSize *
   maxInflightChunks)) rounds.
   */
  lemma {:induction false} LoneScannerCatchesUp(world: World, latest: U64, safe: U64, cursors: seq<Option<CS.Cursor>>)
    requires SafeBlock(latest, world.cfg.confirmations) == Some(safe) && Sized(world, safe)
    requires cursors != [] && LoneRun(world, latest, cursors) && NextBlock(world, cursors[0]) <= safe + 1
    ensures var next, size, room := NextBlock(world, cursors[0]), world.cfg.chunkSize, world.cfg.maxInflightChunks;
            var rounds := |cursors| - 1;
            && size * room >= 1
            && (NextBlock(world, cursors[rounds]) == safe + 1 <==> rounds >= CeilDiv(safe + 1 - next, size * room))
    decreases |cursors|
  {
    var next, size, room := NextBlock(world, cursors[0]), world.cfg.chunkSize, world.cfg.maxInflightChunks;
    CatchUpRounds(next, safe, size, room);
    if |cursors| > 1 {
      LoneRunTail(world, latest, cursors);
      GoodRoundAdvances(world, latest, safe, cursors[0], cursors[1]);
      LoneScannerCatchesUp(world, latest, safe, cursors[1..]);
      if next <= safe { CatchUpRounds(PlanEnd(next, safe, size, room), safe, size, room); }
    }
  }
}
