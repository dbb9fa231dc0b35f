/** Any sequence of scanOnce calls on the tables is a run of the step system, so the laws of runs hold of the tables. */
module Rounds {
  import opened Basics
  import opened Domain
  import opened Source
  import opened Chunks
  import opened Tables
  import opened Ingest
  import opened IngestLaws
  import opened Scan
  import opened Refinement
  import opened ScanRound
  import opened ChunkLaws
  import Laws = EventStoreLaws
  import ES = EventStore
  import CS = CursorStore

  // ---------- reaching a state ----------

  ghost predicate Reached(world: World, s: State) {
    exists steps :: Leads(world, Start(1), steps, s) && Own(steps)
  }

  lemma {:induction false} LeadsSnoc(world: World, s: State, steps: seq<Step>, t: State, step: Step)
    requires Leads(world, s, steps, t) && Enabled(t, step) && Honest(world, t, step)
    ensures Leads(world, s, steps + [step], Apply(world, t, step))
    decreases |steps|
  {
    if steps == [] {
      assert [step][1..] == [] && steps + [step] == [step];
    } else {
      LeadsSnoc(world, Apply(world, s, steps[0]), steps[1..], t, step);
      assert (steps + [step])[1..] == steps[1..] + [step];
    }
  }

  lemma StepIsReached(world: World, s: State, step: Step)
    requires Reached(world, s) && Enabled(s, step) && Honest(world, s, step) && !step.ForeignSave?
    ensures Reached(world, Apply(world, s, step))
  {
    var steps :| Leads(world, Start(1), steps, s) && Own(steps);
    LeadsSnoc(world, Start(1), steps, s, step);
    assert Own(steps + [step]);
  }

  // ---------- drawn IDs ----------

  function IdsOf(order: seq<(nat, Attempt)>): seq<int> {
    if order == [] then [] else IdsOf(order[..|order| - 1]) + order[|order| - 1].1.ids
  }

  ghost predicate Distinct(ids: seq<int>) {
    forall i, j :: 0 <= i < j < |ids| ==> ids[i] != ids[j]
  }

  /** Without a planner no ID is drawn twice. */
  ghost predicate Fresh(world: World, ids: seq<int>) {
    world.setup.planner.None? ==> Distinct(ids)
  }

  ghost predicate DrawnFrom(drawn: set<int>, used: seq<int>) {
    forall id :: id in drawn ==> id in used
  }

  lemma DistinctParts(a: seq<int>, b: seq<int>)
    requires Distinct(a + b)
    ensures Distinct(a) && Distinct(b) && forall i :: 0 <= i < |b| ==> b[i] !in a
  {
    var all := a + b;
    assert forall i :: 0 <= i < |a| ==> all[i] == a[i];
    assert forall i :: 0 <= i < |b| ==> all[|a| + i] == b[i];
  }

  lemma LaterIsFresh(world: World, drawn: set<int>, used: seq<int>, ids: seq<int>)
    requires Fresh(world, used + ids) && DrawnFrom(drawn, used)
    ensures world.setup.planner.Some? || FreshDraw(drawn, ids)
  {
    if world.setup.planner.None? {
      DistinctParts(used, ids);
      forall i | 0 <= i < |ids| ensures ids[i] !in drawn {
        var id := ids[i];
        assert id in drawn ==> id in used;
      }
    }
  }

  // ---------- one call ----------

  /** The state has these tables, its scanner is at this point, and its IDs were drawn from these. */
  ghost predicate At(world: World, s: State, t: Held, sc: Scanner, used: seq<int>) {
    && s.db == t.db && s.cursor == CS.Lookup(t.rows, CursorKey(world)) && s.scanners == [sc]
    && DrawnFrom(s.drawn, used)
  }

  ghost predicate CanBeAt(world: World, t: Held, sc: Scanner, used: seq<int>) {
    exists s :: Reached(world, s) && At(world, s, t, sc, used)
  }

  lemma OneMoreJob(world: World, t: Held, sc: Scanner, i: nat, attempt: Attempt, used: seq<int>)
    requires sc.Scanning? && i < |sc.chunks| && CanBeAt(world, t, sc, used) && Fresh(world, used + attempt.ids)
    ensures var (db, result) := Process(t.db, world.setup, world.chain, sc.chunks[i], attempt);
            CanBeAt(world, t.(db := db), sc.(results := sc.results[sc.chunks[i].from := result]), used + attempt.ids)
  {
    var s :| Reached(world, s) && At(world, s, t, sc, used);
    LaterIsFresh(world, s.drawn, used, attempt.ids);
    StepIsReached(world, s, ProcessOne(0, i, attempt));
    var (db, result) := Process(t.db, world.setup, world.chain, sc.chunks[i], attempt);
    assert At(world, Apply(world, s, ProcessOne(0, i, attempt)), t.(db := db),
              sc.(results := sc.results[sc.chunks[i].from := result]), used + attempt.ids);
  }

  lemma MoreIds(world: World, t: Held, sc: Scanner, used: seq<int>, ids: seq<int>)
    requires CanBeAt(world, t, sc, used)
    ensures CanBeAt(world, t, sc, used + ids)
  {
    var s :| Reached(world, s) && At(world, s, t, sc, used);
    assert At(world, s, t, sc, used + ids);
  }

  lemma {:induction false} PoolRuns(world: World, t: Held, sc: Scanner, order: seq<(nat, Attempt)>, used: seq<int>)
    requires sc.Scanning? && sc.results == map[] && CanBeAt(world, t, sc, used) && Fresh(world, used + IdsOf(order))
    ensures var (db, results) := RunAll(t.db, world, sc.chunks, order);
            CanBeAt(world, t.(db := db), sc.(results := results), used + IdsOf(order))
  {
    if order == [] {
      assert used + IdsOf(order) == used;
      assert t.(db := t.db) == t && sc.(results := map[]) == sc;
    } else {
      var init := order[..|order| - 1];
      var (i, attempt) := order[|order| - 1];
      assert used + IdsOf(order) == used + IdsOf(init) + attempt.ids;
      PrefixIsFresh(world, used + IdsOf(init), attempt.ids);
      PoolRuns(world, t, sc, init, used);
      var (db, results) := RunAll(t.db, world, sc.chunks, init);
      if i < |sc.chunks| {
        OneMoreJob(world, t.(db := db), sc.(results := results), i, attempt, used + IdsOf(init));
      } else {
        MoreIds(world, t.(db := db), sc.(results := results), used + IdsOf(init), attempt.ids);
      }
    }
  }

  lemma PrefixIsFresh(world: World, ids: seq<int>, more: seq<int>)
    requires Fresh(world, ids + more)
    ensures Fresh(world, ids)
  {
    if world.setup.planner.None? { DistinctParts(ids, more); }
  }

  lemma CallBegins(world: World, t: Held, latest: U64, used: seq<int>)
    requires CanBeAt(world, t, Idle, used)
    ensures CanBeAt(world, t, Planned(world, CS.Lookup(t.rows, CursorKey(world)), latest), used)
  {
    var s :| Reached(world, s) && At(world, s, t, Idle, used);
    StepIsReached(world, s, Observe(0, latest));
    var s1 := Apply(world, s, Observe(0, latest));
    StepIsReached(world, s1, PlanRound(0));
    assert At(world, Apply(world, s1, PlanRound(0)), t, Planned(world, CS.Lookup(t.rows, CursorKey(world)), latest),
              used);
  }

  lemma CallEnds(world: World, t: Held, sc: Scanner, write: CS.Reply, used: seq<int>)
    requires sc.Scanning? && CanBeAt(world, t, sc, used)
    ensures CanBeAt(world, Ended(world, t, CS.Lookup(t.rows, CursorKey(world)), sc, write).0, Idle, used)
  {
    var s :| Reached(world, s) && At(world, s, t, sc, used);
    StepIsReached(world, s, EndRound(0));
    var s1 := Apply(world, s, EndRound(0));
    var t' := Ended(world, t, CS.Lookup(t.rows, CursorKey(world)), sc, write).0;
    if !Committed(world, sc).Saving? {
      assert At(world, s1, t', Idle, used);
    } else if !CS.Savable(Committed(world, sc).pending) || write.Done? || write.applied {
      StepIsReached(world, s1, SavePending(0));
      assert At(world, Apply(world, s1, SavePending(0)), t', Idle, used);
    } else {
      StepIsReached(world, s1, Crash(0));
      assert At(world, Apply(world, s1, Crash(0)), t', Idle, used);
    }
  }

  /** One call is a stretch of a run. */
  lemma RoundRuns(world: World, t: Held, input: RoundInput, used: seq<int>)
    requires CanBeAt(world, t, Idle, used) && Fresh(world, used + IdsOf(input.order))
    ensures CanBeAt(world, Round(world, t, input).0, Idle, used + IdsOf(input.order))
  {
    var t', ids := Round(world, t, input).0, IdsOf(input.order);
    if t' == t {
      MoreIds(world, t, Idle, used, ids);
    } else {
      var cursor := CS.Lookup(t.rows, CursorKey(world));
      var sc := Planned(world, cursor, input.height.value);
      CallBegins(world, t, input.height.value, used);
      PoolRuns(world, t, sc, input.order, used);
      var (db, results) := RunAll(t.db, world, sc.chunks, input.order);
      CallEnds(world, t.(db := db), sc.(results := results), input.write, used + ids);
    }
  }

  // ---------- any number of calls ----------

  ghost function Rounds(world: World, t: Held, inputs: seq<RoundInput>): Held {
    if inputs == [] then t
    else Round(world, Rounds(world, t, inputs[..|inputs| - 1]), inputs[|inputs| - 1]).0
  }

  function AllIds(inputs: seq<RoundInput>): seq<int> {
    if inputs == [] then [] else AllIds(inputs[..|inputs| - 1]) + IdsOf(inputs[|inputs| - 1].order)
  }

  /** Scanner.Run without its waits: one scanOnce after the other, whatever they report. */
  method RunScanner(world: World, cursors: CS.Store, events: ES.Store, inputs: seq<RoundInput>)
    requires events.planner == world.setup.planner && ES.UniqueKeys(events.events)
    modifies cursors, events
    ensures Held(events.Contents(), cursors.rows)
            == Rounds(world, Held(old(events.Contents()), old(cursors.rows)), inputs)
  {
    var k := 0;
    while k < |inputs|
      invariant 0 <= k <= |inputs| && ES.UniqueKeys(events.events)
      invariant Held(events.Contents(), cursors.rows)
                == Rounds(world, Held(old(events.Contents()), old(cursors.rows)), inputs[..k])
    {
      assert inputs[..k + 1][..k] == inputs[..k];
      var progressed, failed := ScanOnce(world, cursors, events, inputs[k]);
      k := k + 1;
    }
    assert inputs[..k] == inputs;
  }

  /** Empty event tables, and no row under the scanner's key yet. */
  predicate Untouched(world: World, t: Held) {
    t.db == Database(map[], map[]) && CursorKey(world) !in t.rows
  }

  /** Any sequence of calls, with any failures, is a run of the step system whose cursor is the row of the table. */
  lemma {:induction false} RoundsAreRun(world: World, t: Held, inputs: seq<RoundInput>)
    requires Untouched(world, t) && Fresh(world, AllIds(inputs))
    ensures CanBeAt(world, Rounds(world, t, inputs), Idle, AllIds(inputs))
  {
    if inputs == [] {
      assert Leads(world, Start(1), [], Start(1)) && Own([]);
      assert At(world, Start(1), t, Idle, []);
    } else {
      var init, last := inputs[..|inputs| - 1], inputs[|inputs| - 1];
      PrefixIsFresh(world, AllIds(init), IdsOf(last.order));
      RoundsAreRun(world, t, init);
      RoundRuns(world, Rounds(world, t, init), last, AllIds(init));
    }
  }

  lemma RoundKeepsOtherKeys(world: World, t: Held, input: RoundInput, key: string)
    requires key != CursorKey(world)
    ensures CS.Lookup(Round(world, t, input).0.rows, key) == CS.Lookup(t.rows, key)
  {
  }

  /** No call touches the cursor of another key. */
  lemma {:induction false} RoundsKeepOtherKeys(world: World, t: Held, inputs: seq<RoundInput>, key: string)
    requires key != CursorKey(world)
    ensures CS.Lookup(Rounds(world, t, inputs).rows, key) == CS.Lookup(t.rows, key)
  {
    if inputs != [] {
      var n := |inputs| - 1;
      RoundsKeepOtherKeys(world, t, inputs[..n], key);
      RoundKeepsOtherKeys(world, Rounds(world, t, inputs[..n]), inputs[n], key);
    }
  }

  /**
   No loss, of the tables themselves: after any calls every configured log from the start block to below the stored next
   block is settled, and the events below it are those of the sequential scan.
   */
  lemma TablesLoseNothing(world: World, t: Held, inputs: seq<RoundInput>)
    requires Sound(world) && Untouched(world, t) && Fresh(world, AllIds(inputs))
    requires CursorKey(world) in Rounds(world, t, inputs).rows
    ensures var t' := Rounds(world, t, inputs);
            var from, next := world.cfg.startBlock, t'.rows[CursorKey(world)].nextBlock;
            && (forall log | log in world.chain && SourceMatches(world.setup.src, log) && from <= log.blockNumber < next
                  :: Settled(t'.db, world.setup, log))
            && Sequential(world, from, next).Some?
            && forall e :: e in StoredEvents(t'.db, from, next) <==> e in Sequential(world, from, next).value
  {
    RoundsAreRun(world, t, inputs);
    var s :| Reached(world, s) && At(world, s, Rounds(world, t, inputs), Idle, AllIds(inputs));
    var steps :| Leads(world, Start(1), steps, s) && Own(steps);
    RefinesSequentialScan(world, 1, steps, s);
    forall log | log in world.chain && SourceMatches(world.setup.src, log)
                 && world.cfg.startBlock <= log.blockNumber < s.cursor.value.nextBlock
      ensures Settled(s.db, world.setup, log)
    {
      NoLoss(world, 1, steps, s, log);
    }
  }

  // ---------- what a call reports ----------

  function Row(world: World, t: Held): Option<CS.Cursor> {
    CS.Lookup(t.rows, CursorKey(world))
  }

  /** A call reports progress exactly when the database confirms a write that raises the stored next block. */
  lemma ProgressIsRise(world: World, t: Held, input: RoundInput)
    ensures var (t', progressed, _) := Round(world, t, input);
            progressed <==> input.write.Done? && NextBlock(world, Row(world, t')) > NextBlock(world, Row(world, t))
  {
  }

  /** Failures outside the chunks: the node does not answer, or the database fails the read or the write. */
  lemma OutsideFailureIsReported(world: World, t: Held, input: RoundInput)
    ensures var (t', progressed, failed) := Round(world, t, input);
            && (input.height.None? ==> failed && t' == t)
            && (input.height.Some? && SafeBlock(input.height.value, world.cfg.confirmations).Some? && input.read.Broken?
                ==> failed && t' == t)
            && (input.write.Broken? && NextBlock(world, Row(world, t')) > NextBlock(world, Row(world, t)) ==> failed)
            && (failed && progressed ==> t'.rows != t.rows)
  {
  }

  lemma {:induction false} PoolGivesResults(db: Database, world: World, chunks: seq<Chunk>, order: seq<(nat, Attempt)>)
    ensures PoolResults(chunks, RunAll(db, world, chunks, order).1)
  {
    if order != [] {
      var n := |order| - 1;
      PoolGivesResults(db, world, chunks, order[..n]);
      var before := RunAll(db, world, chunks, order[..n]);
      var (i, attempt) := order[n];
      if i < |chunks| {
        var result := Process(before.0, world.setup, world.chain, chunks[i], attempt).1;
        assert result.job == chunks[i];
      }
    }
  }

  /** Job k is the last one for chunk i, and it passed on the tables that it met. */
  ghost predicate PassesAt(db: Database, world: World, chunks: seq<Chunk>, order: seq<(nat, Attempt)>, i: nat, k: nat)
    requires i < |chunks|
  {
    && k < |order| && order[k].0 == i && (forall m :: k < m < |order| ==> order[m].0 != i)
    && Reaches(world.setup, chunks[i], order[k].1)
    && BatchPasses(RunAll(db, world, chunks, order[..k]).0, world.setup,
                   ChunkLogs(world.chain, world.setup.src, chunks[i].from, chunks[i].to), order[k].1)
  }

  ghost predicate ChunkPasses(db: Database, world: World, chunks: seq<Chunk>, order: seq<(nat, Attempt)>, i: nat)
    requires i < |chunks|
  {
    exists k: nat :: PassesAt(db, world, chunks, order, i, k)
  }

  predicate DistinctFirstBlocks(chunks: seq<Chunk>) {
    forall i, j :: 0 <= i < j < |chunks| ==> chunks[i].from != chunks[j].from
  }

  lemma {:induction false} PoolKeepsDatabase(db: Database, world: World, chunks: seq<Chunk>, order: seq<(nat, Attempt)>)
    requires Laws.DatabaseOk(db) && Sound(world)
    ensures Laws.DatabaseOk(RunAll(db, world, chunks, order).0)
  {
    if order != [] {
      var n := |order| - 1;
      PoolKeepsDatabase(db, world, chunks, order[..n]);
      var (i, attempt) := order[n];
      if i < |chunks| {
        ProcessKeeps(RunAll(db, world, chunks, order[..n]).0, world.setup, world.chain, chunks[i], attempt);
      }
    }
  }

  lemma ChunkPassesSnoc(db: Database, world: World, chunks: seq<Chunk>, order: seq<(nat, Attempt)>, i: nat)
    requires i < |chunks| && order != []
    ensures var n := |order| - 1;
            ChunkPasses(db, world, chunks, order, i)
            <==> if order[n].0 == i then PassesAt(db, world, chunks, order, i, n)
                 else ChunkPasses(db, world, chunks, order[..n], i)
  {
    var n := |order| - 1;
    var init := order[..n];
    forall k: nat | k < n ensures init[..k] == order[..k] && init[k] == order[k] {}
    if order[n].0 != i {
      forall k: nat ensures PassesAt(db, world, chunks, order, i, k) <==> PassesAt(db, world, chunks, init, i, k) {}
    }
  }

  /** A chunk is among the successes exactly when its last job passed. */
  lemma {:induction false} SucceedsIff(db: Database, world: World, chunks: seq<Chunk>, order: seq<(nat, Attempt)>,
                                       i: nat)
    requires Laws.DatabaseOk(db) && Sound(world) && i < |chunks| && DistinctFirstBlocks(chunks)
    ensures Succeeded(chunks[i], RunAll(db, world, chunks, order).1) <==> ChunkPasses(db, world, chunks, order, i)
  {
    if order != [] {
      var n := |order| - 1;
      SucceedsIff(db, world, chunks, order[..n], i);
      ChunkPassesSnoc(db, world, chunks, order, i);
      PoolKeepsDatabase(db, world, chunks, order[..n]);
      var before := RunAll(db, world, chunks, order[..n]).0;
      var (j, attempt) := order[n];
      if j < |chunks| { ProcessPassesIff(before, world.setup, world.chain, chunks[j], attempt); }
    }
  }

  lemma SavableIff(world: World, next: U64, safe: U64, latest: U64)
    ensures CS.Savable(CursorFor(world, next, safe, latest))
            <==> world.cfg.chainId != 0 && world.cfg.chainName != "" && world.cfg.network != ""
                 && world.setup.src.name != ""
  {
  }

  /**
   A call with a safe height does not fail exactly when the cursor can be read and either there is nothing to do, or
   every planned chunk passes, the scanner has its names, and the database confirms the write.
   */
  lemma UnfailingIff(world: World, t: Held, input: RoundInput, latest: U64, safe: U64)
    requires Laws.DatabaseOk(t.db) && Sound(world) && Sized(world, safe)
    requires SafeBlock(latest, world.cfg.confirmations) == Some(safe) && input.height == Some(latest)
    ensures var next := NextBlock(world, Row(world, t));
            var chunks := if next <= safe then PlanChunks(world.cfg, next, safe) else [];
            !Round(world, t, input).2
            <==> && input.read.Done?
                 && (next <= safe ==>
                       && (forall i :: 0 <= i < |chunks| ==> ChunkPasses(t.db, world, chunks, input.order, i))
                       && world.cfg.chainId != 0 && world.cfg.chainName != "" && world.cfg.network != ""
                       && world.setup.src.name != "" && input.write.Done?)
  {
    var next := NextBlock(world, Row(world, t));
    if next <= safe && input.read.Done? {
      var chunks := PlanChunks(world.cfg, next, safe);
      PlanIsTiling(world.cfg, next, safe);
      TilesCover(chunks, next, safe, world.cfg.chunkSize, world.cfg.maxInflightChunks);
      PlannedUnfailingIff(world, t, input, latest, next, safe, chunks);
    }
  }

  lemma PlannedUnfailingIff(world: World, t: Held, input: RoundInput, latest: U64, next: U64, safe: U64,
                            chunks: seq<Chunk>)
    requires Laws.DatabaseOk(t.db) && Sound(world) && Sized(world, safe) && input.read.Done?
    requires SafeBlock(latest, world.cfg.confirmations) == Some(safe) && input.height == Some(latest)
    requires next == NextBlock(world, Row(world, t)) <= safe && chunks == PlanChunks(world.cfg, next, safe) != []
    requires forall i :: 0 <= i < |chunks| ==> chunks[i].from <= chunks[i].to
    requires forall i, j :: 0 <= i < j < |chunks| ==> chunks[i].to < chunks[j].from
    ensures !Round(world, t, input).2
            <==> && (forall i :: 0 <= i < |chunks| ==> ChunkPasses(t.db, world, chunks, input.order, i))
                 && world.cfg.chainId != 0 && world.cfg.chainName != "" && world.cfg.network != ""
                 && world.setup.src.name != "" && input.write.Done?
  {
    var results := RunAll(t.db, world, chunks, input.order).1;
    AllSucceedIff(t.db, world, chunks, input.order);
    CommitMoves(world, t.db, next, safe, input.order);
    SavableIff(world, CommitPoint(next, chunks, results), safe, latest);
  }

  lemma AllSucceedIff(db: Database, world: World, chunks: seq<Chunk>, order: seq<(nat, Attempt)>)
    requires Laws.DatabaseOk(db) && Sound(world) && DistinctFirstBlocks(chunks)
    ensures ErrorFree(chunks, RunAll(db, world, chunks, order).1) == |chunks|
            <==> forall i :: 0 <= i < |chunks| ==> ChunkPasses(db, world, chunks, order, i)
  {
    forall i | 0 <= i < |chunks|
      ensures Succeeded(chunks[i], RunAll(db, world, chunks, order).1) <==> ChunkPasses(db, world, chunks, order, i)
    {
      SucceedsIff(db, world, chunks, order, i);
    }
  }

  /** When every chunk succeeds the commit point moves. */
  lemma CommitMoves(world: World, db: Database, next: U64, safe: U64, order: seq<(nat, Attempt)>)
    requires Sized(world, safe) && next <= safe && safe + 1 < TWO_64
    ensures var chunks := PlanChunks(world.cfg, next, safe);
            var results := RunAll(db, world, chunks, order).1;
            ErrorFree(chunks, results) == |chunks| ==> CommitPoint(next, chunks, results) > next
  {
    var chunks := PlanChunks(world.cfg, next, safe);
    PoolGivesResults(db, world, chunks, order);
    if ErrorFree(chunks, RunAll(db, world, chunks, order).1) == |chunks| {
      GoodCommit(world, next, safe, RunAll(db, world, chunks, order).1);
      AtLeastFactor(world.cfg.chunkSize, world.cfg.maxInflightChunks);
    }
  }

  /** A call without a failure takes the stored row as a round without failures does. */
  lemma UnfailingIsGood(world: World, t: Held, input: RoundInput, latest: U64, safe: U64)
    requires SafeBlock(latest, world.cfg.confirmations) == Some(safe) && Sized(world, safe)
    requires input.height == Some(latest) && !Round(world, t, input).2
    ensures GoodRound(world, latest, Row(world, t), Row(world, Round(world, t, input).0))
  {
    var cursor := Row(world, t);
    var sc := Planned(world, cursor, latest);
    if sc.Scanning? {
      var (db, results) := RunAll(t.db, world, sc.chunks, input.order);
      PoolGivesResults(t.db, world, sc.chunks, input.order);
      assert AllGood(sc.chunks, results);
      GoodCommit(world, sc.next, safe, results);
      AtLeastFactor(world.cfg.chunkSize, world.cfg.maxInflightChunks);
      assert Committed(world, sc.(results := results)).Saving?;
    }
  }

  /** The node always answers the same height and no call fails. */
  ghost predicate NoneFails(world: World, t: Held, inputs: seq<RoundInput>, latest: U64) {
    forall k :: 0 <= k < |inputs| ==>
                  inputs[k].height == Some(latest) && !Round(world, Rounds(world, t, inputs[..k]), inputs[k]).2
  }

  /** The rows before, between and after the calls. */
  ghost function RowsSeen(world: World, t: Held, inputs: seq<RoundInput>): seq<Option<CS.Cursor>> {
    seq(|inputs| + 1, k requires 0 <= k <= |inputs| => Row(world, Rounds(world, t, inputs[..k])))
  }

  /**
   With a fixed height and no failures the table's next block reaches safe + 1 after exactly the rounded-up quotient of
   calls.
   */
  lemma TablesCatchUp(world: World, t: Held, inputs: seq<RoundInput>, latest: U64, safe: U64)
    requires SafeBlock(latest, world.cfg.confirmations) == Some(safe) && Sized(world, safe)
    requires NoneFails(world, t, inputs, latest) && NextBlock(world, Row(world, t)) <= safe + 1
    ensures var size, room := world.cfg.chunkSize, world.cfg.maxInflightChunks;
            && size * room >= 1
            && (NextBlock(world, Row(world, Rounds(world, t, inputs))) == safe + 1
                <==> |inputs| >= CeilDiv(safe + 1 - NextBlock(world, Row(world, t)), size * room))
  {
    var rows := RowsSeen(world, t, inputs);
    SeenEnds(world, t, inputs);
    SeenIsLoneRun(world, t, inputs, latest, safe);
    LoneScannerCatchesUp(world, latest, safe, rows);
  }

  lemma SeenEnds(world: World, t: Held, inputs: seq<RoundInput>)
    ensures var rows := RowsSeen(world, t, inputs);
            && |rows| == |inputs| + 1 && rows[0] == Row(world, t)
            && rows[|inputs|] == Row(world, Rounds(world, t, inputs))
  {
    assert inputs[..0] == [] && inputs[..|inputs|] == inputs;
  }

  lemma SeenIsLoneRun(world: World, t: Held, inputs: seq<RoundInput>, latest: U64, safe: U64)
    requires SafeBlock(latest, world.cfg.confirmations) == Some(safe) && Sized(world, safe)
    requires NoneFails(world, t, inputs, latest)
    ensures LoneRun(world, latest, RowsSeen(world, t, inputs))
  {
    var rows := RowsSeen(world, t, inputs);
    forall k | 0 <= k < |rows| - 1 ensures GoodRound(world, latest, rows[k], rows[k + 1]) {
      assert inputs[..k + 1][..k] == inputs[..k] && inputs[..k + 1][k] == inputs[k];
      UnfailingIsGood(world, Rounds(world, t, inputs[..k]), inputs[k], latest, safe);
    }
  }
}
