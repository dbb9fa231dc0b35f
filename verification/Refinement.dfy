/**
 The concurrent, replaying, crashing scanners refine a scanner that reads one
 block after the other and never fails.  This is about runs without foreign
 saves; module ForeignSaves says exactly what holds beside them.
 */
module Refinement {
  import opened Basics
  import opened Domain
  import opened Source
  import opened Chunks
  import opened Tables
  import opened Ingest
  import opened IngestLaws
  import opened Scan
  import H = Handler

  // ---------- the reference ----------

  /** The configured logs of one block, in chain order. */
  function BlockLogs(chain: seq<Log>, src: QuerySource, block: nat): seq<Log> {
    if chain == [] then []
    else
      var last := chain[|chain| - 1];
      BlockLogs(chain[..|chain| - 1], src, block)
      + (if last.blockNumber == block && SourceMatches(src, last) then [last] else [])
  }

  /** The events of the blocks from .. next-1, block by block; None when some log cannot be handled. */
  function Sequential(world: World, from: nat, next: nat): Option<seq<EventEnvelope>> {
    if next <= from then Some([])
    else
      var logs := BlockLogs(world.chain, world.setup.src, next - 1);
      match Sequential(world, from, next - 1)
      case None => None
      case Some(before) =>
        if H.NoFatal(world.setup.pipeline, world.setup.programs, world.setup.batch, logs)
        then Some(before + Events(world.setup, logs))
        else None
  }

  lemma {:induction false} BlockLogsLaw(chain: seq<Log>, src: QuerySource, block: nat, log: Log)
    ensures log in BlockLogs(chain, src, block) <==> log in chain && log.blockNumber == block && SourceMatches(src, log)
  {
    if chain != [] {
      BlockLogsLaw(chain[..|chain| - 1], src, block, log);
      assert chain == chain[..|chain| - 1] + [chain[|chain| - 1]];
    }
  }

  /** e is the accepted event of a configured log in a block from .. next-1. */
  ghost predicate AcceptedIn(world: World, e: EventEnvelope, from: nat, next: nat) {
    exists i :: 0 <= i < |world.chain| && SourceMatches(world.setup.src, world.chain[i])
                && from <= world.chain[i].blockNumber < next && Fate(world.setup, world.chain[i]) == H.Accepted(e)
  }

  lemma BlockEvents(world: World, block: nat, e: EventEnvelope)
    ensures e in Events(world.setup, BlockLogs(world.chain, world.setup.src, block))
            <==> AcceptedIn(world, e, block, block + 1)
  {
    var logs := BlockLogs(world.chain, world.setup.src, block);
    if e in Events(world.setup, logs) {
      var i := EventFromLog(world.setup, logs, e);
      BlockLogsLaw(world.chain, world.setup.src, block, logs[i]);
      assert logs[i] in logs;
      var j :| 0 <= j < |world.chain| && world.chain[j] == logs[i];
    }
    if AcceptedIn(world, e, block, block + 1) {
      var i :| 0 <= i < |world.chain| && SourceMatches(world.setup.src, world.chain[i])
               && block <= world.chain[i].blockNumber < block + 1 && Fate(world.setup, world.chain[i]) == H.Accepted(e);
      BlockLogsLaw(world.chain, world.setup.src, block, world.chain[i]);
      var j :| 0 <= j < |logs| && logs[j] == world.chain[i];
      EventOfLog(world.setup, logs, j);
      assert Fate(world.setup, logs[j]).event in Events(world.setup, logs);
    }
  }

  /** No configured log of these blocks is fatal. */
  ghost predicate Processable(world: World, from: nat, next: nat) {
    forall i | 0 <= i < |world.chain| && SourceMatches(world.setup.src, world.chain[i])
        && from <= world.chain[i].blockNumber < next
      :: !Fate(world.setup, world.chain[i]).Fatal?
  }

  lemma BlockIsProcessable(world: World, from: nat, next: nat)
    requires from < next && Processable(world, from, next)
    ensures H.NoFatal(world.setup.pipeline, world.setup.programs, world.setup.batch,
                      BlockLogs(world.chain, world.setup.src, next - 1))
    ensures Processable(world, from, next - 1)
  {
    var logs := BlockLogs(world.chain, world.setup.src, next - 1);
    forall k | 0 <= k < |logs| ensures !Fate(world.setup, logs[k]).Fatal? {
      BlockLogsLaw(world.chain, world.setup.src, next - 1, logs[k]);
      assert logs[k] in logs;
      var i :| 0 <= i < |world.chain| && world.chain[i] == logs[k];
      assert !Fate(world.setup, world.chain[i]).Fatal?;
    }
  }

  /** The reference succeeds where nothing is fatal, and yields exactly the accepted events. */
  lemma {:induction false} SequentialLaw(world: World, from: nat, next: nat)
    requires Processable(world, from, next)
    ensures var r := Sequential(world, from, next);
            r.Some? && forall e :: e in r.value <==> AcceptedIn(world, e, from, next)
    decreases next
  {
    if next > from {
      BlockIsProcessable(world, from, next);
      SequentialLaw(world, from, next - 1);
      var logs := BlockLogs(world.chain, world.setup.src, next - 1);
      var before := Sequential(world, from, next - 1).value;
      forall e ensures e in before + Events(world.setup, logs) <==> AcceptedIn(world, e, from, next) {
        BlockEvents(world, next - 1, e);
        SplitRange(world, e, from, next);
      }
    }
  }

  lemma SplitRange(world: World, e: EventEnvelope, from: nat, next: nat)
    requires from < next
    ensures AcceptedIn(world, e, from, next)
            <==> AcceptedIn(world, e, from, next - 1) || AcceptedIn(world, e, next - 1, next)
  {
    if AcceptedIn(world, e, from, next) {
      var i :| 0 <= i < |world.chain| && SourceMatches(world.setup.src, world.chain[i])
               && from <= world.chain[i].blockNumber < next && Fate(world.setup, world.chain[i]) == H.Accepted(e);
      if world.chain[i].blockNumber < next - 1 {
        assert AcceptedIn(world, e, from, next - 1);
      } else {
        assert AcceptedIn(world, e, next - 1, next);
      }
    }
  }

  // ---------- where the rows of a run come from ----------

  ghost predicate Own(steps: seq<Step>) {
    forall i :: 0 <= i < |steps| ==> !steps[i].ForeignSave?
  }

  /**
   Every row is an accepted event of the chain at or below the highest safe block seen, and no round reaches above it.
   */
  ghost predicate Traced(world: World, s: State) {
    && (forall id :: id in s.db.events ==> FromChain(s.db.events[id].event, world.setup, world.chain, s.topSafe))
    && forall w :: 0 <= w < |s.scanners| ==>
         match s.scanners[w]
         case Observed(latest) => latest > world.cfg.confirmations ==> latest - world.cfg.confirmations <= s.topSafe
         case Scanning(_, _, safe, _, _) => safe <= s.topSafe
         case _ => true
  }

  lemma StepKeepsTraced(world: World, s: State, step: Step)
    requires Sound(world) && Inv(world, s) && Traced(world, s) && Enabled(s, step) && !step.ForeignSave?
    ensures Traced(world, Apply(world, s, step)) && s.topSafe <= Apply(world, s, step).topSafe
  {
    var t := Apply(world, s, step);
    if step.ProcessOne? {
      var sc := s.scanners[step.w];
      var job := sc.chunks[step.i];
      assert ScannerOk(world, Here(s), sc);
      assert job.to <= sc.safe;
      ProcessKeeps(s.db, world.setup, world.chain, job, step.attempt);
    }
    forall id | id in t.db.events ensures FromChain(t.db.events[id].event, world.setup, world.chain, t.topSafe) {
      if id in s.db.events {
        FromChainRises(t.db.events[id].event, world, s.topSafe, t.topSafe);
      } else {
        FromChainRises(t.db.events[id].event, world, s.scanners[step.w].chunks[step.i].to, t.topSafe);
      }
    }
  }

  lemma FromChainRises(e: EventEnvelope, world: World, a: int, b: int)
    requires FromChain(e, world.setup, world.chain, a) && a <= b
    ensures FromChain(e, world.setup, world.chain, b)
  {
    var i :| 0 <= i < |world.chain| && SourceMatches(world.setup.src, world.chain[i]) && world.chain[i].blockNumber <= a
             && Fate(world.setup, world.chain[i]) == H.Accepted(e);
  }

  lemma {:induction false} RunIsTraced(world: World, s: State, steps: seq<Step>, t: State)
    requires Sound(world) && Inv(world, s) && Traced(world, s) && Leads(world, s, steps, t) && Own(steps)
    ensures Inv(world, t) && Traced(world, t)
    decreases |steps|
  {
    if steps != [] {
      StepKeepsInv(world, s, steps[0]);
      StepKeepsTraced(world, s, steps[0]);
      assert Own(steps[1..]) by { assert forall i :: 0 <= i < |steps| - 1 ==> steps[1..][i] == steps[i + 1]; }
      RunIsTraced(world, Apply(world, s, steps[0]), steps[1..], t);
    }
  }

  // ---------- the theorems ----------

  /** The events of the rows whose block lies in from .. next-1; generated IDs are left out. */
  ghost function StoredEvents(db: Database, from: nat, next: nat): set<EventEnvelope> {
    set id | id in db.events && from <= db.events[id].event.blockNumber < next :: db.events[id].event
  }

  lemma AcceptedBlock(s: Setup, log: Log, e: EventEnvelope)
    requires Fate(s, log) == H.Accepted(e)
    ensures e.blockNumber == log.blockNumber
  {
    H.AcceptedMirrorsLog(s.pipeline, s.programs, s.batch, log);
  }

  /** A stored row with an accepted event's key is that event's row. */
  lemma StoredRowIsEvent(world: World, s: State, log: Log, e: EventEnvelope, id: int)
    requires Sound(world) && Traced(world, s) && log in world.chain && Fate(world.setup, log) == H.Accepted(e)
    requires id in s.db.events && s.db.events[id].event.eventKey == e.eventKey
    ensures s.db.events[id].event == e
  {
    var row := s.db.events[id].event;
    assert FromChain(row, world.setup, world.chain, s.topSafe);
    var i :| 0 <= i < |world.chain| && SourceMatches(world.setup.src, world.chain[i])
        && world.chain[i].blockNumber <= s.topSafe
             && Fate(world.setup, world.chain[i]) == H.Accepted(row);
    var j :| 0 <= j < |world.chain| && world.chain[j] == log;
    KeyFixesLog(world.setup, world.chain, i, j);
  }

  lemma StoredIsAccepted(world: World, s: State, from: nat, next: nat, e: EventEnvelope)
    requires Traced(world, s) && e in StoredEvents(s.db, from, next)
    ensures AcceptedIn(world, e, from, next)
  {
    var id :| id in s.db.events && from <= s.db.events[id].event.blockNumber < next && s.db.events[id].event == e;
    assert FromChain(e, world.setup, world.chain, s.topSafe);
    var i :| 0 <= i < |world.chain| && SourceMatches(world.setup.src, world.chain[i])
             && world.chain[i].blockNumber <= s.topSafe && Fate(world.setup, world.chain[i]) == H.Accepted(e);
    AcceptedBlock(world.setup, world.chain[i], e);
  }

  lemma AcceptedIsStored(world: World, s: State, from: nat, next: nat, e: EventEnvelope)
    requires Sound(world) && Inv(world, s) && Traced(world, s)
    requires HandledBetween(world, Here(s), from, next) && AcceptedIn(world, e, from, next)
    ensures e in StoredEvents(s.db, from, next)
  {
    var i :| 0 <= i < |world.chain| && SourceMatches(world.setup.src, world.chain[i])
             && from <= world.chain[i].blockNumber < next && Fate(world.setup, world.chain[i]) == H.Accepted(e);
    assert Handled(world, Here(s), world.chain[i]);
    var id :| id in s.db.events && s.db.events[id].event.eventKey == e.eventKey;
    StoredRowIsEvent(world, s, world.chain[i], e, id);
    AcceptedBlock(world.setup, world.chain[i], e);
  }

  lemma StoredAreAccepted(world: World, s: State, from: nat, next: nat, e: EventEnvelope)
    requires Sound(world) && Inv(world, s) && Traced(world, s)
    requires HandledBetween(world, Here(s), from, next)
    ensures e in StoredEvents(s.db, from, next) <==> AcceptedIn(world, e, from, next)
  {
    if e in StoredEvents(s.db, from, next) { StoredIsAccepted(world, s, from, next, e); }
    if AcceptedIn(world, e, from, next) { AcceptedIsStored(world, s, from, next, e); }
  }

  /** In every reachable state the rows below the cursor are exactly the events of the sequential scan. */
  lemma RefinesSequentialScan(world: World, scannerCount: nat, steps: seq<Step>, t: State)
    requires Sound(world) && Leads(world, Start(scannerCount), steps, t) && Own(steps) && t.cursor.Some?
    ensures var from, next := world.cfg.startBlock, t.cursor.value.nextBlock;
            var r := Sequential(world, from, next);
            r.Some? && forall e :: e in StoredEvents(t.db, from, next) <==> e in r.value
  {
    StartInv(world, scannerCount);
    RunIsTraced(world, Start(scannerCount), steps, t);
    var from, next := world.cfg.startBlock, t.cursor.value.nextBlock;
    assert HandledUpTo(world, Here(t), next);
    SequentialLaw(world, from, next);
    forall e ensures e in StoredEvents(t.db, from, next) <==> e in Sequential(world, from, next).value {
      StoredAreAccepted(world, t, from, next, e);
    }
  }

  /** No row is ever of a block above the highest safe block that any scanner observed. */
  lemma NothingAboveSafe(world: World, scannerCount: nat, steps: seq<Step>, t: State, id: int)
    requires Sound(world) && Leads(world, Start(scannerCount), steps, t) && Own(steps) && id in t.db.events
    ensures t.db.events[id].event.blockNumber <= t.topSafe
  {
    StartInv(world, scannerCount);
    RunIsTraced(world, Start(scannerCount), steps, t);
    var e := t.db.events[id].event;
    assert FromChain(e, world.setup, world.chain, t.topSafe);
    var i :| 0 <= i < |world.chain| && SourceMatches(world.setup.src, world.chain[i])
        && world.chain[i].blockNumber <= t.topSafe
             && Fate(world.setup, world.chain[i]) == H.Accepted(e);
    AcceptedBlock(world.setup, world.chain[i], e);
  }
}
