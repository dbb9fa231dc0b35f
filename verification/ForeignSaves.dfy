/**
 Scanners beside other writers of chain_events.  The event key names chain,
 transaction and log index but not the monitor, so another monitor that matches
 the same log competes for the row.  Whoever comes first keeps it.
 */
module ForeignSaves {
  import opened Basics
  import opened Domain
  import opened Source
  import opened Tables
  import opened Ingest
  import opened IngestLaws
  import opened Scan
  import opened Refinement
  import H = Handler
  import ES = EventStore
  import Laws = EventStoreLaws

  // ---------- who owns a key ----------

  /** The key of e has a row with another event. */
  predicate Taken(db: Database, e: EventEnvelope) {
    exists id :: id in db.events && db.events[id].event.eventKey == e.eventKey && db.events[id].event != e
  }

  /** The event has its own row. */
  predicate HasRow(db: Database, e: EventEnvelope) {
    exists id :: id in db.events && db.events[id].event == e
  }

  /** The foreign save finds the key free and leaves another event under it. */
  ghost predicate TakesKey(world: World, s: State, step: Step, e: EventEnvelope)
    requires Enabled(s, step)
  {
    step.ForeignSave? && !ES.HasKey(s.db.events, e.eventKey) && Taken(Apply(world, s, step).db, e)
  }

  /** Some foreign save of the run takes the key. */
  ghost predicate TakenInRun(world: World, s: State, steps: seq<Step>, t: State, e: EventEnvelope)
    requires Leads(world, s, steps, t)
    decreases |steps|
  {
    steps != [] && (TakesKey(world, s, steps[0], e) || TakenInRun(world, Apply(world, s, steps[0]), steps[1..], t, e))
  }

  /** e is what the handler makes of a configured log of the chain. */
  ghost predicate Configured(world: World, e: EventEnvelope) {
    exists i :: 0 <= i < |world.chain| && SourceMatches(world.setup.src, world.chain[i])
                && Fate(world.setup, world.chain[i]) == H.Accepted(e)
  }

  /** Two configured events with one key are the same event. */
  lemma ConfiguredKeyIsUnique(world: World, a: EventEnvelope, b: EventEnvelope)
    requires Sound(world) && Configured(world, a) && Configured(world, b) && a.eventKey == b.eventKey
    ensures a == b
  {
    var i :| 0 <= i < |world.chain| && SourceMatches(world.setup.src, world.chain[i])
             && Fate(world.setup, world.chain[i]) == H.Accepted(a);
    var j :| 0 <= j < |world.chain| && SourceMatches(world.setup.src, world.chain[j])
             && Fate(world.setup, world.chain[j]) == H.Accepted(b);
    KeyFixesLog(world.setup, world.chain, i, j);
  }

  lemma FromChainIsConfigured(world: World, e: EventEnvelope, top: int)
    requires FromChain(e, world.setup, world.chain, top)
    ensures Configured(world, e)
  {
  }

  lemma TakenStays(db: Database, db': Database, e: EventEnvelope)
    requires Grows(db, db') && Taken(db, e)
    ensures Taken(db', e)
  {
    var id :| id in db.events && db.events[id].event.eventKey == e.eventKey && db.events[id].event != e;
    assert db'.events[id] == db.events[id];
  }

  lemma StepGrows(world: World, s: State, step: Step)
    requires Sound(world) && Inv(world, s) && Enabled(s, step) && Honest(world, s, step)
    ensures Grows(s.db, Apply(world, s, step).db) && Laws.DatabaseOk(Apply(world, s, step).db)
  {
    StepKeepsInv(world, s, step);
    match step
    case ProcessOne(w, i, attempt) => ProcessKeeps(s.db, world.setup, world.chain, s.scanners[w].chunks[i], attempt);
    case ForeignSave(b, planner) => Laws.SaveKeepsDatabase(s.db, planner, b.es, b.ids, b.now, b.done);
    case _ =>
  }

  /** Our own steps never put another event under a configured key. */
  lemma OwnStepsTakeNothing(world: World, s: State, step: Step, e: EventEnvelope, id: int)
    requires Sound(world) && Inv(world, s) && Enabled(s, step) && Honest(world, s, step) && !step.ForeignSave?
    requires Configured(world, e) && id in Apply(world, s, step).db.events && id !in s.db.events
    requires Apply(world, s, step).db.events[id].event.eventKey == e.eventKey
    ensures Apply(world, s, step).db.events[id].event == e
  {
    assert step.ProcessOne?;
    var job := s.scanners[step.w].chunks[step.i];
    ProcessKeeps(s.db, world.setup, world.chain, job, step.attempt);
    FromChainIsConfigured(world, Apply(world, s, step).db.events[id].event, job.to);
    ConfiguredKeyIsUnique(world, Apply(world, s, step).db.events[id].event, e);
  }

  /** One step: a configured key is taken afterwards exactly when it was before or this foreign save took it. */
  lemma StepTakes(world: World, s: State, step: Step, e: EventEnvelope)
    requires Sound(world) && Inv(world, s) && Enabled(s, step) && Honest(world, s, step) && Configured(world, e)
    ensures Taken(Apply(world, s, step).db, e) <==> Taken(s.db, e) || TakesKey(world, s, step, e)
  {
    StepGrows(world, s, step);
    var db' := Apply(world, s, step).db;
    if Taken(s.db, e) {
      TakenStays(s.db, db', e);
    } else if Taken(db', e) {
      var id :| id in db'.events && db'.events[id].event.eventKey == e.eventKey && db'.events[id].event != e;
      assert id !in s.db.events;
      if !step.ForeignSave? {
        OwnStepsTakeNothing(world, s, step, e, id);
      } else {
        NewKeyWasFree(s.db, db', id);
      }
    }
  }

  /** Sound tables have one row per key. */
  lemma OneRowPerKey(db: Database, a: int, b: int)
    requires Laws.DatabaseOk(db) && a in db.events && b in db.events
    requires db.events[a].event.eventKey == db.events[b].event.eventKey
    ensures a == b
  {
  }

  /** The key of a new row was free before. */
  lemma NewKeyWasFree(db: Database, db': Database, id: int)
    requires Grows(db, db') && Laws.DatabaseOk(db') && id in db'.events && id !in db.events
    ensures !ES.HasKey(db.events, db'.events[id].event.eventKey)
  {
    if ES.HasKey(db.events, db'.events[id].event.eventKey) {
      var prior :| prior in db.events && db.events[prior].event.eventKey == db'.events[id].event.eventKey;
      OneRowPerKey(db', prior, id);
    }
  }

  lemma {:induction false} RunTakes(world: World, s: State, steps: seq<Step>, t: State, e: EventEnvelope)
    requires Sound(world) && Inv(world, s) && Leads(world, s, steps, t) && Configured(world, e)
    ensures Taken(t.db, e) <==> Taken(s.db, e) || TakenInRun(world, s, steps, t, e)
    decreases |steps|
  {
    if steps != [] {
      StepKeepsInv(world, s, steps[0]);
      StepTakes(world, s, steps[0], e);
      RunTakes(world, Apply(world, s, steps[0]), steps[1..], t, e);
    }
  }

  /** A key has one row, ours or another's. */
  lemma OneOwner(db: Database, e: EventEnvelope)
    requires Laws.DatabaseOk(db) && ES.HasKey(db.events, e.eventKey)
    ensures HasRow(db, e) <==> !Taken(db, e)
  {
    if HasRow(db, e) && Taken(db, e) {
      var a :| a in db.events && db.events[a].event == e;
      var b :| b in db.events && db.events[b].event.eventKey == e.eventKey && db.events[b].event != e;
      OneRowPerKey(db, a, b);
    }
  }

  /** Below the cursor an accepted event has its own row exactly when no foreign save of the run took its key first. */
  lemma StoredAsOursIff(world: World, scannerCount: nat, steps: seq<Step>, t: State, log: Log, e: EventEnvelope)
    requires Sound(world) && Leads(world, Start(scannerCount), steps, t)
    requires log in world.chain && SourceMatches(world.setup.src, log) && Fate(world.setup, log) == H.Accepted(e)
    requires t.cursor.Some? && world.cfg.startBlock <= log.blockNumber < t.cursor.value.nextBlock
    ensures HasRow(t.db, e) <==> !TakenInRun(world, Start(scannerCount), steps, t, e)
  {
    NoLoss(world, scannerCount, steps, t, log);
    StartInv(world, scannerCount);
    LeadsKeepsInv(world, Start(scannerCount), steps, t);
    var i :| 0 <= i < |world.chain| && world.chain[i] == log;
    assert Configured(world, e);
    RunTakes(world, Start(scannerCount), steps, t, e);
    OneOwner(t.db, e);
  }

  // ---------- refinement beside foreign saves ----------

  /** Some accepted event of these blocks has the key. */
  ghost predicate OurKey(world: World, key: string, from: nat, next: nat) {
    exists i :: 0 <= i < |world.chain| && SourceMatches(world.setup.src, world.chain[i])
                && from <= world.chain[i].blockNumber < next
                && Fate(world.setup, world.chain[i]).Accepted?
                   && Fate(world.setup, world.chain[i]).event.eventKey == key
  }

  /** The events of the rows under our keys. */
  ghost function RowsUnderOurKeys(world: World, db: Database, from: nat, next: nat): set<EventEnvelope> {
    set id | id in db.events && OurKey(world, db.events[id].event.eventKey, from, next) :: db.events[id].event
  }

  /** The rows under our keys are exactly the events of the sequential scan. */
  ghost predicate Refines(world: World, db: Database, from: nat, next: nat) {
    var r := Sequential(world, from, next);
    r.Some? && forall e :: e in RowsUnderOurKeys(world, db, from, next) <==> e in r.value
  }

  ghost predicate NoneTaken(world: World, db: Database, from: nat, next: nat) {
    forall e :: AcceptedIn(world, e, from, next) ==> !Taken(db, e)
  }

  lemma AcceptedIsConfigured(world: World, e: EventEnvelope, from: nat, next: nat)
    requires AcceptedIn(world, e, from, next)
    ensures Configured(world, e) && OurKey(world, e.eventKey, from, next)
  {
  }

  lemma OurKeyHasEvent(world: World, key: string, from: nat, next: nat) returns (e: EventEnvelope)
    requires OurKey(world, key, from, next)
    ensures AcceptedIn(world, e, from, next) && e.eventKey == key
  {
    var i :| 0 <= i < |world.chain| && SourceMatches(world.setup.src, world.chain[i])
             && from <= world.chain[i].blockNumber < next
             && Fate(world.setup, world.chain[i]).Accepted? && Fate(world.setup, world.chain[i]).event.eventKey == key;
    e := Fate(world.setup, world.chain[i]).event;
  }

  lemma HandledHasKey(world: World, p: Progress, e: EventEnvelope, from: nat, next: nat)
    requires HandledBetween(world, p, from, next) && AcceptedIn(world, e, from, next)
    ensures ES.HasKey(p.db.events, e.eventKey)
  {
    var i :| 0 <= i < |world.chain| && SourceMatches(world.setup.src, world.chain[i])
             && from <= world.chain[i].blockNumber < next && Fate(world.setup, world.chain[i]) == H.Accepted(e);
    assert Handled(world, p, world.chain[i]);
  }

  lemma HandledIsProcessable(world: World, p: Progress, from: nat, next: nat)
    requires HandledBetween(world, p, from, next)
    ensures Processable(world, from, next)
  {
    forall i | 0 <= i < |world.chain| && SourceMatches(world.setup.src, world.chain[i])
               && from <= world.chain[i].blockNumber < next
      ensures !Fate(world.setup, world.chain[i]).Fatal?
    {
      assert Handled(world, p, world.chain[i]);
    }
  }

  lemma RowsAreAccepted(world: World, p: Progress, from: nat, next: nat, e: EventEnvelope)
    requires Sound(world) && Laws.DatabaseOk(p.db) && HandledBetween(world, p, from, next)
             && NoneTaken(world, p.db, from, next)
    ensures e in RowsUnderOurKeys(world, p.db, from, next) <==> AcceptedIn(world, e, from, next)
  {
    if e in RowsUnderOurKeys(world, p.db, from, next) {
      var id :| id in p.db.events && OurKey(world, p.db.events[id].event.eventKey, from, next)
          && p.db.events[id].event == e;
      var own := OurKeyHasEvent(world, e.eventKey, from, next);
      assert !Taken(p.db, own);
    }
    if AcceptedIn(world, e, from, next) {
      HandledHasKey(world, p, e, from, next);
      AcceptedIsConfigured(world, e, from, next);
      OneOwner(p.db, e);
      var id :| id in p.db.events && p.db.events[id].event == e;
    }
  }

  lemma TakenRowIsNotAccepted(world: World, db: Database, from: nat, next: nat, e: EventEnvelope)
    returns (f: EventEnvelope)
    requires Sound(world) && AcceptedIn(world, e, from, next) && Taken(db, e)
    ensures f in RowsUnderOurKeys(world, db, from, next) && !AcceptedIn(world, f, from, next)
  {
    var id :| id in db.events && db.events[id].event.eventKey == e.eventKey && db.events[id].event != e;
    f := db.events[id].event;
    AcceptedIsConfigured(world, e, from, next);
    if AcceptedIn(world, f, from, next) {
      AcceptedIsConfigured(world, f, from, next);
      ConfiguredKeyIsUnique(world, e, f);
    }
  }

  /** Where everything is handled, the tables refine the sequential scan exactly when none of our keys is taken. */
  lemma RefinesIffNoneTaken(world: World, p: Progress, from: nat, next: nat)
    requires Sound(world) && Laws.DatabaseOk(p.db) && HandledBetween(world, p, from, next)
    ensures Refines(world, p.db, from, next) <==> NoneTaken(world, p.db, from, next)
  {
    HandledIsProcessable(world, p, from, next);
    SequentialLaw(world, from, next);
    if NoneTaken(world, p.db, from, next) {
      forall e ensures e in RowsUnderOurKeys(world, p.db, from, next) <==> e in Sequential(world, from, next).value {
        RowsAreAccepted(world, p, from, next, e);
      }
    } else {
      var e :| AcceptedIn(world, e, from, next) && Taken(p.db, e);
      var f := TakenRowIsNotAccepted(world, p.db, from, next, e);
      assert f !in Sequential(world, from, next).value;
    }
  }

  /** In every reachable state the tables are sound and everything below the cursor is handled. */
  lemma BelowCursor(world: World, scannerCount: nat, steps: seq<Step>, t: State)
    requires Sound(world) && Leads(world, Start(scannerCount), steps, t) && t.cursor.Some?
    ensures Laws.DatabaseOk(t.db) && HandledBetween(world, Here(t), world.cfg.startBlock, t.cursor.value.nextBlock)
  {
    StartInv(world, scannerCount);
    LeadsKeepsInv(world, Start(scannerCount), steps, t);
  }

  /** A taken key means no row for our event and no refinement. */
  lemma TakenIsNotRefined(world: World, p: Progress, from: nat, next: nat, e: EventEnvelope)
    requires Sound(world) && Laws.DatabaseOk(p.db) && HandledBetween(world, p, from, next)
    requires AcceptedIn(world, e, from, next) && Taken(p.db, e)
    ensures !HasRow(p.db, e) && !Refines(world, p.db, from, next)
  {
    HandledHasKey(world, p, e, from, next);
    OneOwner(p.db, e);
    RefinesIffNoneTaken(world, p, from, next);
  }

  lemma TakenRunFails(world: World, scannerCount: nat, steps: seq<Step>, t: State, e: EventEnvelope)
    requires Sound(world) && Leads(world, Start(scannerCount), steps, t) && t.cursor.Some? && Taken(t.db, e)
    requires AcceptedIn(world, e, world.cfg.startBlock, t.cursor.value.nextBlock)
    ensures !HasRow(t.db, e) && !Refines(world, t.db, world.cfg.startBlock, t.cursor.value.nextBlock)
  {
    BelowCursor(world, scannerCount, steps, t);
    TakenIsNotRefined(world, Here(t), world.cfg.startBlock, t.cursor.value.nextBlock, e);
  }

  /**
   Beside any foreign saves, the rows under our keys below the cursor are those of the sequential scan exactly when no
   foreign save of the run took one of these keys first.
   */
  lemma RefinesBesideOthersIff(world: World, scannerCount: nat, steps: seq<Step>, t: State)
    requires Sound(world) && Leads(world, Start(scannerCount), steps, t) && t.cursor.Some?
    ensures var from, next := world.cfg.startBlock, t.cursor.value.nextBlock;
            Refines(world, t.db, from, next)
            <==> forall e :: AcceptedIn(world, e, from, next) ==> !TakenInRun(world, Start(scannerCount), steps, t, e)
  {
    var from, next := world.cfg.startBlock, t.cursor.value.nextBlock;
    StartInv(world, scannerCount);
    LeadsKeepsInv(world, Start(scannerCount), steps, t);
    assert HandledUpTo(world, Here(t), next);
    RefinesIffNoneTaken(world, Here(t), from, next);
    forall e | AcceptedIn(world, e, from, next)
      ensures Taken(t.db, e) <==> TakenInRun(world, Start(scannerCount), steps, t, e)
    {
      AcceptedIsConfigured(world, e, from, next);
      RunTakes(world, Start(scannerCount), steps, t, e);
    }
  }

  // ---------- which foreign saves take a key ----------

  /**
   A foreign save of one event takes our key exactly when the key is free and a different, storable event comes under it
   with a free ID.
   */
  lemma ForeignTakesIff(world: World, s: State, f: EventEnvelope, id: int, now: int, done: nat -> bool,
                        e: EventEnvelope)
    requires Inv(world, s) && Laws.WellKeyed(f)
    ensures TakesKey(world, s, ForeignSave(Laws.Batch([f], [id], now, done), None), e)
            <==> && !ES.HasKey(s.db.events, e.eventKey) && f.eventKey == e.eventKey && f != e
                 && !done(0) && ES.Storable(id, f) && id !in s.db.events
  {
    var row := ChainEvent(id, f);
    Laws.SaveOne(s.db, f, id, now, done);
    if ES.Storable(id, f) { Laws.ConflictIsIdOrKey(s.db.events, row); }
    if !done(0) && ES.Storable(id, f) && !ES.Conflicts(s.db.events, row) {
      var db' := Database(s.db.events[id := row], s.db.outbox);
      assert db'.events[id].event == f;
      if Taken(db', e) && !ES.HasKey(s.db.events, e.eventKey) {
        var x :| x in db'.events && db'.events[x].event.eventKey == e.eventKey && db'.events[x].event != e;
        assert x == id;
      }
    }
  }

  /** The foreign events of a run are among these. */
  predicate ForeignAmong(steps: seq<Step>, others: set<EventEnvelope>) {
    forall i :: 0 <= i < |steps| && steps[i].ForeignSave? ==> forall f :: f in steps[i].batch.es ==> f in others
  }

  /** Every storable foreign event that shares a key with one of ours is ours. */
  ghost predicate OthersAgree(world: World, others: set<EventEnvelope>) {
    forall f, e | f in others && Laws.WellKeyed(f) && ES.Storable(1, f) && Configured(world, e)
      :: f.eventKey == e.eventKey ==> f == e
  }

  /** A row that a foreign save adds is a storable event of its batch. */
  lemma ForeignRow(world: World, s: State, step: Step, id: int)
    requires Sound(world) && Inv(world, s) && Enabled(s, step) && Honest(world, s, step) && step.ForeignSave?
    requires id in Apply(world, s, step).db.events && id !in s.db.events
    ensures var f := Apply(world, s, step).db.events[id].event;
            f in step.batch.es && Laws.WellKeyed(f) && ES.Storable(1, f)
  {
    StepGrows(world, s, step);
    Laws.NewEventsAreOfBatch(s.db, step.planner, step.batch.es, step.batch.ids, step.batch.now, step.batch.done, id);
    assert Laws.EventOk(id, Apply(world, s, step).db.events[id]);
  }

  /** What a save puts under our key is a storable event of its batch and not ours. */
  lemma Taker(world: World, s: State, step: Step, e: EventEnvelope) returns (f: EventEnvelope)
    requires Sound(world) && Inv(world, s) && Enabled(s, step) && Honest(world, s, step) && TakesKey(world, s, step, e)
    ensures f in step.batch.es && Laws.WellKeyed(f) && ES.Storable(1, f) && f.eventKey == e.eventKey && f != e
  {
    var db' := Apply(world, s, step).db;
    var id :| id in db'.events && db'.events[id].event.eventKey == e.eventKey && db'.events[id].event != e;
    f := db'.events[id].event;
    if id in s.db.events {
      StepGrows(world, s, step);
    }
    ForeignRow(world, s, step, id);
  }

  lemma TakerIsForeign(world: World, s: State, step: Step, others: set<EventEnvelope>, e: EventEnvelope)
    requires Sound(world) && Inv(world, s) && Enabled(s, step) && Honest(world, s, step) && Configured(world, e)
    requires OthersAgree(world, others) && (step.ForeignSave? ==> forall f :: f in step.batch.es ==> f in others)
    ensures !TakesKey(world, s, step, e)
  {
    if TakesKey(world, s, step, e) {
      var f := Taker(world, s, step, e);
    }
  }

  lemma {:induction false} AgreeingRunTakesNothing(world: World, s: State, steps: seq<Step>, t: State,
                                                   others: set<EventEnvelope>, e: EventEnvelope)
    requires Sound(world) && Inv(world, s) && Leads(world, s, steps, t) && Configured(world, e)
    requires ForeignAmong(steps, others) && OthersAgree(world, others)
    ensures !TakenInRun(world, s, steps, t, e)
    decreases |steps|
  {
    if steps != [] {
      TakerIsForeign(world, s, steps[0], others, e);
      StepKeepsInv(world, s, steps[0]);
      AgreeingRunTakesNothing(world, Apply(world, s, steps[0]), steps[1..], t, others, e);
    }
  }

  /** No run with these foreign events takes any of our keys. */
  ghost predicate NeverTaken(world: World, scannerCount: nat, others: set<EventEnvelope>) {
    forall steps: seq<Step>, t: State, e: EventEnvelope ::
      Leads(world, Start(scannerCount), steps, t) && ForeignAmong(steps, others) && Configured(world, e)
      ==> !TakenInRun(world, Start(scannerCount), steps, t, e)
  }

  function Nothing(): nat -> bool {
    (i: nat) => false
  }

  /** One save that takes the key. */
  lemma TakingRun(world: World, scannerCount: nat, f: EventEnvelope, e: EventEnvelope)
    requires Laws.WellKeyed(f) && ES.Storable(1, f) && f.eventKey == e.eventKey && f != e
    ensures var step := ForeignSave(Laws.Batch([f], [1], 0, Nothing()), None);
            var t := Apply(world, Start(scannerCount), step);
            Leads(world, Start(scannerCount), [step], t) && TakenInRun(world, Start(scannerCount), [step], t, e)
  {
    var step := ForeignSave(Laws.Batch([f], [1], 0, Nothing()), None);
    StartInv(world, scannerCount);
    ForeignTakesIff(world, Start(scannerCount), f, 1, 0, Nothing(), e);
    var t := Apply(world, Start(scannerCount), step);
    assert [step][1..] == [] && Leads(world, t, [], t);
  }

  lemma AgreeingIsNeverTaken(world: World, scannerCount: nat, others: set<EventEnvelope>)
    requires Sound(world) && OthersAgree(world, others)
    ensures NeverTaken(world, scannerCount, others)
  {
    StartInv(world, scannerCount);
    forall steps: seq<Step>, t: State, e: EventEnvelope
      | Leads(world, Start(scannerCount), steps, t) && ForeignAmong(steps, others) && Configured(world, e)
      ensures !TakenInRun(world, Start(scannerCount), steps, t, e)
    {
      AgreeingRunTakesNothing(world, Start(scannerCount), steps, t, others, e);
    }
  }

  lemma DisagreeingTakes(world: World, scannerCount: nat, others: set<EventEnvelope>, f: EventEnvelope,
                         e: EventEnvelope)
    requires f in others && Laws.WellKeyed(f) && ES.Storable(1, f) && Configured(world, e) && f.eventKey == e.eventKey
             && f != e
    ensures !NeverTaken(world, scannerCount, others)
  {
    TakingRun(world, scannerCount, f, e);
    var step := ForeignSave(Laws.Batch([f], [1], 0, Nothing()), None);
    assert ForeignAmong([step], others);
  }

  /** Our keys are safe in every run exactly when the storable foreign events that share one are our own events. */
  lemma NeverTakenIff(world: World, scannerCount: nat, others: set<EventEnvelope>)
    requires Sound(world)
    ensures NeverTaken(world, scannerCount, others) <==> OthersAgree(world, others)
  {
    if OthersAgree(world, others) {
      AgreeingIsNeverTaken(world, scannerCount, others);
    } else {
      var f, e :| f in others && Laws.WellKeyed(f) && ES.Storable(1, f) && Configured(world, e)
          && f.eventKey == e.eventKey && f != e;
      DisagreeingTakes(world, scannerCount, others, f, e);
    }
  }
}
