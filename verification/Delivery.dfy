/**
 Where the two step systems meet: what dispatchers do to the outbox is a step that Scan allows beside the scanners, and
 the rows that a save adds are the ones that Dispatch inserts.
 */
module Delivery {
  import opened Basics
  import opened Tables
  import opened Domain
  import ES = EventStore
  import Laws = EventStoreLaws
  import D = Dispatch
  import Scan

  // ---------- from the dispatchers to the scanners ----------

  lemma MessagesKept(a: map<int, OutboxRow>, b: map<int, OutboxRow>, c: map<int, OutboxRow>)
    requires OnlyDispatches(a, b) && OnlyDispatches(b, c)
    ensures OnlyDispatches(a, c)
  {
    forall id | id in a ensures SameMessage(a[id], c[id]) {
      assert SameMessage(a[id], b[id]) && SameMessage(b[id], c[id]);
    }
  }

  lemma MarkOnlyDispatches(setup: D.Setup, s: D.State, w: string)
    requires D.Inv(setup, s) && D.Enabled(setup, s, D.Mark(w))
    ensures OnlyDispatches(s.rows, D.Apply(setup, s, D.Mark(w)).rows)
  {
    D.EffectiveIsHeld(setup, s, w);
  }

  lemma StepOnlyDispatches(setup: D.Setup, s: D.State, step: D.Step)
    requires D.Inv(setup, s) && D.Enabled(setup, s, step) && !step.Insert?
    ensures OnlyDispatches(s.rows, D.Apply(setup, s, step).rows)
  {
    match step
    case Mark(w) => MarkOnlyDispatches(setup, s, w);
    case NoSender(w) => D.QueuedHasSender(setup, s, w);
    case _ =>
  }

  ghost predicate NoInserts(steps: seq<D.Step>) {
    forall i :: 0 <= i < |steps| ==> !steps[i].Insert?
  }

  /** Any run of the dispatchers is one step that Scan allows, whatever the scanners are at. */
  lemma {:induction false} RunOnlyDispatches(setup: D.Setup, s: D.State, steps: seq<D.Step>, t: D.State)
    requires D.SetupOk(setup) && D.Inv(setup, s) && D.Leads(setup, s, steps, t) && NoInserts(steps)
    ensures OnlyDispatches(s.rows, t.rows)
    decreases |steps|
  {
    if steps != [] {
      var u := D.Apply(setup, s, steps[0]);
      StepOnlyDispatches(setup, s, steps[0]);
      D.StepKeepsInv(setup, s, steps[0]);
      RunOnlyDispatches(setup, u, steps[1..], t);
      MessagesKept(s.rows, u.rows, t.rows);
    }
  }

  lemma DispatchersRunBesideScanners(setup: D.Setup, s: D.State, steps: seq<D.Step>, t: D.State, world: Scan.World,
                                     u: Scan.State)
    requires D.SetupOk(setup) && D.Inv(setup, s) && D.Leads(setup, s, steps, t) && NoInserts(steps)
    requires u.db.outbox == s.rows
    ensures Scan.Enabled(u, Scan.Dispatch(t.rows)) && Scan.Honest(world, u, Scan.Dispatch(t.rows))
    ensures Scan.Apply(world, u, Scan.Dispatch(t.rows)).db.outbox == t.rows
  {
    RunOnlyDispatches(setup, s, steps, t);
  }

  // ---------- from the scanners to the dispatchers ----------

  /** A row as a save adds it: new, due at once, under its own key. */
  predicate Added(r: OutboxRow, id: int, now: int) {
    D.NewRow(r) && r.id == id && r.nextRetryAt == now
  }

  lemma {:induction false} InsertedRowsAreNew(t: map<int, OutboxRow>, rows: seq<OutboxRow>, now: int)
    requires ES.InsertOutbox(t, rows).Ok?
    requires forall i :: 0 <= i < |rows| ==> Added(rows[i], rows[i].id, now)
    ensures var t' := ES.InsertOutbox(t, rows).value;
            forall id :: id in t' && id !in t ==> Added(t'[id], id, now)
  {
    if rows != [] { InsertedRowsAreNew(t, rows[..|rows| - 1], now); }
  }

  lemma PlannedRowsAreNew(rows: seq<OutboxRow>, t: map<int, ChainEvent>, planner: ES.Planner, es: seq<EventEnvelope>,
                          ids: seq<int>, now: int)
    requires ES.PlanOutbox(t, planner, es, ids, now) == Ok(rows)
    ensures forall i :: 0 <= i < |rows| ==> Added(rows[i], rows[i].id, now)
  {
    Laws.PlanOutboxLaw(t, planner, es, ids, now);
    forall i | 0 <= i < |rows| ensures Added(rows[i], rows[i].id, now) {
      assert Laws.PlanRowOk(rows[i], t, planner, es, now);
    }
  }

  /** Every row that a save adds to the outbox is one that Dispatch may insert. */
  lemma SavedRowsAreInserts(db: Database, planner: Option<ES.Planner>, es: seq<EventEnvelope>, ids: seq<int>, now: int,
                            done: nat -> bool, setup: D.Setup, s: D.State)
    requires s.rows == db.outbox
    ensures var outbox := ES.Save(db, planner, es, ids, now, done).0.outbox;
            forall id :: id in outbox && id !in s.rows
                         ==> D.Enabled(setup, s, D.Insert(outbox[id])) && outbox[id].nextRetryAt == now
  {
    var unique := ES.Dedupe(es);
    var built := ES.BuildRows(unique, ids, done);
    if built.Ok? && planner.Some? {
      var events := ES.InsertEvents(db.events, built.value);
      var plan := ES.PlanOutbox(events, planner.value, unique, ids[|unique|..], now);
      if plan.Ok? && ES.InsertOutbox(db.outbox, plan.value).Ok? {
        PlannedRowsAreNew(plan.value, events, planner.value, unique, ids[|unique|..], now);
        InsertedRowsAreNew(db.outbox, plan.value, now);
      }
    }
  }
}
