/** What any sequence of SaveEvents calls does to the two tables. */
module EventStoreLaws {
  import opened Basics
  import opened Domain
  import opened EventKey
  import opened Tables
  import opened EventStore

  predicate WellKeyed(e: EventEnvelope) {
    e.eventKey == BuildEventKey(e.chainId, e.txHash, e.logIndex)
  }

  ghost predicate AllWellKeyed(es: seq<EventEnvelope>) {
    forall i :: 0 <= i < |es| ==> WellKeyed(es[i])
  }

  ghost predicate EventOk(id: int, r: ChainEvent) {
    r.id == id && Storable(id, r.event) && WellKeyed(r.event)
  }

  /** chain_events: sound rows, and no two rows share an ID, a key or a (chain, transaction, log index). */
  ghost predicate EventsOk(t: map<int, ChainEvent>) {
    && (forall id :: id in t ==> EventOk(id, t[id]))
    && (forall a, b :: a in t && b in t && a != b ==> !Clash(t[a], t[b]))
  }

  /** An outbox row and its message name the event row with their own key, and the row can be delivered. */
  ghost predicate OutboxRowOk(id: int, r: OutboxRow, events: map<int, ChainEvent>) {
    && r.id == id
    && r.eventId in events && events[r.eventId].event.eventKey == r.eventKey
    && r.payload.version == 1 && r.payload.eventId == r.eventId && r.payload.eventKey == r.eventKey
    && r.channel != "" && r.target != "" && r.messageType != "" && r.maxRetries >= 1
  }

  /** notification_outbox: sound rows, one per delivery. */
  ghost predicate OutboxOk(t: map<int, OutboxRow>, events: map<int, ChainEvent>) {
    && (forall id :: id in t ==> OutboxRowOk(id, t[id], events))
    && (forall a, b :: a in t && b in t && a != b ==> !SameDelivery(t[a], t[b]))
  }

  ghost predicate DatabaseOk(db: Database) {
    EventsOk(db.events) && OutboxOk(db.outbox, db.events)
  }

  /** Rows are never altered or removed. */
  ghost predicate Extends<R>(t: map<int, R>, t': map<int, R>) {
    forall id :: id in t ==> id in t' && t'[id] == t[id]
  }

  // ---------- event rows ----------

  /** For keyed rows the unique keys of chain_events coincide: a conflict is a used ID or a used key. */
  lemma ConflictIsIdOrKey(t: map<int, ChainEvent>, r: ChainEvent)
    requires EventsOk(t) && WellKeyed(r.event)
    ensures Conflicts(t, r) <==> r.id in t || HasKey(t, r.event.eventKey)
  {
    if id :| id in t && Clash(t[id], r) {
      assert EventOk(id, t[id]);
      var a, b := t[id].event, r.event;
      EventKeyInjective(a.chainId, a.txHash, a.logIndex, b.chainId, b.txHash, b.logIndex);
    }
    if r.id in t { assert Clash(t[r.id], r); }
    if HasKey(t, r.event.eventKey) {
      var id :| id in t && t[id].event.eventKey == r.event.eventKey;
      assert Clash(t[id], r);
    }
  }

  lemma InsertEventLaw(t: map<int, ChainEvent>, r: ChainEvent)
    requires EventsOk(t) && Storable(r.id, r.event) && WellKeyed(r.event)
    ensures var t' := InsertEvent(t, r);
            && EventsOk(t') && Extends(t, t')
            && (forall id :: id in t' && id !in t ==> t'[id] == r)
            && (HasKey(t', r.event.eventKey) <==> HasKey(t, r.event.eventKey) || r.id !in t)
  {
    ConflictIsIdOrKey(t, r);
    var t' := InsertEvent(t, r);
    if !Conflicts(t, r) {
      forall a, b | a in t' && b in t' && a != b ensures !Clash(t'[a], t'[b]) {
        if a == r.id { assert !Clash(t[b], r); } else if b == r.id { assert !Clash(t[a], r); }
      }
      assert t'[r.id].event.eventKey == r.event.eventKey;
    }
  }

  ghost predicate RowsOk(rows: seq<ChainEvent>) {
    forall i :: 0 <= i < |rows| ==> Storable(rows[i].id, rows[i].event) && WellKeyed(rows[i].event)
  }

  lemma {:induction false} InsertEventsLaw(t: map<int, ChainEvent>, rows: seq<ChainEvent>)
    requires EventsOk(t) && RowsOk(rows)
    ensures var t' := InsertEvents(t, rows);
            && EventsOk(t') && Extends(t, t')
            && (forall id :: id in t' && id !in t ==> exists k :: 0 <= k < |rows| && rows[k] == t'[id])
  {
    if rows != [] {
      var init, r := rows[..|rows| - 1], rows[|rows| - 1];
      InsertEventsLaw(t, init);
      var before := InsertEvents(t, init);
      InsertEventLaw(before, r);
      var t' := InsertEvents(t, rows);
      forall id | id in t' && id !in t ensures exists k :: 0 <= k < |rows| && rows[k] == t'[id] {
        if id in before {
          var k :| 0 <= k < |init| && init[k] == before[id];
          assert rows[k] == t'[id];
        } else {
          assert rows[|rows| - 1] == t'[id];
        }
      }
    }
  }

  lemma {:induction false} BuildRowsLaw(es: seq<EventEnvelope>, ids: seq<int>, done: nat -> bool)
    requires AllWellKeyed(es)
    ensures var r := BuildRows(es, ids, done);
            r.Ok? ==> && |r.value| == |es| <= |ids| && RowsOk(r.value)
                      && forall i :: 0 <= i < |es| ==> r.value[i] == ChainEvent(ids[i], es[i])
  {
    if es != [] { BuildRowsLaw(es[..|es| - 1], ids, done); }
  }

  // ---------- when every key is persisted ----------

  /** No drawn ID is taken by a stored row, or by an earlier new row of the same call. */
  ghost predicate FreshIds(t: map<int, ChainEvent>, es: seq<EventEnvelope>, ids: seq<int>)
    requires |es| <= |ids|
  {
    forall i :: 0 <= i < |es| && !HasKey(t, es[i].eventKey) ==>
                  && ids[i] !in t
                  && forall j :: 0 <= j < i && !HasKey(t, es[j].eventKey) ==> ids[j] != ids[i]
  }

  ghost predicate DistinctKeys(es: seq<EventEnvelope>) {
    forall i, j :: 0 <= i < j < |es| ==> es[i].eventKey != es[j].eventKey
  }

  ghost predicate AllPersisted(t: map<int, ChainEvent>, es: seq<EventEnvelope>) {
    forall i :: 0 <= i < |es| ==> HasKey(t, es[i].eventKey)
  }

  lemma ExtendsKeepsKey(t: map<int, ChainEvent>, t': map<int, ChainEvent>, key: string)
    requires Extends(t, t') && HasKey(t, key)
    ensures HasKey(t', key)
  {
    var id :| id in t && t[id].event.eventKey == key;
    assert t'[id].event.eventKey == key;
  }

  /** A key that is new after an insert belongs to an inserted row, whose ID is then taken. */
  lemma NewKeyHasRow(t: map<int, ChainEvent>, rows: seq<ChainEvent>, k: nat)
    requires EventsOk(t) && RowsOk(rows) && k < |rows|
    requires forall i, j :: 0 <= i < j < |rows| ==> rows[i].event.eventKey != rows[j].event.eventKey
    requires HasKey(InsertEvents(t, rows), rows[k].event.eventKey) && !HasKey(t, rows[k].event.eventKey)
    ensures rows[k].id in InsertEvents(t, rows) && InsertEvents(t, rows)[rows[k].id] == rows[k]
  {
    InsertEventsLaw(t, rows);
    var t' := InsertEvents(t, rows);
    var id :| id in t' && t'[id].event.eventKey == rows[k].event.eventKey;
    var j :| 0 <= j < |rows| && rows[j] == t'[id];
    assert EventOk(id, t'[id]);
  }

  /** A stored new row had a key that was not there before. */
  lemma NewRowHadNewKey(t: map<int, ChainEvent>, rows: seq<ChainEvent>, id: int)
    requires EventsOk(t) && RowsOk(rows)
    requires id in InsertEvents(t, rows) && id !in t
    ensures exists k :: 0 <= k < |rows| && rows[k] == InsertEvents(t, rows)[id] && !HasKey(t, rows[k].event.eventKey)
  {
    InsertEventsLaw(t, rows);
    var t' := InsertEvents(t, rows);
    var k :| 0 <= k < |rows| && rows[k] == t'[id];
    if HasKey(t, rows[k].event.eventKey) {
      var a :| a in t && t[a].event.eventKey == rows[k].event.eventKey;
      assert Clash(t'[a], t'[id]);
    }
  }

  ghost predicate RowsFor(rows: seq<ChainEvent>, es: seq<EventEnvelope>, ids: seq<int>) {
    && |rows| == |es| <= |ids|
    && forall i :: 0 <= i < |es| ==> rows[i] == ChainEvent(ids[i], es[i])
  }

  lemma PrefixFresh(t: map<int, ChainEvent>, es: seq<EventEnvelope>, rows: seq<ChainEvent>, ids: seq<int>, n: nat)
    requires RowsOk(rows) && RowsFor(rows, es, ids) && FreshIds(t, es, ids) && n <= |es|
    ensures RowsOk(rows[..n]) && RowsFor(rows[..n], es[..n], ids) && FreshIds(t, es[..n], ids)
  {
  }

  lemma PersistedSnoc(before: map<int, ChainEvent>, after: map<int, ChainEvent>, es: seq<EventEnvelope>, n: nat)
    requires |es| == n + 1 && AllPersisted(before, es[..n]) && Extends(before, after) && HasKey(after, es[n].eventKey)
    ensures AllPersisted(after, es)
  {
    forall i | 0 <= i < |es| ensures HasKey(after, es[i].eventKey) {
      if i < n {
        assert es[..n][i] == es[i];
        ExtendsKeepsKey(before, after, es[i].eventKey);
      }
    }
  }

  lemma {:induction false} FreshPersists(t: map<int, ChainEvent>, es: seq<EventEnvelope>, rows: seq<ChainEvent>,
                                         ids: seq<int>)
    requires EventsOk(t) && RowsOk(rows) && RowsFor(rows, es, ids) && FreshIds(t, es, ids)
    ensures AllPersisted(InsertEvents(t, rows), es)
  {
    if es != [] {
      var n := |es| - 1;
      var before := InsertEvents(t, rows[..n]);
      PrefixFresh(t, es, rows, ids, n);
      FreshPersists(t, es[..n], rows[..n], ids);
      InsertEventsLaw(t, rows[..n]);
      LastIsFree(t, es, rows, ids, n);
      InsertEventLaw(before, rows[n]);
      PersistedSnoc(before, InsertEvent(before, rows[n]), es, n);
    }
  }

  lemma LastIsFree(t: map<int, ChainEvent>, es: seq<EventEnvelope>, rows: seq<ChainEvent>, ids: seq<int>, n: nat)
    requires EventsOk(t) && RowsOk(rows) && RowsFor(rows, es, ids) && FreshIds(t, es, ids) && |es| == n + 1
    ensures var before := InsertEvents(t, rows[..n]);
            HasKey(before, es[n].eventKey) || ids[n] !in before
  {
    var before := InsertEvents(t, rows[..n]);
    InsertEventsLaw(t, rows[..n]);
    if HasKey(t, es[n].eventKey) {
      ExtendsKeepsKey(t, before, es[n].eventKey);
    } else if ids[n] in before {
      NewRowHadNewKey(t, rows[..n], ids[n]);
    }
  }

  lemma PersistedIsFresh(t: map<int, ChainEvent>, es: seq<EventEnvelope>, rows: seq<ChainEvent>, ids: seq<int>)
    requires EventsOk(t) && RowsOk(rows) && RowsFor(rows, es, ids) && DistinctKeys(es)
    requires AllPersisted(InsertEvents(t, rows), es)
    ensures FreshIds(t, es, ids)
  {
    InsertEventsLaw(t, rows);
    var t' := InsertEvents(t, rows);
    forall i, j | 0 <= i < j < |rows| ensures rows[i].event.eventKey != rows[j].event.eventKey {
      assert es[i].eventKey != es[j].eventKey;
    }
    forall i | 0 <= i < |es| && !HasKey(t, es[i].eventKey)
      ensures ids[i] !in t && forall j :: 0 <= j < i && !HasKey(t, es[j].eventKey) ==> ids[j] != ids[i]
    {
      NewKeyHasRow(t, rows, i);
      forall j | 0 <= j < i && !HasKey(t, es[j].eventKey) ensures ids[j] != ids[i] {
        NewKeyHasRow(t, rows, j);
      }
    }
  }

  // ---------- deduplication in memory ----------

  ghost predicate DedupeOf(out: seq<EventEnvelope>, es: seq<EventEnvelope>) {
    && (forall k :: 0 <= k < |out| ==> out[k] in es)
    && (forall i :: 0 <= i < |es| ==> HasEventKey(out, es[i].eventKey))
  }

  lemma DedupeStep(before: seq<EventEnvelope>, es: seq<EventEnvelope>, e: EventEnvelope, out: seq<EventEnvelope>)
    requires DedupeOf(before, es)
    requires out == (if HasEventKey(before, e.eventKey) then before else before + [e])
    ensures DedupeOf(out, es + [e])
  {
    var all := es + [e];
    forall i | 0 <= i < |all| ensures HasEventKey(out, all[i].eventKey) {
      if i < |es| {
        assert HasEventKey(before, es[i].eventKey);
        var k :| 0 <= k < |before| && before[k].eventKey == es[i].eventKey;
        assert out[k] == before[k];
      } else if !HasEventKey(before, e.eventKey) {
        assert out[|before|] == e;
      }
    }
  }

  lemma DistinctSnoc(before: seq<EventEnvelope>, e: EventEnvelope)
    requires DistinctKeys(before) && !HasEventKey(before, e.eventKey)
    ensures DistinctKeys(before + [e])
  {
  }

  lemma {:induction false} DedupeLaw(es: seq<EventEnvelope>)
    requires AllWellKeyed(es)
    ensures AllWellKeyed(Dedupe(es)) && DistinctKeys(Dedupe(es)) && DedupeOf(Dedupe(es), es)
  {
    if es != [] {
      var n := |es| - 1;
      DedupeLaw(es[..n]);
      assert es == es[..n] + [es[n]] && WellKeyed(es[n]);
      DedupeStep(Dedupe(es[..n]), es[..n], es[n], Dedupe(es));
      if !HasEventKey(Dedupe(es[..n]), es[n].eventKey) {
        DistinctSnoc(Dedupe(es[..n]), es[n]);
      }
    }
  }

  // ---------- outbox rows ----------

  /** The row delivers this event on this route. */
  predicate Delivers(row: OutboxRow, e: EventEnvelope, route: NotificationRoute) {
    var r := Normalize(route, e);
    row.eventKey == e.eventKey && row.channel == r.channel && row.target == r.target && row.messageType == r.messageType
  }

  /** The row is a fresh one for this event and this route. */
  predicate FreshRow(row: OutboxRow, eventId: int, e: EventEnvelope, route: NotificationRoute, now: int) {
    Complete(Normalize(route, e)) && row == OutboxRowFor(row.id, eventId, e, Normalize(route, e), now)
  }

  lemma AddRoutesStep(acc: seq<OutboxRow>, eventId: int, e: EventEnvelope, routes: seq<NotificationRoute>,
                      ids: seq<int>, now: int)
    requires routes != [] && AddRoutes(acc, eventId, e, routes, ids, now).Ok?
    ensures var before := AddRoutes(acc, eventId, e, routes[..|routes| - 1], ids, now);
            && before.Ok?
            && exists row :: AddRoutes(acc, eventId, e, routes, ids, now) == Ok(before.value + [row])
                             && FreshRow(row, eventId, e, routes[|routes| - 1], now)
  {
    var before := AddRoutes(acc, eventId, e, routes[..|routes| - 1], ids, now);
    var row := OutboxRowFor(ids[|before.value|], eventId, e, Normalize(routes[|routes| - 1], e), now);
    assert AddRoutes(acc, eventId, e, routes, ids, now) == Ok(before.value + [row]);
  }

  /** One row per route, in route order, behind the rows that were there. */
  ghost predicate RowsForRoutes(rows: seq<OutboxRow>, acc: seq<OutboxRow>, eventId: int, e: EventEnvelope,
                                routes: seq<NotificationRoute>, now: int) {
    && |rows| == |acc| + |routes|
    && rows[..|acc|] == acc
    && forall k :: 0 <= k < |routes| ==> FreshRow(rows[|acc| + k], eventId, e, routes[k], now)
  }

  lemma RowsForRoutesSnoc(rows: seq<OutboxRow>, acc: seq<OutboxRow>, eventId: int, e: EventEnvelope,
                          routes: seq<NotificationRoute>,
                          now: int, row: OutboxRow, route: NotificationRoute)
    requires RowsForRoutes(rows, acc, eventId, e, routes, now) && FreshRow(row, eventId, e, route, now)
    ensures RowsForRoutes(rows + [row], acc, eventId, e, routes + [route], now)
  {
    assert (rows + [row])[..|acc|] == rows[..|acc|];
  }

  lemma {:induction false} AddRoutesLaw(acc: seq<OutboxRow>, eventId: int, e: EventEnvelope,
                                        routes: seq<NotificationRoute>, ids: seq<int>, now: int)
    requires AddRoutes(acc, eventId, e, routes, ids, now).Ok?
    ensures RowsForRoutes(AddRoutes(acc, eventId, e, routes, ids, now).value, acc, eventId, e, routes, now)
  {
    if routes == [] {
      assert acc[..|acc|] == acc;
    } else {
      var n := |routes| - 1;
      AddRoutesStep(acc, eventId, e, routes, ids, now);
      AddRoutesLaw(acc, eventId, e, routes[..n], ids, now);
      var before := AddRoutes(acc, eventId, e, routes[..n], ids, now).value;
      var row :| AddRoutes(acc, eventId, e, routes, ids, now) == Ok(before + [row])
          && FreshRow(row, eventId, e, routes[n], now);
      RowsForRoutesSnoc(before, acc, eventId, e, routes[..n], now, row, routes[n]);
      assert routes == routes[..n] + [routes[n]];
    }
  }

  /** The row is for this event and one of its routes, and names the event's stored row. */
  ghost predicate RowForEvent(row: OutboxRow, t: map<int, ChainEvent>, planner: Planner, e: EventEnvelope, now: int) {
    && HasKey(t, e.eventKey) && planner(e).Ok?
    && exists k :: 0 <= k < |planner(e).value| && FreshRow(row, PersistedId(t, e.eventKey), e, planner(e).value[k], now)
  }

  /** Every row of the plan is for one of the events. */
  ghost predicate PlanRowOk(row: OutboxRow, t: map<int, ChainEvent>, planner: Planner, es: seq<EventEnvelope>,
                            now: int) {
    exists i :: 0 <= i < |es| && RowForEvent(row, t, planner, es[i], now)
  }

  ghost predicate RouteInPlan(rows: seq<OutboxRow>, e: EventEnvelope, route: NotificationRoute) {
    exists j :: 0 <= j < |rows| && Delivers(rows[j], e, route)
  }

  /** Every route of the event has a row. */
  ghost predicate RoutesCovered(rows: seq<OutboxRow>, planner: Planner, e: EventEnvelope) {
    planner(e).Ok? && forall k :: 0 <= k < |planner(e).value| ==> RouteInPlan(rows, e, planner(e).value[k])
  }

  lemma RouteInPlanGrows(rows: seq<OutboxRow>, more: seq<OutboxRow>, e: EventEnvelope, route: NotificationRoute)
    requires RouteInPlan(rows, e, route) && |rows| <= |more| && more[..|rows|] == rows
    ensures RouteInPlan(more, e, route)
  {
    var j :| 0 <= j < |rows| && Delivers(rows[j], e, route);
    assert more[j] == more[..|rows|][j];
  }

  /** What a successful plan has achieved for the first events. */
  ghost predicate PlanFor(rows: seq<OutboxRow>, t: map<int, ChainEvent>, planner: Planner, es: seq<EventEnvelope>,
                          now: int) {
    && AllPersisted(t, es)
    && (forall j :: 0 <= j < |rows| ==> PlanRowOk(rows[j], t, planner, es, now))
    && (forall i :: 0 <= i < |es| ==> RoutesCovered(rows, planner, es[i]))
  }

  lemma PlanRowOkGrows(row: OutboxRow, t: map<int, ChainEvent>, planner: Planner, es: seq<EventEnvelope>,
                       e: EventEnvelope, now: int)
    requires PlanRowOk(row, t, planner, es, now)
    ensures PlanRowOk(row, t, planner, es + [e], now)
  {
    var i :| 0 <= i < |es| && RowForEvent(row, t, planner, es[i], now);
    assert (es + [e])[i] == es[i];
  }

  /** The routes of the last event, turned into rows behind the plan so far. */
  ghost predicate LastRoutes(rows: seq<OutboxRow>, before: seq<OutboxRow>, t: map<int, ChainEvent>, planner: Planner,
                             e: EventEnvelope, now: int) {
    && HasKey(t, e.eventKey) && planner(e).Ok?
    && RowsForRoutes(rows, before, PersistedId(t, e.eventKey), e, planner(e).value, now)
  }

  lemma RowsOkSnoc(before: seq<OutboxRow>, rows: seq<OutboxRow>, t: map<int, ChainEvent>, planner: Planner,
                   es: seq<EventEnvelope>, e: EventEnvelope, now: int, j: nat)
    requires forall i :: 0 <= i < |before| ==> PlanRowOk(before[i], t, planner, es, now)
    requires LastRoutes(rows, before, t, planner, e, now) && j < |rows|
    ensures PlanRowOk(rows[j], t, planner, es + [e], now)
  {
    if j < |before| {
      assert rows[j] == rows[..|before|][j];
      PlanRowOkGrows(rows[j], t, planner, es, e, now);
    } else {
      var k := j - |before|;
      assert FreshRow(rows[|before| + k], PersistedId(t, e.eventKey), e, planner(e).value[k], now);
      assert RowForEvent(rows[j], t, planner, (es + [e])[|es|], now);
    }
  }

  lemma CoveredSnoc(before: seq<OutboxRow>, rows: seq<OutboxRow>, t: map<int, ChainEvent>, planner: Planner,
                    e: EventEnvelope, now: int, d: EventEnvelope)
    requires LastRoutes(rows, before, t, planner, e, now)
    requires d == e || RoutesCovered(before, planner, d)
    ensures RoutesCovered(rows, planner, d)
  {
    forall k | 0 <= k < |planner(d).value| ensures RouteInPlan(rows, d, planner(d).value[k]) {
      if d == e {
        FreshRowDelivers(rows, |before| + k, PersistedId(t, e.eventKey), e, planner(e).value[k], now);
      } else {
        RouteInPlanGrows(before, rows, d, planner(d).value[k]);
      }
    }
  }

  lemma PlanForSnoc(before: seq<OutboxRow>, rows: seq<OutboxRow>, t: map<int, ChainEvent>, planner: Planner,
                    es: seq<EventEnvelope>, e: EventEnvelope, now: int)
    requires PlanFor(before, t, planner, es, now) && LastRoutes(rows, before, t, planner, e, now)
    ensures PlanFor(rows, t, planner, es + [e], now)
  {
    var all := es + [e];
    forall j | 0 <= j < |rows| ensures PlanRowOk(rows[j], t, planner, all, now) {
      RowsOkSnoc(before, rows, t, planner, es, e, now, j);
    }
    forall i | 0 <= i < |all| ensures RoutesCovered(rows, planner, all[i]) {
      CoveredSnoc(before, rows, t, planner, e, now, all[i]);
    }
    forall i | 0 <= i < |all| ensures HasKey(t, all[i].eventKey) {
      if i < |es| { assert HasKey(t, es[i].eventKey); }
    }
  }

  lemma FreshRowDelivers(rows: seq<OutboxRow>, j: nat, id: int, e: EventEnvelope, route: NotificationRoute, now: int)
    requires j < |rows| && FreshRow(rows[j], id, e, route, now)
    ensures RouteInPlan(rows, e, route)
  {
    assert Delivers(rows[j], e, route);
  }

  lemma PlanOutboxStep(t: map<int, ChainEvent>, planner: Planner, es: seq<EventEnvelope>, ids: seq<int>, now: int)
    requires es != [] && PlanOutbox(t, planner, es, ids, now).Ok?
    ensures var n := |es| - 1;
            && PlanOutbox(t, planner, es[..n], ids, now).Ok?
            && LastRoutes(PlanOutbox(t, planner, es, ids, now).value, PlanOutbox(t, planner, es[..n], ids, now).value,
                          t, planner, es[n], now)
  {
    var n := |es| - 1;
    var before := PlanOutbox(t, planner, es[..n], ids, now).value;
    AddRoutesLaw(before, PersistedId(t, es[n].eventKey), es[n], planner(es[n]).value, ids, now);
  }

  lemma {:induction false} PlanOutboxLaw(t: map<int, ChainEvent>, planner: Planner, es: seq<EventEnvelope>,
                                         ids: seq<int>, now: int)
    requires PlanOutbox(t, planner, es, ids, now).Ok?
    ensures PlanFor(PlanOutbox(t, planner, es, ids, now).value, t, planner, es, now)
  {
    if es != [] {
      var n := |es| - 1;
      PlanOutboxStep(t, planner, es, ids, now);
      PlanOutboxLaw(t, planner, es[..n], ids, now);
      PlanForSnoc(PlanOutbox(t, planner, es[..n], ids, now).value, PlanOutbox(t, planner, es, ids, now).value,
                  t, planner, es[..n], es[n], now);
      assert es == es[..n] + [es[n]];
    }
  }

  /** What inserting one planned row does, when it is no error. */
  lemma InsertOutboxRowLaw(t: map<int, OutboxRow>, row: OutboxRow, events: map<int, ChainEvent>)
    requires OutboxOk(t, events) && OutboxRowOk(row.id, row, events)
    requires Delivered(t, row) || row.id !in t
    ensures var t' := if Delivered(t, row) then t else t[row.id := row];
            OutboxOk(t', events) && Extends(t, t') && Delivered(t', row)
  {
    if !Delivered(t, row) {
      var t' := t[row.id := row];
      assert SameDelivery(t'[row.id], row);
      forall a, b | a in t' && b in t' && a != b ensures !SameDelivery(t'[a], t'[b]) {
        if a == row.id { assert !SameDelivery(t[b], row); }
        if b == row.id { assert !SameDelivery(t[a], row); }
      }
    }
  }

  lemma ExtendsKeepsDelivered(t: map<int, OutboxRow>, t': map<int, OutboxRow>, row: OutboxRow)
    requires Extends(t, t') && Delivered(t, row)
    ensures Delivered(t', row)
  {
    var id :| id in t && SameDelivery(t[id], row);
    assert SameDelivery(t'[id], row);
  }

  ghost predicate AllDelivered(t: map<int, OutboxRow>, rows: seq<OutboxRow>) {
    forall i :: 0 <= i < |rows| ==> Delivered(t, rows[i])
  }

  lemma {:induction false} InsertOutboxLaw(t: map<int, OutboxRow>, rows: seq<OutboxRow>, events: map<int, ChainEvent>)
    requires OutboxOk(t, events) && forall i :: 0 <= i < |rows| ==> OutboxRowOk(rows[i].id, rows[i], events)
    requires InsertOutbox(t, rows).Ok?
    ensures var t' := InsertOutbox(t, rows).value;
            OutboxOk(t', events) && Extends(t, t') && AllDelivered(t', rows)
  {
    if rows != [] {
      var n := |rows| - 1;
      InsertOutboxLaw(t, rows[..n], events);
      var before, after := InsertOutbox(t, rows[..n]).value, InsertOutbox(t, rows).value;
      InsertOutboxRowLaw(before, rows[n], events);
      AllDeliveredSnoc(before, after, rows);
    }
  }

  lemma AllDeliveredSnoc(before: map<int, OutboxRow>, after: map<int, OutboxRow>, rows: seq<OutboxRow>)
    requires rows != [] && AllDelivered(before, rows[..|rows| - 1]) && Extends(before, after)
             && Delivered(after, rows[|rows| - 1])
    ensures AllDelivered(after, rows)
  {
    forall i | 0 <= i < |rows| ensures Delivered(after, rows[i]) {
      if i < |rows| - 1 {
        assert Delivered(before, rows[..|rows| - 1][i]);
        ExtendsKeepsDelivered(before, after, rows[i]);
      }
    }
  }

  lemma PlanRowSound(row: OutboxRow, t: map<int, ChainEvent>, planner: Planner, es: seq<EventEnvelope>, now: int)
    requires PlanRowOk(row, t, planner, es, now)
    ensures OutboxRowOk(row.id, row, t)
  {
  }

  lemma OutboxOkExtends(t: map<int, OutboxRow>, events: map<int, ChainEvent>, events': map<int, ChainEvent>)
    requires OutboxOk(t, events) && Extends(events, events')
    ensures OutboxOk(t, events')
  {
    forall id | id in t ensures OutboxRowOk(id, t[id], events') {
      assert OutboxRowOk(id, t[id], events);
    }
  }

  // ---------- one save ----------

  /** Dispatchers leave a sound outbox sound. */
  lemma DispatchKeepsOutbox(t: map<int, OutboxRow>, t': map<int, OutboxRow>, events: map<int, ChainEvent>)
    requires OutboxOk(t, events) && OnlyDispatches(t, t')
    ensures OutboxOk(t', events)
  {
    assert forall id :: id in t' ==> id in t && SameMessage(t[id], t'[id]);
  }

  /** Every event of the batch has its row and, with a planner, an outbox row per route that names that row. */
  ghost predicate Stored(db: Database, planner: Option<Planner>, e: EventEnvelope) {
    && HasKey(db.events, e.eventKey)
    && (planner.Some? ==>
          && planner.value(e).Ok?
          && forall k :: 0 <= k < |planner.value(e).value| ==> RouteStored(db, e, planner.value(e).value[k]))
  }

  ghost predicate RouteStored(db: Database, e: EventEnvelope, route: NotificationRoute) {
    exists id :: id in db.outbox && Delivers(db.outbox[id], e, route)
  }

  /** The state after the events are inserted and before the outbox is. */
  lemma EventsInserted(db: Database, es: seq<EventEnvelope>, ids: seq<int>, done: nat -> bool, rows: seq<ChainEvent>)
    requires DatabaseOk(db) && AllWellKeyed(es) && BuildRows(Dedupe(es), ids, done) == Ok(rows)
    ensures var events := InsertEvents(db.events, rows);
            && EventsOk(events) && Extends(db.events, events) && OutboxOk(db.outbox, events)
            && RowsOk(rows) && RowsFor(rows, Dedupe(es), ids) && DistinctKeys(Dedupe(es))
  {
    DedupeLaw(es);
    BuildRowsLaw(Dedupe(es), ids, done);
    InsertEventsLaw(db.events, rows);
    OutboxOkExtends(db.outbox, db.events, InsertEvents(db.events, rows));
  }

  /** A save keeps both tables sound, alters and removes no row, and does nothing at all when it fails. */
  lemma SaveKeepsDatabase(db: Database, planner: Option<Planner>, es: seq<EventEnvelope>, ids: seq<int>, now: int,
                          done: nat -> bool)
    requires DatabaseOk(db) && AllWellKeyed(es)
    ensures var (db', r) := Save(db, planner, es, ids, now, done);
            && DatabaseOk(db') && Extends(db.events, db'.events) && Extends(db.outbox, db'.outbox)
            && (r.Fail? ==> db' == db)
  {
    var unique := Dedupe(es);
    var built := BuildRows(unique, ids, done);
    if built.Ok? {
      var events := InsertEvents(db.events, built.value);
      EventsInserted(db, es, ids, done, built.value);
      if planner.Some? {
        var plan := PlanOutbox(events, planner.value, unique, ids[|unique|..], now);
        if plan.Ok? && InsertOutbox(db.outbox, plan.value).Ok? {
          PlanOutboxLaw(events, planner.value, unique, ids[|unique|..], now);
          forall i | 0 <= i < |plan.value| ensures OutboxRowOk(plan.value[i].id, plan.value[i], events) {
            PlanRowSound(plan.value[i], events, planner.value, unique, now);
          }
          InsertOutboxLaw(db.outbox, plan.value, events);
        }
      }
    }
  }

  /** The outbox after a successful planned save: its plan went in, row by row. */
  lemma PlannedSaveParts(db: Database, planner: Planner, es: seq<EventEnvelope>, ids: seq<int>, now: int,
                         done: nat -> bool)
    returns (plan: seq<OutboxRow>)
    requires DatabaseOk(db) && AllWellKeyed(es)
    requires Save(db, Some(planner), es, ids, now, done).1.Pass?
    ensures var db' := Save(db, Some(planner), es, ids, now, done).0;
            PlanFor(plan, db'.events, planner, Dedupe(es), now) && AllDelivered(db'.outbox, plan)
  {
    var unique := Dedupe(es);
    var rows := BuildRows(unique, ids, done).value;
    var events := InsertEvents(db.events, rows);
    EventsInserted(db, es, ids, done, rows);
    plan := PlanOutbox(events, planner, unique, ids[|unique|..], now).value;
    PlanOutboxLaw(events, planner, unique, ids[|unique|..], now);
    forall i | 0 <= i < |plan| ensures OutboxRowOk(plan[i].id, plan[i], events) {
      PlanRowSound(plan[i], events, planner, unique, now);
    }
    InsertOutboxLaw(db.outbox, plan, events);
  }

  lemma DeliveredRoute(db: Database, plan: seq<OutboxRow>, e: EventEnvelope, route: NotificationRoute)
    requires AllDelivered(db.outbox, plan) && RouteInPlan(plan, e, route)
    ensures RouteStored(db, e, route)
  {
    var j :| 0 <= j < |plan| && Delivers(plan[j], e, route);
    var id :| id in db.outbox && SameDelivery(db.outbox[id], plan[j]);
    assert Delivers(db.outbox[id], e, route);
  }

  /** A save with a planner that reports success has stored every event with all its routes, fresh IDs or not. */
  lemma PlannedSaveStores(db: Database, planner: Planner, es: seq<EventEnvelope>, ids: seq<int>, now: int,
                          done: nat -> bool)
    requires DatabaseOk(db) && AllWellKeyed(es)
    requires Save(db, Some(planner), es, ids, now, done).1.Pass?
    ensures forall e :: e in Dedupe(es) ==> Stored(Save(db, Some(planner), es, ids, now, done).0, Some(planner), e)
  {
    var unique := Dedupe(es);
    var db' := Save(db, Some(planner), es, ids, now, done).0;
    var plan := PlannedSaveParts(db, planner, es, ids, now, done);
    forall e | e in unique ensures Stored(db', Some(planner), e) {
      var i :| 0 <= i < |unique| && unique[i] == e;
      assert HasKey(db'.events, unique[i].eventKey) && RoutesCovered(plan, planner, unique[i]);
      forall k | 0 <= k < |planner(e).value| ensures RouteStored(db', e, planner(e).value[k]) {
        DeliveredRoute(db', plan, e, planner(e).value[k]);
      }
    }
  }

  ghost predicate AllStored(db: Database, planner: Option<Planner>, es: seq<EventEnvelope>) {
    forall e :: e in es ==> Stored(db, planner, e)
  }

  lemma PlainStoredIsKeyed(db: Database, es: seq<EventEnvelope>)
    ensures AllStored(db, None, es) <==> AllPersisted(db.events, es)
  {
    if AllStored(db, None, es) {
      forall i | 0 <= i < |es| ensures HasKey(db.events, es[i].eventKey) {
        assert Stored(db, None, es[i]);
      }
    }
  }

  lemma InsertedAreKeyedIffFresh(db: Database, es: seq<EventEnvelope>, ids: seq<int>, done: nat -> bool,
                                 rows: seq<ChainEvent>)
    requires DatabaseOk(db) && AllWellKeyed(es) && BuildRows(Dedupe(es), ids, done) == Ok(rows)
    ensures |Dedupe(es)| <= |ids|
    ensures AllPersisted(InsertEvents(db.events, rows), Dedupe(es)) <==> FreshIds(db.events, Dedupe(es), ids)
  {
    EventsInserted(db, es, ids, done, rows);
    if FreshIds(db.events, Dedupe(es), ids) {
      FreshPersists(db.events, Dedupe(es), rows, ids);
    }
    if AllPersisted(InsertEvents(db.events, rows), Dedupe(es)) {
      PersistedIsFresh(db.events, Dedupe(es), rows, ids);
    }
  }

  /**
   Without a planner a save that reports success stores every event exactly when the drawn IDs are fresh: no column
   list, so an ID collision is skipped silently.
   */
  lemma PlainSaveStoresIffFresh(db: Database, es: seq<EventEnvelope>, ids: seq<int>, now: int, done: nat -> bool)
    requires DatabaseOk(db) && AllWellKeyed(es)
    requires Save(db, None, es, ids, now, done).1.Pass?
    ensures |Dedupe(es)| <= |ids|
    ensures AllStored(Save(db, None, es, ids, now, done).0, None, Dedupe(es)) <==> FreshIds(db.events, Dedupe(es), ids)
  {
    var rows := BuildRows(Dedupe(es), ids, done).value;
    InsertedAreKeyedIffFresh(db, es, ids, done, rows);
    PlainStoredIsKeyed(Database(InsertEvents(db.events, rows), db.outbox), Dedupe(es));
  }

  function SampleEvent(index: nat): EventEnvelope {
    var hash: Hash := seq(32, _ => 1);
    var address: Address := seq(20, _ => 1);
    EventEnvelope(BuildEventKey(1, hash, index), 1, "c", "n", "m", "e", 5, hash, hash, 0, index, address, hash,
                  Text("{}", true), Text("{}", true), false)
  }

  /** A save of one event without a planner. */
  lemma SaveOne(db: Database, e: EventEnvelope, id: int, now: int, done: nat -> bool)
    ensures Save(db, None, [e], [id], now, done)
            == if done(0) then (db, Fail(Cancelled))
               else if !Storable(id, e) then (db, Fail(NotStorable))
               else (Database(InsertEvent(db.events, ChainEvent(id, e)), db.outbox), Pass)
  {
    assert [e][..0] == [];
    assert Dedupe([e][..0]) == [];
    assert Dedupe([e]) == [e];
    assert BuildRows([e][..0], [id], done) == Ok([]);
    if !done(0) && Storable(id, e) {
      var rows := [ChainEvent(id, e)];
      assert [] + rows == rows && [e][..|[e]| - 1] == [] && [e][0] == e && [id][0] == id;
      assert BuildRows([e], [id], done) == Ok([] + rows);
      assert rows[..0] == [];
      assert InsertEvents(db.events, rows[..0]) == db.events;
    }
  }

  /** The loss itself: a new event under a stored ID changes nothing and is reported as saved. */
  lemma SilentLoss(db: Database, e: EventEnvelope, id: int, now: int, done: nat -> bool)
    requires DatabaseOk(db) && Storable(id, e) && id in db.events && !done(0)
    ensures Save(db, None, [e], [id], now, done) == (db, Pass)
  {
    SaveOne(db, e, id, now, done);
    assert Clash(db.events[id], ChainEvent(id, e));
  }

  lemma SampleDatabaseOk()
    ensures DatabaseOk(Database(map[7 := ChainEvent(7, SampleEvent(0))], map[]))
  {
    assert SampleEvent(0).txHash[0] == 1 && SampleEvent(0).contractAddress[0] == 1;
  }

  /** A concrete table and event for it: ID 7 is stored, and drawn again for the next log of the transaction. */
  lemma SilentLossExample(done: nat -> bool)
    requires !done(0)
    ensures var db := Database(map[7 := ChainEvent(7, SampleEvent(0))], map[]);
            && DatabaseOk(db) && WellKeyed(SampleEvent(1))
            && Save(db, None, [SampleEvent(1)], [7], 0, done) == (db, Pass)
            && !HasKey(db.events, SampleEvent(1).eventKey)
  {
    var e0, e1 := SampleEvent(0), SampleEvent(1);
    SampleDatabaseOk();
    assert e1.txHash[0] == 1 && e1.contractAddress[0] == 1;
    EventKeyInjective(1, e1.txHash, 0, 1, e1.txHash, 1);
    SilentLoss(Database(map[7 := ChainEvent(7, e0)], map[]), e1, 7, 0, done);
  }

  // ---------- where rows come from ----------

  /** A row that is new after a save is one of the batch's events under a drawn ID. */
  lemma NewEventsAreOfBatch(db: Database, planner: Option<Planner>, es: seq<EventEnvelope>, ids: seq<int>, now: int,
                            done: nat -> bool, id: int)
    requires DatabaseOk(db) && AllWellKeyed(es)
    requires id in Save(db, planner, es, ids, now, done).0.events && id !in db.events
    ensures Save(db, planner, es, ids, now, done).0.events[id].event in es && id in ids
  {
    var rows := BuildRows(Dedupe(es), ids, done).value;
    EventsInserted(db, es, ids, done, rows);
    InsertEventsLaw(db.events, rows);
    DedupeLaw(es);
    var k :| 0 <= k < |rows| && rows[k] == InsertEvents(db.events, rows)[id];
    assert rows[k] == ChainEvent(ids[k], Dedupe(es)[k]);
    assert EventOk(id, InsertEvents(db.events, rows)[id]);
  }

  // ---------- any number of saves ----------

  datatype Batch = Batch(es: seq<EventEnvelope>, ids: seq<int>, now: int, done: nat -> bool)

  ghost function SaveMany(db: Database, planner: Option<Planner>, batches: seq<Batch>): Database {
    if batches == [] then db
    else
      var b := batches[|batches| - 1];
      Save(SaveMany(db, planner, batches[..|batches| - 1]), planner, b.es, b.ids, b.now, b.done).0
  }

  /** Replays, duplicates and failures in any order: sound tables, one row per key and per delivery, nothing altered. */
  lemma {:induction false} AnySavesKeepDatabase(db: Database, planner: Option<Planner>, batches: seq<Batch>)
    requires DatabaseOk(db) && forall i :: 0 <= i < |batches| ==> AllWellKeyed(batches[i].es)
    ensures var db' := SaveMany(db, planner, batches);
            && DatabaseOk(db') && Extends(db.events, db'.events) && Extends(db.outbox, db'.outbox)
            && (forall a, b | a in db'.events && b in db'.events
                  :: db'.events[a].event.eventKey == db'.events[b].event.eventKey ==> a == b)
            && (forall a, b | a in db'.outbox && b in db'.outbox
                  :: SameDelivery(db'.outbox[a], db'.outbox[b]) ==> a == b)
            && (forall a :: a in db'.outbox ==>
                  && db'.outbox[a].eventId in db'.events && db'.outbox[a].payload.eventId == db'.outbox[a].eventId
                  && db'.events[db'.outbox[a].eventId].event.eventKey == db'.outbox[a].eventKey)
  {
    if batches != [] {
      var n := |batches| - 1;
      AnySavesKeepDatabase(db, planner, batches[..n]);
      var b := batches[n];
      SaveKeepsDatabase(SaveMany(db, planner, batches[..n]), planner, b.es, b.ids, b.now, b.done);
    }
    var db' := SaveMany(db, planner, batches);
    forall a, b | a in db'.events && b in db'.events && db'.events[a].event.eventKey == db'.events[b].event.eventKey
      ensures a == b
    {
      assert a == b || !Clash(db'.events[a], db'.events[b]);
    }
    forall a | a in db'.outbox ensures OutboxRowOk(a, db'.outbox[a], db'.events) {}
  }
}
