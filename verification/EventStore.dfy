/**
 The event store (database/store_event.go): one transaction that inserts event
 rows with "on conflict do nothing" and then the notification outbox rows that
 point at them.
 */
module EventStore {
  import opened Basics
  import opened Domain
  import opened Tables

  datatype NotificationRoute = NotificationRoute(channel: string, target: string, messageType: string, maxRetries: int)

  datatype SaveError =
    | Cancelled
    | NoId
    | NotStorable
    | EventNotPersisted
    | PlanFailed(cause: nat)
    | RouteIncomplete
    | EventIdZero
    | DuplicateOutboxId

  /** RoutesForEvent; its answer for an event is fixed. */
  type Planner = EventEnvelope -> Result<seq<NotificationRoute>, nat>

  // ---------- pure parts ----------

  /** eventEnvelopeToRowValid: the rows it lets through. */
  predicate Storable(id: int, e: EventEnvelope) {
    && id != 0
    && e.eventKey != "" && e.chainId != 0 && e.chainName != "" && e.network != "" && e.monitor != ""
       && e.eventName != ""
    && !IsZero(e.txHash) && !IsZero(e.contractAddress)
    && !EmptyJson(e.payload) && ValidJson(e.payload)
    && !EmptyJson(e.rawLog) && ValidJson(e.rawLog)
  }

  /** normalizeNotificationRoute. */
  function Normalize(route: NotificationRoute, e: EventEnvelope): (r: NotificationRoute)
    ensures r.maxRetries >= 1
    ensures r.messageType == "" ==> e.eventName == ""
  {
    var messageType := TrimSpace(route.messageType);
    NotificationRoute(TrimSpace(route.channel),
                      TrimSpace(route.target),
                      if messageType == "" then e.eventName else messageType,
                      if route.maxRetries <= 0 then 10 else route.maxRetries)
  }

  predicate Complete(route: NotificationRoute) {
    route.channel != "" && route.target != "" && route.messageType != ""
  }

  predicate HasEventKey(es: seq<EventEnvelope>, key: string) {
    exists i :: 0 <= i < |es| && es[i].eventKey == key
  }

  /** First event of each key; events without a key stay, so that they fail later. */
  function Dedupe(es: seq<EventEnvelope>): seq<EventEnvelope> {
    if es == [] then []
    else
      var out, e := Dedupe(es[..|es| - 1]), es[|es| - 1];
      if e.eventKey != "" && HasEventKey(out, e.eventKey) then out else out + [e]
  }

  method DedupeEvents(es: seq<EventEnvelope>) returns (out: seq<EventEnvelope>)
    ensures out == Dedupe(es)
  {
    if |es| == 1 {
      assert es[..0] == [] && es == [es[0]];
      assert Dedupe(es[..0]) == [];
      return es;
    }
    var seen: set<string> := {};
    out := [];
    var i := 0;
    while i < |es|
      invariant 0 <= i <= |es|
      invariant out == Dedupe(es[..i])
      invariant forall key :: key in seen <==> key != "" && HasEventKey(out, key)
    {
      assert es[..i + 1][..i] == es[..i];
      var e := es[i];
      ghost var before := out;
      if e.eventKey == "" {
        out := out + [e];
      } else if e.eventKey !in seen {
        seen := seen + {e.eventKey};
        out := out + [e];
        assert out[|before|] == e;
      }
      assert forall key :: HasEventKey(before, key) ==> HasEventKey(out, key) by {
        forall key | HasEventKey(before, key) ensures HasEventKey(out, key) {
          var k :| 0 <= k < |before| && before[k].eventKey == key;
          assert out[k] == before[k];
        }
      }
      i := i + 1;
    }
    assert es[..i] == es;
  }

  /** The rows built before the transaction: ids are the successful draws, done(i) the context before event i. */
  function BuildRows(es: seq<EventEnvelope>, ids: seq<int>, done: nat -> bool): Result<seq<ChainEvent>, SaveError> {
    if es == [] then Ok([])
    else
      var n := |es| - 1;
      match BuildRows(es[..n], ids, done)
      case Err(e) => Err(e)
      case Ok(rows) =>
        if done(n) then Err(Cancelled)
        else if n >= |ids| then Err(NoId)
        else if !Storable(ids[n], es[n]) then Err(NotStorable)
        else Ok(rows + [ChainEvent(ids[n], es[n])])
  }

  /** The three unique constraints of chain_events. */
  predicate Clash(a: ChainEvent, b: ChainEvent) {
    || a.id == b.id
    || a.event.eventKey == b.event.eventKey
    || (a.event.chainId == b.event.chainId && a.event.txHash == b.event.txHash && a.event.logIndex == b.event.logIndex)
  }

  predicate Conflicts(t: map<int, ChainEvent>, r: ChainEvent) {
    exists id :: id in t && Clash(t[id], r)
  }

  /** ON CONFLICT DO NOTHING without columns: any conflict skips the row. */
  function InsertEvent(t: map<int, ChainEvent>, r: ChainEvent): map<int, ChainEvent> {
    if Conflicts(t, r) then t else t[r.id := r]
  }

  function InsertEvents(t: map<int, ChainEvent>, rows: seq<ChainEvent>): map<int, ChainEvent> {
    if rows == [] then t else InsertEvent(InsertEvents(t, rows[..|rows| - 1]), rows[|rows| - 1])
  }

  predicate HasKey(t: map<int, ChainEvent>, key: string) {
    exists id :: id in t && t[id].event.eventKey == key
  }

  ghost function PersistedId(t: map<int, ChainEvent>, key: string): (id: int)
    requires HasKey(t, key)
    ensures id in t && t[id].event.eventKey == key
  {
    var id :| id in t && t[id].event.eventKey == key;
    id
  }

  /** buildNotificationPayload for an event row with this ID, which is not zero. */
  function PayloadFor(eventId: int, e: EventEnvelope): NotificationPayload {
    NotificationPayload(1, eventId, e.eventKey, e.chainId, e.chainName, e.network, e.monitor, e.eventName,
                        e.blockNumber,
                        e.blockHash, e.txHash, e.txIndex, e.logIndex, e.contractAddress, e.topic0, e.payload)
  }

  function OutboxRowFor(id: int, eventId: int, e: EventEnvelope, route: NotificationRoute, now: int): OutboxRow {
    OutboxRow(id, eventId, e.eventKey, route.channel, route.target, route.messageType, PayloadFor(eventId, e),
              Pending, 0, route.maxRetries, now, "", None, "", None)
  }

  /** One event's routes become rows; row number k of the whole plan takes draw k. */
  function AddRoutes(acc: seq<OutboxRow>, eventId: int, e: EventEnvelope, routes: seq<NotificationRoute>,
                     ids: seq<int>, now: int)
    : Result<seq<OutboxRow>, SaveError>
  {
    if routes == [] then Ok(acc)
    else
      match AddRoutes(acc, eventId, e, routes[..|routes| - 1], ids, now)
      case Err(error) => Err(error)
      case Ok(rows) =>
        var route := Normalize(routes[|routes| - 1], e);
        if !Complete(route) then Err(RouteIncomplete)
        else if |rows| >= |ids| then Err(NoId)
        else if eventId == 0 then Err(EventIdZero)
        else Ok(rows + [OutboxRowFor(ids[|rows|], eventId, e, route, now)])
  }

  ghost function PlanOutbox(t: map<int, ChainEvent>, planner: Planner, es: seq<EventEnvelope>, ids: seq<int>, now: int)
    : Result<seq<OutboxRow>, SaveError>
  {
    if es == [] then Ok([])
    else
      var e := es[|es| - 1];
      match PlanOutbox(t, planner, es[..|es| - 1], ids, now)
      case Err(error) => Err(error)
      case Ok(rows) =>
        if !HasKey(t, e.eventKey) then Err(EventNotPersisted)
        else
          match planner(e)
          case Err(cause) => Err(PlanFailed(cause))
          case Ok(routes) => AddRoutes(rows, PersistedId(t, e.eventKey), e, routes, ids, now)
  }

  predicate Delivered(t: map<int, OutboxRow>, r: OutboxRow) {
    exists id :: id in t && SameDelivery(t[id], r)
  }

  /** Insert with the delivery columns as arbiter: the same delivery is skipped, the same ID alone is an error. */
  function InsertOutbox(t: map<int, OutboxRow>, rows: seq<OutboxRow>): Result<map<int, OutboxRow>, SaveError> {
    if rows == [] then Ok(t)
    else
      var r := rows[|rows| - 1];
      match InsertOutbox(t, rows[..|rows| - 1])
      case Err(e) => Err(e)
      case Ok(t') =>
        if Delivered(t', r) then Ok(t')
        else if r.id in t' then Err(DuplicateOutboxId)
        else Ok(t'[r.id := r])
  }

  /** SaveEvents: the database after the call and the error it returns. */
  ghost function Save(db: Database, planner: Option<Planner>, es: seq<EventEnvelope>, ids: seq<int>, now: int,
                      done: nat -> bool)
    : (Database, Outcome<SaveError>)
  {
    var unique := Dedupe(es);
    match BuildRows(unique, ids, done)
    case Err(e) => (db, Fail(e))
    case Ok(rows) =>
      var events := InsertEvents(db.events, rows);
      if planner.None? then (Database(events, db.outbox), Pass)
      else
        match PlanOutbox(events, planner.value, unique, ids[|unique|..], now)
        case Err(e) => (db, Fail(e))
        case Ok(plan) =>
          match InsertOutbox(db.outbox, plan)
          case Err(e) => (db, Fail(e))
          case Ok(outbox) => (Database(events, outbox), Pass)
  }

  // ---------- the store ----------

  class Store {
    var events: map<int, ChainEvent>
    var outbox: map<int, OutboxRow>
    const planner: Option<Planner>

    function Contents(): Database
      reads this
    {
      Database(events, outbox)
    }

    constructor (planner: Option<Planner>)
      ensures Contents() == Database(map[], map[]) && this.planner == planner
    {
      events, outbox := map[], map[];
      this.planner := planner;
    }

    method SaveEvents(es: seq<EventEnvelope>, ids: seq<int>, now: int, done: nat -> bool)
        returns (r: Outcome<SaveError>)
      requires UniqueKeys(events)
      modifies this
      ensures (Contents(), r) == Save(old(Contents()), planner, es, ids, now, done)
    {
      if |es| == 0 {
        assert InsertOutbox(outbox, []) == Ok(outbox);
        assert Dedupe(es) == [] && ids[0..] == ids;
        return Pass;
      }
      var unique := DedupeEvents(es);
      var rows := [];
      var i := 0;
      while i < |unique|
        invariant 0 <= i <= |unique|
        invariant BuildRows(unique[..i], ids, done) == Ok(rows)
        invariant |rows| == i
        invariant BuildRows(unique[..i], ids, done).Err? ==> BuildRows(unique, ids, done).Err?
      {
        assert unique[..i + 1][..i] == unique[..i];
        if done(i) || i >= |ids| || !Storable(ids[i], unique[i]) {
          BuildRowsStops(unique, ids, done, i + 1);
          if done(i) { return Fail(Cancelled); }
          if i >= |ids| { return Fail(NoId); }
          return Fail(NotStorable);
        }
        rows := rows + [ChainEvent(ids[i], unique[i])];
        i := i + 1;
      }
      assert unique[..i] == unique;
      var events' := InsertRows(events, rows);
      if planner.None? {
        events := events';
        return Pass;
      }
      InsertEventsKeepUnique(events, rows);
      var plan := PlanRows(events', planner.value, unique, ids[|unique|..], now);
      if plan.Err? {
        return Fail(plan.error);
      }
      var outbox' := InsertOutboxRows(outbox, plan.value);
      if outbox'.Err? {
        return Fail(outbox'.error);
      }
      events, outbox := events', outbox'.value;
      r := Pass;
    }
  }

  lemma {:induction false} BuildRowsStops(es: seq<EventEnvelope>, ids: seq<int>, done: nat -> bool, i: nat)
    requires i <= |es| && BuildRows(es[..i], ids, done).Err?
    ensures BuildRows(es, ids, done) == BuildRows(es[..i], ids, done)
    decreases |es|
  {
    if i == |es| {
      assert es[..i] == es;
    } else {
      var init := es[..|es| - 1];
      assert init[..i] == es[..i];
      BuildRowsStops(init, ids, done, i);
    }
  }

  method InsertRows(t: map<int, ChainEvent>, rows: seq<ChainEvent>) returns (t': map<int, ChainEvent>)
    ensures t' == InsertEvents(t, rows)
  {
    t' := t;
    var i := 0;
    while i < |rows|
      invariant 0 <= i <= |rows|
      invariant t' == InsertEvents(t, rows[..i])
    {
      assert rows[..i + 1][..i] == rows[..i];
      if !Conflicts(t', rows[i]) {
        t' := t'[rows[i].id := rows[i]];
      }
      i := i + 1;
    }
    assert rows[..i] == rows;
  }

  ghost predicate UniqueKeys(t: map<int, ChainEvent>) {
    forall a, b :: a in t && b in t && t[a].event.eventKey == t[b].event.eventKey ==> a == b
  }

  lemma {:induction false} InsertEventsKeepUnique(t: map<int, ChainEvent>, rows: seq<ChainEvent>)
    requires UniqueKeys(t)
    ensures UniqueKeys(InsertEvents(t, rows))
  {
    if rows != [] {
      var init, r := rows[..|rows| - 1], rows[|rows| - 1];
      InsertEventsKeepUnique(t, init);
      var before := InsertEvents(t, init);
      if !Conflicts(before, r) {
        forall a | a in before ensures before[a].event.eventKey != r.event.eventKey {
          assert !Clash(before[a], r);
        }
      }
    }
  }

  /** createNotificationOutbox up to its insert. */
  method PlanRows(t: map<int, ChainEvent>, planner: Planner, es: seq<EventEnvelope>, ids: seq<int>, now: int)
    returns (r: Result<seq<OutboxRow>, SaveError>)
    requires UniqueKeys(t)
    ensures r == PlanOutbox(t, planner, es, ids, now)
  {
    var rows := [];
    var i := 0;
    while i < |es|
      invariant 0 <= i <= |es|
      invariant PlanOutbox(t, planner, es[..i], ids, now) == Ok(rows)
    {
      assert es[..i + 1][..i] == es[..i];
      var e := es[i];
      if !HasKey(t, e.eventKey) {
        PlanStops(t, planner, es, ids, now, i + 1);
        return Err(EventNotPersisted);
      }
      var id :| id in t && t[id].event.eventKey == e.eventKey;
      var routes := planner(e);
      if routes.Err? {
        PlanStops(t, planner, es, ids, now, i + 1);
        return Err(PlanFailed(routes.error));
      }
      var added := AddRouteRows(rows, id, e, routes.value, ids, now);
      if added.Err? {
        PlanStops(t, planner, es, ids, now, i + 1);
        return added;
      }
      rows := added.value;
      i := i + 1;
    }
    assert es[..i] == es;
    r := Ok(rows);
  }

  method AddRouteRows(acc: seq<OutboxRow>, eventId: int, e: EventEnvelope, routes: seq<NotificationRoute>,
                      ids: seq<int>, now: int)
    returns (r: Result<seq<OutboxRow>, SaveError>)
    ensures r == AddRoutes(acc, eventId, e, routes, ids, now)
  {
    var rows := acc;
    var k := 0;
    while k < |routes|
      invariant 0 <= k <= |routes|
      invariant AddRoutes(acc, eventId, e, routes[..k], ids, now) == Ok(rows)
    {
      assert routes[..k + 1][..k] == routes[..k];
      var route := Normalize(routes[k], e);
      if !Complete(route) {
        RoutesStop(acc, eventId, e, routes, ids, now, k + 1);
        return Err(RouteIncomplete);
      }
      if |rows| >= |ids| {
        RoutesStop(acc, eventId, e, routes, ids, now, k + 1);
        return Err(NoId);
      }
      if eventId == 0 {
        RoutesStop(acc, eventId, e, routes, ids, now, k + 1);
        return Err(EventIdZero);
      }
      rows := rows + [OutboxRowFor(ids[|rows|], eventId, e, route, now)];
      k := k + 1;
    }
    assert routes[..k] == routes;
    r := Ok(rows);
  }

  lemma {:induction false} RoutesStop(acc: seq<OutboxRow>, eventId: int, e: EventEnvelope,
                                      routes: seq<NotificationRoute>, ids: seq<int>, now: int, k: nat)
    requires k <= |routes| && AddRoutes(acc, eventId, e, routes[..k], ids, now).Err?
    ensures AddRoutes(acc, eventId, e, routes, ids, now) == AddRoutes(acc, eventId, e, routes[..k], ids, now)
    decreases |routes|
  {
    if k == |routes| {
      assert routes[..k] == routes;
    } else {
      var init := routes[..|routes| - 1];
      assert init[..k] == routes[..k];
      RoutesStop(acc, eventId, e, init, ids, now, k);
    }
  }

  lemma {:induction false} PlanStops(t: map<int, ChainEvent>, planner: Planner, es: seq<EventEnvelope>, ids: seq<int>,
                                     now: int, i: nat)
    requires i <= |es| && PlanOutbox(t, planner, es[..i], ids, now).Err?
    ensures PlanOutbox(t, planner, es, ids, now) == PlanOutbox(t, planner, es[..i], ids, now)
    decreases |es|
  {
    if i == |es| {
      assert es[..i] == es;
    } else {
      var init := es[..|es| - 1];
      assert init[..i] == es[..i];
      PlanStops(t, planner, init, ids, now, i);
    }
  }

  method InsertOutboxRows(t: map<int, OutboxRow>, rows: seq<OutboxRow>)
    returns (r: Result<map<int, OutboxRow>, SaveError>)
    ensures r == InsertOutbox(t, rows)
  {
    var t' := t;
    var i := 0;
    while i < |rows|
      invariant 0 <= i <= |rows|
      invariant InsertOutbox(t, rows[..i]) == Ok(t')
    {
      assert rows[..i + 1][..i] == rows[..i];
      if !Delivered(t', rows[i]) {
        if rows[i].id in t' {
          InsertStops(t, rows, i + 1);
          return Err(DuplicateOutboxId);
        }
        t' := t'[rows[i].id := rows[i]];
      }
      i := i + 1;
    }
    assert rows[..i] == rows;
    r := Ok(t');
  }

  lemma {:induction false} InsertStops(t: map<int, OutboxRow>, rows: seq<OutboxRow>, i: nat)
    requires i <= |rows| && InsertOutbox(t, rows[..i]).Err?
    ensures InsertOutbox(t, rows) == InsertOutbox(t, rows[..i])
    decreases |rows|
  {
    if i == |rows| {
      assert rows[..i] == rows;
    } else {
      var init := rows[..|rows| - 1];
      assert init[..i] == rows[..i];
      InsertStops(t, init, i);
    }
  }
}
