/** Exactly when a save (database/store_event.go) succeeds, what it adds, and that saving again is harmless. */
module SaveLaws {
  import opened Basics
  import opened Domain
  import opened Tables
  import opened EventStore
  import opened EventStoreLaws

  // ---------- deduplication takes the first event of each key ----------

  /** No earlier event has the key, or the event has none. */
  predicate IsFirst(es: seq<EventEnvelope>, i: nat)
    requires i < |es|
  {
    es[i].eventKey == "" || forall j :: 0 <= j < i ==> es[j].eventKey != es[i].eventKey
  }

  lemma HasEventKeySnoc(es: seq<EventEnvelope>, e: EventEnvelope, key: string)
    ensures HasEventKey(es + [e], key) <==> HasEventKey(es, key) || e.eventKey == key
  {
    var all := es + [e];
    if i :| 0 <= i < |es| && es[i].eventKey == key { assert all[i] == es[i]; }
    if e.eventKey == key { assert all[|es|] == e; }
  }

  lemma {:induction false} DedupeKeepsKeys(es: seq<EventEnvelope>, key: string)
    ensures HasEventKey(Dedupe(es), key) <==> HasEventKey(es, key)
  {
    if es != [] {
      var init, e := es[..|es| - 1], es[|es| - 1];
      DedupeKeepsKeys(init, key);
      assert es == init + [e];
      HasEventKeySnoc(init, e, key);
      HasEventKeySnoc(Dedupe(init), e, key);
    }
  }

  /** The positions at, in order, are those of the first events, and out has these events. */
  ghost predicate Firsts(out: seq<EventEnvelope>, es: seq<EventEnvelope>, at: seq<nat>) {
    && |at| == |out|
    && (forall k :: 0 <= k < |at| ==> at[k] < |es| && IsFirst(es, at[k]) && out[k] == es[at[k]])
    && (forall k, m :: 0 <= k < m < |at| ==> at[k] < at[m])
    && (forall i :: 0 <= i < |es| && IsFirst(es, i) ==> i in at)
  }

  lemma FirstsSnoc(out: seq<EventEnvelope>, es: seq<EventEnvelope>, at: seq<nat>, e: EventEnvelope)
    requires Firsts(out, es, at)
    ensures var n, all := |es|, es + [e];
            if IsFirst(all, n) then Firsts(out + [e], all, at + [n]) else Firsts(out, all, at)
  {
    var n, all := |es|, es + [e];
    forall i | 0 <= i < n ensures IsFirst(all, i) <==> IsFirst(es, i) {
      assert forall j :: 0 <= j <= i ==> all[j] == es[j];
    }
    if IsFirst(all, n) {
      forall i | 0 <= i < |all| && IsFirst(all, i) ensures i in at + [n] {
        assert i < n ==> i in at;
        assert (at + [n])[|at|] == n;
      }
    }
  }

  lemma {:induction false} DedupeTakesFirsts(es: seq<EventEnvelope>) returns (at: seq<nat>)
    ensures Firsts(Dedupe(es), es, at)
  {
    if es == [] {
      at := [];
    } else {
      var init, e := es[..|es| - 1], es[|es| - 1];
      at := DedupeTakesFirsts(init);
      FirstsSnoc(Dedupe(init), init, at, e);
      DedupeAtLast(es);
      assert es == init + [e];
      if IsFirst(es, |init|) { at := at + [|init|]; }
    }
  }

  lemma DedupeAtLast(es: seq<EventEnvelope>)
    requires es != []
    ensures var n := |es| - 1;
            Dedupe(es) == if IsFirst(es, n) then Dedupe(es[..n]) + [es[n]] else Dedupe(es[..n])
  {
    var n := |es| - 1;
    DedupeKeepsKeys(es[..n], es[n].eventKey);
    assert forall j :: 0 <= j < n ==> es[..n][j] == es[j];
  }

  // ---------- event rows ----------

  /** An ID for each event, no cancellation, and each event can be stored under its ID. */
  predicate Buildable(es: seq<EventEnvelope>, ids: seq<int>, done: nat -> bool) {
    |es| <= |ids| && forall i :: 0 <= i < |es| ==> !done(i) && Storable(ids[i], es[i])
  }

  lemma {:induction false} BuildsIff(es: seq<EventEnvelope>, ids: seq<int>, done: nat -> bool)
    ensures BuildRows(es, ids, done).Ok? <==> Buildable(es, ids, done)
  {
    if es != [] {
      var n := |es| - 1;
      BuildsIff(es[..n], ids, done);
      if Buildable(es, ids, done) { assert Buildable(es[..n], ids, done); }
      if Buildable(es[..n], ids, done) && !done(n) && n < |ids| && Storable(ids[n], es[n]) {
        forall i | 0 <= i < |es| ensures !done(i) && Storable(ids[i], es[i]) {
          if i < n { assert es[..n][i] == es[i]; }
        }
      }
    }
  }

  /** Event i is the first that cannot be built, and this is why. */
  predicate StopsBuild(es: seq<EventEnvelope>, ids: seq<int>, done: nat -> bool, i: nat, error: SaveError) {
    && i < |es| && Buildable(es[..i], ids, done)
    && (if done(i) then error == Cancelled
        else if i >= |ids| then error == NoId
        else !Storable(ids[i], es[i]) && error == NotStorable)
  }

  lemma {:induction false} BuildFailsAt(es: seq<EventEnvelope>, ids: seq<int>, done: nat -> bool)
    ensures var r := BuildRows(es, ids, done); r.Err? ==> exists i: nat :: StopsBuild(es, ids, done, i, r.error)
  {
    if es != [] {
      var n := |es| - 1;
      BuildFailsAt(es[..n], ids, done);
      BuildsIff(es[..n], ids, done);
      var before, r := BuildRows(es[..n], ids, done), BuildRows(es, ids, done);
      if before.Err? {
        var i: nat :| StopsBuild(es[..n], ids, done, i, before.error);
        assert es[..n][..i] == es[..i];
        assert StopsBuild(es, ids, done, i, r.error);
      } else if r.Err? {
        assert StopsBuild(es, ids, done, n, r.error);
      }
    }
  }

  // ---------- the notices a batch asks for ----------

  /** One event on one of its routes. */
  datatype Notice = Notice(e: EventEnvelope, route: NotificationRoute)

  function NoticesOf(e: EventEnvelope, routes: seq<NotificationRoute>): seq<Notice> {
    seq(|routes|, k requires 0 <= k < |routes| => Notice(e, routes[k]))
  }

  /** In event order, and in route order within an event. */
  function Notices(planner: Planner, es: seq<EventEnvelope>): seq<Notice> {
    if es == [] then []
    else
      var e := es[|es| - 1];
      Notices(planner, es[..|es| - 1]) + (if planner(e).Ok? then NoticesOf(e, planner(e).value) else [])
  }

  /** The message body says what the event says. */
  predicate Tells(p: NotificationPayload, e: EventEnvelope) {
    && p.version == 1 && p.eventKey == e.eventKey
    && p.chainId == e.chainId && p.chainName == e.chainName && p.network == e.network && p.monitor == e.monitor
    && p.eventName == e.eventName && p.blockNumber == e.blockNumber && p.blockHash == e.blockHash
    && p.txHash == e.txHash && p.txIndex == e.txIndex && p.logIndex == e.logIndex
    && p.contractAddress == e.contractAddress && p.topic0 == e.topic0 && p.payload == e.payload
  }

  /** Every column of the outbox row of a notice; the row names the stored row of its event's key. */
  predicate RowOf(r: OutboxRow, id: int, events: map<int, ChainEvent>, n: Notice, now: int) {
    && r.id == id
    && r.eventId in events && events[r.eventId].event.eventKey == n.e.eventKey
    && Delivers(r, n.e, n.route)
    && Tells(r.payload, n.e) && r.payload.eventId == r.eventId
    && r.status.Pending? && r.retryCount == 0 && r.lockedBy == "" && r.lockedUntil.None? && r.lastError == ""
    && r.sentAt.None? && r.nextRetryAt == now
    && r.maxRetries == (if n.route.maxRetries <= 0 then 10 else n.route.maxRetries)
  }

  /** Rows from the given position on for the notices, with the IDs at the same positions. */
  predicate RowsOf(rows: seq<OutboxRow>, from: nat, events: map<int, ChainEvent>, ns: seq<Notice>, ids: seq<int>,
                   now: int) {
    |rows| == from + |ns| <= |ids|
    && forall k :: 0 <= k < |ns| ==> RowOf(rows[from + k], ids[from + k], events, ns[k], now)
  }

  predicate AllComplete(e: EventEnvelope, routes: seq<NotificationRoute>) {
    forall k :: 0 <= k < |routes| ==> Complete(Normalize(routes[k], e))
  }

  /** Normalizing trims, and puts the event's name for a blank message type and ten for no retries. */
  lemma NormalizeMeans(route: NotificationRoute, e: EventEnvelope)
    ensures var r, kind := Normalize(route, e), TrimSpace(route.messageType);
            && r.channel == TrimSpace(route.channel) && r.target == TrimSpace(route.target)
            && (kind != "" ==> r.messageType == kind) && (kind == "" ==> r.messageType == e.eventName)
            && (r.maxRetries == route.maxRetries >= 1 || (route.maxRetries <= 0 && r.maxRetries == 10))
  {
  }

  /** A route is complete when channel and target are not blank, and there is a message type or an event name. */
  lemma CompleteMeans(route: NotificationRoute, e: EventEnvelope)
    ensures Complete(Normalize(route, e))
            <==> TrimSpace(route.channel) != "" && TrimSpace(route.target) != ""
                 && (TrimSpace(route.messageType) != "" || e.eventName != "")
  {
  }

  lemma {:induction false} AddRoutesPassesIff(acc: seq<OutboxRow>, eventId: int, e: EventEnvelope,
                                              routes: seq<NotificationRoute>, ids: seq<int>, now: int)
    requires |acc| <= |ids| && eventId != 0
    ensures AddRoutes(acc, eventId, e, routes, ids, now).Ok?
            <==> AllComplete(e, routes) && |acc| + |routes| <= |ids|
  {
    if routes != [] {
      var n := |routes| - 1;
      AddRoutesPassesIff(acc, eventId, e, routes[..n], ids, now);
      if AddRoutes(acc, eventId, e, routes[..n], ids, now).Ok? {
        AddRoutesLaw(acc, eventId, e, routes[..n], ids, now);
      }
      assert AllComplete(e, routes) <==> AllComplete(e, routes[..n]) && Complete(Normalize(routes[n], e));
    }
  }

  lemma PlannedRow(id: int, eventId: int, events: map<int, ChainEvent>, n: Notice, now: int)
    requires eventId in events && events[eventId].event.eventKey == n.e.eventKey
    ensures RowOf(OutboxRowFor(id, eventId, n.e, Normalize(n.route, n.e), now), id, events, n, now)
  {
  }

  lemma RowsOfSnoc(rows: seq<OutboxRow>, from: nat, events: map<int, ChainEvent>, ns: seq<Notice>, ids: seq<int>,
                   now: int, row: OutboxRow, n: Notice)
    requires RowsOf(rows, from, events, ns, ids, now) && |rows| < |ids| && RowOf(row, ids[|rows|], events, n, now)
    ensures RowsOf(rows + [row], from, events, ns + [n], ids, now)
  {
  }

  lemma AddRouteLast(acc: seq<OutboxRow>, eventId: int, e: EventEnvelope, routes: seq<NotificationRoute>,
                     ids: seq<int>, now: int)
    requires routes != [] && AddRoutes(acc, eventId, e, routes, ids, now).Ok?
    ensures var n := |routes| - 1;
            var before := AddRoutes(acc, eventId, e, routes[..n], ids, now);
            && before.Ok? && |before.value| < |ids|
            && AddRoutes(acc, eventId, e, routes, ids, now).value
               == before.value + [OutboxRowFor(ids[|before.value|], eventId, e, Normalize(routes[n], e), now)]
  {
  }

  lemma {:induction false} AddRoutesRows(acc: seq<OutboxRow>, eventId: int, e: EventEnvelope,
                                         routes: seq<NotificationRoute>, ids: seq<int>, now: int,
                                         events: map<int, ChainEvent>)
    requires |acc| <= |ids| && eventId in events && events[eventId].event.eventKey == e.eventKey
    requires AddRoutes(acc, eventId, e, routes, ids, now).Ok?
    ensures var rows := AddRoutes(acc, eventId, e, routes, ids, now).value;
            |acc| <= |rows| && rows[..|acc|] == acc && RowsOf(rows, |acc|, events, NoticesOf(e, routes), ids, now)
  {
    if routes == [] {
      assert acc[..|acc|] == acc;
    } else {
      var n := |routes| - 1;
      AddRoutesRows(acc, eventId, e, routes[..n], ids, now, events);
      AddRouteLast(acc, eventId, e, routes, ids, now);
      var before := AddRoutes(acc, eventId, e, routes[..n], ids, now).value;
      var last := Notice(e, routes[n]);
      PlannedRow(ids[|before|], eventId, events, last, now);
      RowsOfSnoc(before, |acc|, events, NoticesOf(e, routes[..n]), ids, now,
                 OutboxRowFor(ids[|before|], eventId, e, Normalize(routes[n], e), now), last);
      assert NoticesOf(e, routes) == NoticesOf(e, routes[..n]) + [last];
    }
  }

  /** Every key has a row, every planner answer is there, and every route is complete. */
  ghost predicate Plannable(events: map<int, ChainEvent>, planner: Planner, es: seq<EventEnvelope>) {
    forall i :: 0 <= i < |es| ==>
                  HasKey(events, es[i].eventKey) && planner(es[i]).Ok? && AllComplete(es[i], planner(es[i]).value)
  }

  lemma PlannableSnoc(events: map<int, ChainEvent>, planner: Planner, es: seq<EventEnvelope>)
    requires es != []
    ensures var n := |es| - 1;
            Plannable(events, planner, es)
            <==> Plannable(events, planner, es[..n]) && HasKey(events, es[n].eventKey) && planner(es[n]).Ok?
                 && AllComplete(es[n], planner(es[n]).value)
  {
    var n := |es| - 1;
    if Plannable(events, planner, es[..n]) && HasKey(events, es[n].eventKey) && planner(es[n]).Ok?
       && AllComplete(es[n], planner(es[n]).value) {
      forall i | 0 <= i < |es|
        ensures HasKey(events, es[i].eventKey) && planner(es[i]).Ok? && AllComplete(es[i], planner(es[i]).value)
      {
        if i < n { assert es[..n][i] == es[i]; }
      }
    }
  }

  lemma StoredIdIsNotZero(events: map<int, ChainEvent>, key: string)
    requires EventsOk(events) && HasKey(events, key)
    ensures PersistedId(events, key) != 0
  {
    assert EventOk(PersistedId(events, key), events[PersistedId(events, key)]);
  }

  lemma RowsOfConcat(before: seq<OutboxRow>, rows: seq<OutboxRow>, events: map<int, ChainEvent>, a: seq<Notice>,
                     b: seq<Notice>, ids: seq<int>, now: int)
    requires RowsOf(before, 0, events, a, ids, now) && |before| <= |rows| && rows[..|before|] == before
    requires RowsOf(rows, |before|, events, b, ids, now)
    ensures RowsOf(rows, 0, events, a + b, ids, now)
  {
    forall k | 0 <= k < |a + b| ensures RowOf(rows[k], ids[k], events, (a + b)[k], now) {
      if k < |a| {
        assert rows[k] == rows[..|before|][k] && RowOf(before[0 + k], ids[0 + k], events, a[k], now);
      } else {
        assert RowOf(rows[|before| + (k - |a|)], ids[|before| + (k - |a|)], events, b[k - |a|], now);
      }
    }
  }

  /** The plan comes about exactly then, with an ID for each notice, and has one row per notice. */
  lemma {:induction false} PlansIff(events: map<int, ChainEvent>, planner: Planner, es: seq<EventEnvelope>,
                                    ids: seq<int>, now: int)
    requires EventsOk(events)
    ensures var r := PlanOutbox(events, planner, es, ids, now);
            && (r.Ok? <==> Plannable(events, planner, es) && |Notices(planner, es)| <= |ids|)
            && (r.Ok? ==> RowsOf(r.value, 0, events, Notices(planner, es), ids, now))
  {
    if es != [] {
      var n := |es| - 1;
      PlansIff(events, planner, es[..n], ids, now);
      PlannableSnoc(events, planner, es);
      var before := PlanOutbox(events, planner, es[..n], ids, now);
      if before.Ok? && HasKey(events, es[n].eventKey) && planner(es[n]).Ok? {
        PlanLast(events, planner, es, ids, now, before.value);
      }
    }
  }

  /** Route k is the first that cannot be planned, after a rows, and this is why. */
  predicate StopsRoutes(e: EventEnvelope, routes: seq<NotificationRoute>, a: nat, ids: seq<int>, k: nat,
                        error: SaveError) {
    && k < |routes| && AllComplete(e, routes[..k])
    && (if !Complete(Normalize(routes[k], e)) then error == RouteIncomplete
        else a + k >= |ids| && error == NoId)
  }

  lemma {:induction false} AddRoutesFailsAt(acc: seq<OutboxRow>, eventId: int, e: EventEnvelope,
                                            routes: seq<NotificationRoute>, ids: seq<int>, now: int)
    requires |acc| <= |ids| && eventId != 0
    ensures var r := AddRoutes(acc, eventId, e, routes, ids, now);
            r.Err? ==> exists k: nat :: StopsRoutes(e, routes, |acc|, ids, k, r.error)
  {
    if routes != [] {
      var n := |routes| - 1;
      AddRoutesFailsAt(acc, eventId, e, routes[..n], ids, now);
      AddRoutesPassesIff(acc, eventId, e, routes[..n], ids, now);
      var before, r := AddRoutes(acc, eventId, e, routes[..n], ids, now), AddRoutes(acc, eventId, e, routes, ids, now);
      if before.Err? {
        var k: nat :| StopsRoutes(e, routes[..n], |acc|, ids, k, before.error);
        assert routes[..n][..k] == routes[..k];
        assert StopsRoutes(e, routes, |acc|, ids, k, r.error);
      } else if r.Err? {
        AddRoutesLaw(acc, eventId, e, routes[..n], ids, now);
        assert StopsRoutes(e, routes, |acc|, ids, n, r.error);
      }
    }
  }

  /** Event i is the first whose notices cannot be planned, and this is why. */
  ghost predicate StopsPlan(events: map<int, ChainEvent>, planner: Planner, es: seq<EventEnvelope>, ids: seq<int>,
                            i: nat, error: SaveError) {
    && i < |es| && Plannable(events, planner, es[..i])
    && (if !HasKey(events, es[i].eventKey) then error == EventNotPersisted
        else match planner(es[i])
          case Err(cause) => error == PlanFailed(cause)
          case Ok(routes) =>
            exists k: nat :: StopsRoutes(es[i], routes, |Notices(planner, es[..i])|, ids, k, error))
  }

  /** A plan that fails does so at the first event, and there at the first route, that cannot be planned. */
  lemma {:induction false} PlanFailsAt(events: map<int, ChainEvent>, planner: Planner, es: seq<EventEnvelope>,
                                       ids: seq<int>, now: int)
    requires EventsOk(events)
    ensures var r := PlanOutbox(events, planner, es, ids, now);
            r.Err? ==> exists i: nat :: StopsPlan(events, planner, es, ids, i, r.error)
  {
    if es != [] {
      var n := |es| - 1;
      PlanFailsAt(events, planner, es[..n], ids, now);
      PlansIff(events, planner, es[..n], ids, now);
      var before, r := PlanOutbox(events, planner, es[..n], ids, now), PlanOutbox(events, planner, es, ids, now);
      if before.Err? {
        var i: nat :| StopsPlan(events, planner, es[..n], ids, i, before.error);
        assert es[..n][..i] == es[..i];
        assert StopsPlan(events, planner, es, ids, i, r.error);
      } else if r.Err? {
        if HasKey(events, es[n].eventKey) && planner(es[n]).Ok? {
          StoredIdIsNotZero(events, es[n].eventKey);
          AddRoutesFailsAt(before.value, PersistedId(events, es[n].eventKey), es[n], planner(es[n]).value, ids, now);
        }
        assert StopsPlan(events, planner, es, ids, n, r.error);
      }
    }
  }

  lemma PlanLast(events: map<int, ChainEvent>, planner: Planner, es: seq<EventEnvelope>, ids: seq<int>, now: int,
                 before: seq<OutboxRow>)
    requires EventsOk(events) && es != [] && HasKey(events, es[|es| - 1].eventKey) && planner(es[|es| - 1]).Ok?
    requires PlanOutbox(events, planner, es[..|es| - 1], ids, now) == Ok(before)
    requires RowsOf(before, 0, events, Notices(planner, es[..|es| - 1]), ids, now)
    ensures var r, e := PlanOutbox(events, planner, es, ids, now), es[|es| - 1];
            && (r.Ok? <==> AllComplete(e, planner(e).value) && |Notices(planner, es)| <= |ids|)
            && (r.Ok? ==> RowsOf(r.value, 0, events, Notices(planner, es), ids, now))
  {
    var e := es[|es| - 1];
    var id, routes := PersistedId(events, e.eventKey), planner(e).value;
    StoredIdIsNotZero(events, e.eventKey);
    AddRoutesPassesIff(before, id, e, routes, ids, now);
    if AddRoutes(before, id, e, routes, ids, now).Ok? {
      AddRoutesRows(before, id, e, routes, ids, now, events);
      RowsOfConcat(before, AddRoutes(before, id, e, routes, ids, now).value, events,
                   Notices(planner, es[..|es| - 1]), NoticesOf(e, routes), ids, now);
    }
  }

  // ---------- outbox rows ----------

  /** No row of the table and no earlier row is for the same delivery. */
  ghost predicate IsNew(t: map<int, OutboxRow>, rows: seq<OutboxRow>, k: nat)
    requires k < |rows|
  {
    !Delivered(t, rows[k]) && forall j :: 0 <= j < k ==> !SameDelivery(rows[j], rows[k])
  }

  /** The ID of a new row is in use neither in the table nor by an earlier new row. */
  ghost predicate IdIsFree(t: map<int, OutboxRow>, rows: seq<OutboxRow>, k: nat)
    requires k < |rows|
  {
    rows[k].id !in t && forall j :: 0 <= j < k && IsNew(t, rows, j) ==> rows[j].id != rows[k].id
  }

  ghost predicate IdsAreFree(t: map<int, OutboxRow>, rows: seq<OutboxRow>) {
    forall k :: 0 <= k < |rows| && IsNew(t, rows, k) ==> IdIsFree(t, rows, k)
  }

  /** t' is t and the new rows, each under its ID. */
  ghost predicate Adds(t: map<int, OutboxRow>, rows: seq<OutboxRow>, t': map<int, OutboxRow>) {
    && Extends(t, t')
    && (forall id :: id in t' && id !in t ==> exists k :: 0 <= k < |rows| && IsNew(t, rows, k) && rows[k].id == id)
    && (forall k :: 0 <= k < |rows| && IsNew(t, rows, k) ==> rows[k].id in t' && t'[rows[k].id] == rows[k])
  }

  lemma PrefixIsNew(t: map<int, OutboxRow>, rows: seq<OutboxRow>, n: nat, k: nat)
    requires k < n <= |rows|
    ensures IsNew(t, rows[..n], k) <==> IsNew(t, rows, k)
  {
  }

  lemma PrefixIdIsFree(t: map<int, OutboxRow>, rows: seq<OutboxRow>, n: nat, k: nat)
    requires k < n <= |rows|
    ensures IdIsFree(t, rows[..n], k) <==> IdIsFree(t, rows, k)
  {
    forall j | 0 <= j < k ensures IsNew(t, rows[..n], j) <==> IsNew(t, rows, j) { PrefixIsNew(t, rows, n, j); }
  }

  lemma IdsAreFreeSnoc(t: map<int, OutboxRow>, rows: seq<OutboxRow>)
    requires rows != []
    ensures var n := |rows| - 1;
            IdsAreFree(t, rows)
            <==> IdsAreFree(t, rows[..n]) && (IsNew(t, rows, n) ==> IdIsFree(t, rows, n))
  {
    var n := |rows| - 1;
    forall k | 0 <= k < n
      ensures (IsNew(t, rows[..n], k) <==> IsNew(t, rows, k)) && (IdIsFree(t, rows[..n], k) <==> IdIsFree(t, rows, k))
    {
      PrefixIsNew(t, rows, n, k);
      PrefixIdIsFree(t, rows, n, k);
    }
  }

  lemma DeliveredAlike(t: map<int, OutboxRow>, a: OutboxRow, b: OutboxRow)
    requires SameDelivery(a, b)
    ensures Delivered(t, a) <==> Delivered(t, b)
  {
    assert forall id :: id in t ==> (SameDelivery(t[id], a) <==> SameDelivery(t[id], b));
  }

  /** The first row for a delivery, if the table has none, is new. */
  lemma {:induction false} SomeIsNew(t: map<int, OutboxRow>, rows: seq<OutboxRow>, j: nat) returns (k: nat)
    requires j < |rows| && !Delivered(t, rows[j])
    ensures k <= j && IsNew(t, rows, k) && SameDelivery(rows[k], rows[j])
    decreases j
  {
    if i :| 0 <= i < j && SameDelivery(rows[i], rows[j]) {
      DeliveredAlike(t, rows[i], rows[j]);
      k := SomeIsNew(t, rows, i);
    } else {
      k := j;
    }
  }

  /** After the rows are added, the table has a row for their deliveries and the earlier ones, and for no other. */
  lemma AddedIsDelivered(t: map<int, OutboxRow>, rows: seq<OutboxRow>, t': map<int, OutboxRow>, r: OutboxRow)
    requires Adds(t, rows, t')
    ensures Delivered(t', r) <==> Delivered(t, r) || exists j :: 0 <= j < |rows| && SameDelivery(rows[j], r)
  {
    if Delivered(t, r) {
      ExtendsKeepsDelivered(t, t', r);
    } else if j :| 0 <= j < |rows| && SameDelivery(rows[j], r) {
      DeliveredAlike(t, rows[j], r);
      var k := SomeIsNew(t, rows, j);
      assert SameDelivery(t'[rows[k].id], r);
    }
    if Delivered(t', r) { DeliveredIsKnown(t, rows, t', r); }
  }

  lemma DeliveredIsKnown(t: map<int, OutboxRow>, rows: seq<OutboxRow>, t': map<int, OutboxRow>, r: OutboxRow)
    requires Adds(t, rows, t') && Delivered(t', r)
    ensures Delivered(t, r) || exists j :: 0 <= j < |rows| && SameDelivery(rows[j], r)
  {
    var id :| id in t' && SameDelivery(t'[id], r);
    if id in t {
      assert SameDelivery(t[id], r);
    } else {
      var k :| 0 <= k < |rows| && IsNew(t, rows, k) && rows[k].id == id;
      assert SameDelivery(rows[k], r);
    }
  }

  /** The insert passes exactly when the ID of every new row is free, and then adds exactly the new rows. */
  lemma {:induction false} InsertsIff(t: map<int, OutboxRow>, rows: seq<OutboxRow>)
    ensures InsertOutbox(t, rows).Ok? <==> IdsAreFree(t, rows)
    ensures InsertOutbox(t, rows).Ok? ==> Adds(t, rows, InsertOutbox(t, rows).value)
  {
    if rows != [] {
      var n := |rows| - 1;
      InsertsIff(t, rows[..n]);
      IdsAreFreeSnoc(t, rows);
      if InsertOutbox(t, rows[..n]).Ok? { InsertLast(t, rows, InsertOutbox(t, rows[..n]).value); }
    }
  }

  lemma InsertLast(t: map<int, OutboxRow>, rows: seq<OutboxRow>, before: map<int, OutboxRow>)
    requires rows != [] && InsertOutbox(t, rows[..|rows| - 1]) == Ok(before) && Adds(t, rows[..|rows| - 1], before)
    ensures var n := |rows| - 1;
            && (InsertOutbox(t, rows).Ok? <==> (IsNew(t, rows, n) ==> IdIsFree(t, rows, n)))
            && (InsertOutbox(t, rows).Ok? ==> Adds(t, rows, InsertOutbox(t, rows).value))
  {
    var n := |rows| - 1;
    DeliveredIffNotNew(t, rows, before);
    if IsNew(t, rows, n) { IdTakenIff(t, rows, before); }
    if InsertOutbox(t, rows).Ok? { LastAdded(t, rows, before, InsertOutbox(t, rows).value); }
  }

  lemma DeliveredIffNotNew(t: map<int, OutboxRow>, rows: seq<OutboxRow>, before: map<int, OutboxRow>)
    requires rows != [] && Adds(t, rows[..|rows| - 1], before)
    ensures Delivered(before, rows[|rows| - 1]) <==> !IsNew(t, rows, |rows| - 1)
  {
    var n := |rows| - 1;
    AddedIsDelivered(t, rows[..n], before, rows[n]);
    assert forall j :: 0 <= j < n ==> rows[..n][j] == rows[j];
  }

  lemma IdTakenIff(t: map<int, OutboxRow>, rows: seq<OutboxRow>, before: map<int, OutboxRow>)
    requires rows != [] && Adds(t, rows[..|rows| - 1], before)
    ensures rows[|rows| - 1].id !in before <==> IdIsFree(t, rows, |rows| - 1)
  {
    var n := |rows| - 1;
    var id := rows[n].id;
    forall k | 0 <= k < n ensures IsNew(t, rows[..n], k) <==> IsNew(t, rows, k) { PrefixIsNew(t, rows, n, k); }
    if id in before && id !in t {
      var k :| 0 <= k < n && IsNew(t, rows[..n], k) && rows[..n][k].id == id;
      assert rows[k].id == id;
    }
    if j :| 0 <= j < n && IsNew(t, rows, j) && rows[j].id == id {
      assert rows[..n][j].id in before;
    }
  }

  lemma LastAdded(t: map<int, OutboxRow>, rows: seq<OutboxRow>, before: map<int, OutboxRow>, after: map<int, OutboxRow>)
    requires rows != [] && Adds(t, rows[..|rows| - 1], before)
    requires var r := rows[|rows| - 1];
             if IsNew(t, rows, |rows| - 1) then r.id !in before && after == before[r.id := r] else after == before
    ensures Adds(t, rows, after)
  {
    var n := |rows| - 1;
    forall k | 0 <= k < n ensures IsNew(t, rows[..n], k) <==> IsNew(t, rows, k) { PrefixIsNew(t, rows, n, k); }
    forall id | id in after && id !in t ensures exists k :: 0 <= k < |rows| && IsNew(t, rows, k) && rows[k].id == id {
      if id in before {
        var k :| 0 <= k < n && IsNew(t, rows[..n], k) && rows[..n][k].id == id;
        assert IsNew(t, rows, k) && rows[k].id == id;
      } else {
        assert IsNew(t, rows, n) && rows[n].id == id;
      }
    }
    forall k | 0 <= k < |rows| && IsNew(t, rows, k) ensures rows[k].id in after && after[rows[k].id] == rows[k] {
      if k < n { assert rows[..n][k].id in before; }
    }
  }

  // ---------- the same about notices ----------

  predicate SameNotice(a: Notice, b: Notice) {
    var r, q := Normalize(a.route, a.e), Normalize(b.route, b.e);
    a.e.eventKey == b.e.eventKey && r.channel == q.channel && r.target == q.target && r.messageType == q.messageType
  }

  /** The table has an outbox row for the notice. */
  ghost predicate Told(t: map<int, OutboxRow>, n: Notice) {
    exists id :: id in t && Delivers(t[id], n.e, n.route)
  }

  /** Neither the table nor an earlier notice of the batch says the same. */
  ghost predicate IsNews(t: map<int, OutboxRow>, ns: seq<Notice>, k: nat)
    requires k < |ns|
  {
    !Told(t, ns[k]) && forall j :: 0 <= j < k ==> !SameNotice(ns[j], ns[k])
  }

  /** The ID that is drawn for a new notice is in use neither in the table nor by an earlier new notice. */
  ghost predicate NewsIdsAreFree(t: map<int, OutboxRow>, ns: seq<Notice>, ids: seq<int>)
    requires |ns| <= |ids|
  {
    forall k :: 0 <= k < |ns| && IsNews(t, ns, k) ==>
                  ids[k] !in t && forall j :: 0 <= j < k && IsNews(t, ns, j) ==> ids[j] != ids[k]
  }

  lemma NewsIsNew(t: map<int, OutboxRow>, rows: seq<OutboxRow>, events: map<int, ChainEvent>, ns: seq<Notice>,
                  ids: seq<int>, now: int, k: nat)
    requires RowsOf(rows, 0, events, ns, ids, now) && k < |ns|
    ensures IsNew(t, rows, k) <==> IsNews(t, ns, k)
  {
    assert forall j :: 0 <= j < |ns| ==> RowOf(rows[0 + j], ids[0 + j], events, ns[j], now);
    assert forall id :: id in t ==> (SameDelivery(t[id], rows[k]) <==> Delivers(t[id], ns[k].e, ns[k].route));
    assert forall j :: 0 <= j < k ==> (SameDelivery(rows[j], rows[k]) <==> SameNotice(ns[j], ns[k]));
  }

  lemma NewsIds(t: map<int, OutboxRow>, rows: seq<OutboxRow>, events: map<int, ChainEvent>, ns: seq<Notice>,
                ids: seq<int>, now: int)
    requires RowsOf(rows, 0, events, ns, ids, now)
    ensures forall k :: 0 <= k < |ns| ==> rows[k].id == ids[k] && (IsNew(t, rows, k) <==> IsNews(t, ns, k))
    ensures IdsAreFree(t, rows) <==> NewsIdsAreFree(t, ns, ids)
  {
    forall k | 0 <= k < |ns| ensures rows[k].id == ids[k] && (IsNew(t, rows, k) <==> IsNews(t, ns, k)) {
      NewsIsNew(t, rows, events, ns, ids, now, k);
      assert RowOf(rows[0 + k], ids[0 + k], events, ns[k], now);
    }
  }

  // ---------- when a save passes ----------

  /** What the outbox asks for after the events are in. */
  ghost predicate NoticesFit(db: Database, planner: Planner, unique: seq<EventEnvelope>, ids: seq<int>)
    requires |unique| <= |ids|
  {
    && FreshIds(db.events, unique, ids)
    && (forall i :: 0 <= i < |unique| ==>
          planner(unique[i]).Ok? && AllComplete(unique[i], planner(unique[i]).value))
    && |unique| + |Notices(planner, unique)| <= |ids|
    && NewsIdsAreFree(db.outbox, Notices(planner, unique), ids[|unique|..])
  }

  /** Everything that a save needs. */
  ghost predicate CanSave(db: Database, planner: Option<Planner>, es: seq<EventEnvelope>, ids: seq<int>,
                          done: nat -> bool) {
    var unique := Dedupe(es);
    Buildable(unique, ids, done) && (planner.Some? ==> NoticesFit(db, planner.value, unique, ids))
  }

  lemma PlannableIff(db: Database, planner: Planner, es: seq<EventEnvelope>, ids: seq<int>, done: nat -> bool,
                     rows: seq<ChainEvent>)
    requires DatabaseOk(db) && AllWellKeyed(es) && BuildRows(Dedupe(es), ids, done) == Ok(rows)
    ensures |Dedupe(es)| <= |ids|
    ensures Plannable(InsertEvents(db.events, rows), planner, Dedupe(es))
            <==> FreshIds(db.events, Dedupe(es), ids)
                 && forall i :: 0 <= i < |Dedupe(es)| ==>
                      planner(Dedupe(es)[i]).Ok? && AllComplete(Dedupe(es)[i], planner(Dedupe(es)[i]).value)
  {
    InsertedAreKeyedIffFresh(db, es, ids, done, rows);
    assert AllPersisted(InsertEvents(db.events, rows), Dedupe(es))
           <==> forall i :: 0 <= i < |Dedupe(es)| ==> HasKey(InsertEvents(db.events, rows), Dedupe(es)[i].eventKey);
  }

  /**
   A save passes exactly when there are IDs for all distinct events and nothing is cancelled, each event can be stored,
   and, with a planner, the IDs of new events are free, the planner answers for each event with complete routes, there
   are IDs for all notices, and those for new notices are free.
   */
  lemma SavePassesIff(db: Database, planner: Option<Planner>, es: seq<EventEnvelope>, ids: seq<int>, now: int,
                      done: nat -> bool)
    requires DatabaseOk(db) && AllWellKeyed(es)
    ensures Save(db, planner, es, ids, now, done).1.Pass? <==> CanSave(db, planner, es, ids, done)
  {
    var unique := Dedupe(es);
    BuildsIff(unique, ids, done);
    var built := BuildRows(unique, ids, done);
    if built.Ok? && planner.Some? {
      var events, rest := InsertEvents(db.events, built.value), ids[|unique|..];
      EventsInserted(db, es, ids, done, built.value);
      PlannableIff(db, planner.value, es, ids, done, built.value);
      PlansIff(events, planner.value, unique, rest, now);
      var plan := PlanOutbox(events, planner.value, unique, rest, now);
      if plan.Ok? {
        InsertsIff(db.outbox, plan.value);
        NewsIds(db.outbox, plan.value, events, Notices(planner.value, unique), rest, now);
      }
    }
  }

  // ---------- what a save adds ----------

  /** The new outbox rows are those of the new notices, each under the ID drawn for it. */
  ghost predicate AddsNews(t: map<int, OutboxRow>, t': map<int, OutboxRow>, events: map<int, ChainEvent>,
                           ns: seq<Notice>, ids: seq<int>, now: int)
    requires |ns| <= |ids|
  {
    && Extends(t, t')
    && (forall id :: id in t' && id !in t ==> exists k :: 0 <= k < |ns| && IsNews(t, ns, k) && ids[k] == id)
    && (forall k :: 0 <= k < |ns| && IsNews(t, ns, k) ==>
          ids[k] in t' && RowOf(t'[ids[k]], ids[k], events, ns[k], now))
  }

  /** The new event rows are the events whose keys are new, each under the ID drawn for it. */
  ghost predicate AddsEvents(t: map<int, ChainEvent>, t': map<int, ChainEvent>, es: seq<EventEnvelope>, ids: seq<int>)
    requires |es| <= |ids|
  {
    && Extends(t, t')
    && (forall id :: id in t' && id !in t ==>
          exists k :: 0 <= k < |es| && !HasKey(t, es[k].eventKey) && ids[k] == id)
    && (forall k :: 0 <= k < |es| && !HasKey(t, es[k].eventKey) ==>
          ids[k] in t' && t'[ids[k]] == ChainEvent(ids[k], es[k]))
  }

  lemma NewRowIsNewEvent(t: map<int, ChainEvent>, es: seq<EventEnvelope>, rows: seq<ChainEvent>, ids: seq<int>, id: int)
    requires EventsOk(t) && RowsOk(rows) && RowsFor(rows, es, ids) && id in InsertEvents(t, rows) && id !in t
    ensures exists k :: 0 <= k < |es| && !HasKey(t, es[k].eventKey) && ids[k] == id
  {
    InsertEventsLaw(t, rows);
    NewRowHadNewKey(t, rows, id);
    var k :| 0 <= k < |rows| && rows[k] == InsertEvents(t, rows)[id] && !HasKey(t, rows[k].event.eventKey);
    assert EventOk(id, InsertEvents(t, rows)[id]) && rows[k] == ChainEvent(ids[k], es[k]);
  }

  lemma NewEventHasRow(t: map<int, ChainEvent>, es: seq<EventEnvelope>, rows: seq<ChainEvent>, ids: seq<int>, k: nat)
    requires EventsOk(t) && RowsOk(rows) && RowsFor(rows, es, ids) && DistinctKeys(es)
    requires AllPersisted(InsertEvents(t, rows), es) && k < |es| && !HasKey(t, es[k].eventKey)
    ensures ids[k] in InsertEvents(t, rows) && InsertEvents(t, rows)[ids[k]] == ChainEvent(ids[k], es[k])
  {
    assert rows[k] == ChainEvent(ids[k], es[k]);
    forall i, j | 0 <= i < j < |rows| ensures rows[i].event.eventKey != rows[j].event.eventKey {
      assert es[i].eventKey != es[j].eventKey;
    }
    NewKeyHasRow(t, rows, k);
  }

  lemma RowsAdded(t: map<int, ChainEvent>, es: seq<EventEnvelope>, rows: seq<ChainEvent>, ids: seq<int>)
    requires EventsOk(t) && RowsOk(rows) && RowsFor(rows, es, ids) && DistinctKeys(es)
    requires AllPersisted(InsertEvents(t, rows), es)
    ensures AddsEvents(t, InsertEvents(t, rows), es, ids)
  {
    InsertEventsLaw(t, rows);
    var t' := InsertEvents(t, rows);
    forall id | id in t' && id !in t ensures exists k :: 0 <= k < |es| && !HasKey(t, es[k].eventKey) && ids[k] == id {
      NewRowIsNewEvent(t, es, rows, ids, id);
    }
    forall k | 0 <= k < |es| && !HasKey(t, es[k].eventKey)
      ensures ids[k] in t' && t'[ids[k]] == ChainEvent(ids[k], es[k])
    {
      NewEventHasRow(t, es, rows, ids, k);
    }
  }

  lemma EventsAdded(db: Database, es: seq<EventEnvelope>, ids: seq<int>, done: nat -> bool, rows: seq<ChainEvent>)
    requires DatabaseOk(db) && AllWellKeyed(es) && BuildRows(Dedupe(es), ids, done) == Ok(rows)
    requires |Dedupe(es)| <= |ids| && FreshIds(db.events, Dedupe(es), ids)
    ensures AddsEvents(db.events, InsertEvents(db.events, rows), Dedupe(es), ids)
  {
    EventsInserted(db, es, ids, done, rows);
    InsertedAreKeyedIffFresh(db, es, ids, done, rows);
    RowsAdded(db.events, Dedupe(es), rows, ids);
  }

  lemma NewsAdded(t: map<int, OutboxRow>, rows: seq<OutboxRow>, events: map<int, ChainEvent>, ns: seq<Notice>,
                  ids: seq<int>, now: int)
    requires RowsOf(rows, 0, events, ns, ids, now) && InsertOutbox(t, rows).Ok?
    ensures AddsNews(t, InsertOutbox(t, rows).value, events, ns, ids, now)
  {
    InsertsIff(t, rows);
    NewsIds(t, rows, events, ns, ids, now);
    var t' := InsertOutbox(t, rows).value;
    forall id | id in t' && id !in t ensures exists k :: 0 <= k < |ns| && IsNews(t, ns, k) && ids[k] == id {
      var k :| 0 <= k < |rows| && IsNew(t, rows, k) && rows[k].id == id;
    }
    forall k | 0 <= k < |ns| && IsNews(t, ns, k) ensures ids[k] in t' && RowOf(t'[ids[k]], ids[k], events, ns[k], now) {
      assert RowOf(rows[0 + k], ids[0 + k], events, ns[k], now);
    }
  }

  /** With a planner: both tables after a save that passes, row by row and column by column. */
  lemma PlannedSaveAdds(db: Database, planner: Planner, es: seq<EventEnvelope>, ids: seq<int>, now: int,
                        done: nat -> bool)
    requires DatabaseOk(db) && AllWellKeyed(es) && Save(db, Some(planner), es, ids, now, done).1.Pass?
    ensures var db', unique := Save(db, Some(planner), es, ids, now, done).0, Dedupe(es);
            && |unique| + |Notices(planner, unique)| <= |ids|
            && AddsEvents(db.events, db'.events, unique, ids)
            && AddsNews(db.outbox, db'.outbox, db'.events, Notices(planner, unique), ids[|unique|..], now)
  {
    var unique := Dedupe(es);
    SavePassesIff(db, Some(planner), es, ids, now, done);
    var rows := BuildRows(unique, ids, done).value;
    EventsInserted(db, es, ids, done, rows);
    EventsAdded(db, es, ids, done, rows);
    var events, rest := InsertEvents(db.events, rows), ids[|unique|..];
    PlansIff(events, planner, unique, rest, now);
    NewsAdded(db.outbox, PlanOutbox(events, planner, unique, rest, now).value, events, Notices(planner, unique), rest,
              now);
  }

  /** Without one: the events whose keys are new, when the IDs are fresh; the outbox stays. */
  lemma PlainSaveAdds(db: Database, es: seq<EventEnvelope>, ids: seq<int>, now: int, done: nat -> bool)
    requires DatabaseOk(db) && AllWellKeyed(es) && Save(db, None, es, ids, now, done).1.Pass?
    ensures var db', unique := Save(db, None, es, ids, now, done).0, Dedupe(es);
            && db'.outbox == db.outbox && |unique| <= |ids|
            && (FreshIds(db.events, unique, ids) ==> AddsEvents(db.events, db'.events, unique, ids))
  {
    var rows := BuildRows(Dedupe(es), ids, done).value;
    EventsInserted(db, es, ids, done, rows);
    if FreshIds(db.events, Dedupe(es), ids) { EventsAdded(db, es, ids, done, rows); }
  }

  // ---------- saving again ----------

  lemma {:induction false} KnownKeysInsertNothing(t: map<int, ChainEvent>, rows: seq<ChainEvent>)
    requires forall i :: 0 <= i < |rows| ==> HasKey(t, rows[i].event.eventKey)
    ensures InsertEvents(t, rows) == t
  {
    if rows != [] {
      var n := |rows| - 1;
      KnownKeysInsertNothing(t, rows[..n]);
      assert HasKey(t, rows[n].event.eventKey);
      var id :| id in t && t[id].event.eventKey == rows[n].event.eventKey;
      assert Clash(t[id], rows[n]);
    }
  }

  /** The notices of stored events have been told, and their routes are complete. */
  lemma {:induction false} StoredAreTold(db: Database, planner: Planner, es: seq<EventEnvelope>)
    requires DatabaseOk(db) && AllStored(db, Some(planner), es)
    ensures forall k :: 0 <= k < |Notices(planner, es)| ==> Told(db.outbox, Notices(planner, es)[k])
    ensures forall i :: 0 <= i < |es| ==> planner(es[i]).Ok? && AllComplete(es[i], planner(es[i]).value)
  {
    if es != [] {
      var n := |es| - 1;
      assert es[n] in es && Stored(db, Some(planner), es[n]);
      StoredAreTold(db, planner, es[..n]);
      forall k | 0 <= k < |planner(es[n]).value|
        ensures Told(db.outbox, Notice(es[n], planner(es[n]).value[k]))
        ensures Complete(Normalize(planner(es[n]).value[k], es[n]))
      {
        assert RouteStored(db, es[n], planner(es[n]).value[k]);
        var id :| id in db.outbox && Delivers(db.outbox[id], es[n], planner(es[n]).value[k]);
        assert OutboxRowOk(id, db.outbox[id], db.events);
      }
      forall i | 0 <= i < |es| ensures planner(es[i]).Ok? && AllComplete(es[i], planner(es[i]).value) {
        if i < n { assert es[..n][i] == es[i]; }
      }
    }
  }

  /** Enough IDs, all good, no cancellation: what does not depend on the tables. */
  predicate Supplied(planner: Option<Planner>, es: seq<EventEnvelope>, ids: seq<int>, done: nat -> bool) {
    && Buildable(Dedupe(es), ids, done)
    && (planner.Some? ==> |Dedupe(es)| + |Notices(planner.value, Dedupe(es))| <= |ids|)
  }

  lemma StoredFits(db: Database, planner: Planner, unique: seq<EventEnvelope>, ids: seq<int>)
    requires DatabaseOk(db) && AllStored(db, Some(planner), unique)
    requires |unique| + |Notices(planner, unique)| <= |ids|
    ensures NoticesFit(db, planner, unique, ids)
    ensures forall k :: 0 <= k < |Notices(planner, unique)| ==> !IsNews(db.outbox, Notices(planner, unique), k)
  {
    StoredAreTold(db, planner, unique);
    assert forall i :: 0 <= i < |unique| ==> Stored(db, Some(planner), unique[i]);
  }

  lemma StoredKeysInsertNothing(db: Database, planner: Option<Planner>, unique: seq<EventEnvelope>,
                                rows: seq<ChainEvent>, ids: seq<int>)
    requires AllStored(db, planner, unique) && RowsFor(rows, unique, ids)
    ensures InsertEvents(db.events, rows) == db.events
  {
    forall i | 0 <= i < |rows| ensures HasKey(db.events, rows[i].event.eventKey) {
      assert Stored(db, planner, unique[i]);
    }
    KnownKeysInsertNothing(db.events, rows);
  }

  /** Saving again what is stored with all its routes passes and changes nothing, whatever IDs are drawn. */
  lemma SavingAgainChangesNothing(db: Database, planner: Option<Planner>, es: seq<EventEnvelope>, ids: seq<int>,
                                  now: int, done: nat -> bool)
    requires DatabaseOk(db) && AllWellKeyed(es) && AllStored(db, planner, Dedupe(es))
    requires Supplied(planner, es, ids, done)
    ensures Save(db, planner, es, ids, now, done) == (db, Pass)
  {
    var unique := Dedupe(es);
    if planner.Some? { StoredFits(db, planner.value, unique, ids); }
    SavePassesIff(db, planner, es, ids, now, done);
    BuildsIff(unique, ids, done);
    var rows := BuildRows(unique, ids, done).value;
    EventsInserted(db, es, ids, done, rows);
    StoredKeysInsertNothing(db, planner, unique, rows, ids);
    if planner.Some? { StoredOutboxStays(db, planner.value, es, ids, now, done); }
  }

  lemma StoredOutboxStays(db: Database, planner: Planner, es: seq<EventEnvelope>, ids: seq<int>, now: int,
                          done: nat -> bool)
    requires DatabaseOk(db) && AllWellKeyed(es) && AllStored(db, Some(planner), Dedupe(es))
    requires Save(db, Some(planner), es, ids, now, done).1.Pass?
    ensures Save(db, Some(planner), es, ids, now, done).0.outbox == db.outbox
  {
    PlannedSaveAdds(db, planner, es, ids, now, done);
    StoredFits(db, planner, Dedupe(es), ids);
    var db' := Save(db, Some(planner), es, ids, now, done).0;
    NoNewsAddsNothing(db.outbox, db'.outbox, db'.events, Notices(planner, Dedupe(es)), ids[|Dedupe(es)|..], now);
  }

  lemma NoNewsAddsNothing(t: map<int, OutboxRow>, t': map<int, OutboxRow>, events: map<int, ChainEvent>,
                          ns: seq<Notice>, ids: seq<int>, now: int)
    requires |ns| <= |ids| && AddsNews(t, t', events, ns, ids, now)
    requires forall k :: 0 <= k < |ns| ==> !IsNews(t, ns, k)
    ensures t' == t
  {
    assert forall id :: id in t' ==> id in t;
    assert forall id :: id in t ==> id in t' && t'[id] == t[id];
  }
}
