/** The cursor table (database/store_cursor.go): one row per key, merged field by field with GREATEST. */
module CursorStore {
  import opened Basics
  import opened Chunks

  datatype Cursor = Cursor(
    key: string,
    chainId: U64,
    chainName: string,
    network: string,
    monitor: string,
    nextBlock: U64,
    safeBlock: U64,
    latestBlock: U64)

  datatype CursorError =
    KeyRequired | ChainIdRequired | ChainNameRequired | NetworkRequired | MonitorRequired | DbFailed

  /** How the database answers a statement; one whose answer is an error may have been carried out. */
  datatype Reply = Done | Broken(applied: bool)

  predicate Savable(c: Cursor) {
    c.key != "" && c.chainId != 0 && c.chainName != "" && c.network != "" && c.monitor != ""
  }

  /** The row after an upsert of c over the row that is there. */
  function Merge(row: Option<Cursor>, c: Cursor): Cursor {
    match row
    case None => c
    case Some(stored) => c.(nextBlock := Max(stored.nextBlock, c.nextBlock),
                         safeBlock := Max(stored.safeBlock, c.safeBlock),
                         latestBlock := Max(stored.latestBlock, c.latestBlock))
  }

  /** The row of the key, if there is one. */
  function Lookup(rows: map<string, Cursor>, key: string): (r: Option<Cursor>)
    ensures r.Some? <==> key in rows
    ensures r.Some? ==> r.value == rows[key]
  {
    if key in rows then Some(rows[key]) else None
  }

  /** The row is the saved cursor, except that no block number falls behind the one that was there. */
  predicate Raised(row: Cursor, before: map<string, Cursor>, c: Cursor) {
    && row == c.(nextBlock := row.nextBlock, safeBlock := row.safeBlock, latestBlock := row.latestBlock)
    && row.nextBlock == (if c.key in before then Max(before[c.key].nextBlock, c.nextBlock) else c.nextBlock)
    && row.safeBlock == (if c.key in before then Max(before[c.key].safeBlock, c.safeBlock) else c.safeBlock)
    && row.latestBlock == (if c.key in before then Max(before[c.key].latestBlock, c.latestBlock) else c.latestBlock)
  }

  /** The merge of two cursors is the row that a save leaves. */
  lemma MergeRaises(before: map<string, Cursor>, c: Cursor, row: Cursor)
    ensures row == Merge(Lookup(before, c.key), c) <==> Raised(row, before, c)
  {
  }

  class Store {
    var rows: map<string, Cursor>

    constructor ()
      ensures rows == map[]
    {
      rows := map[];
    }

    method GetCursor(key: string, reply: Reply) returns (r: Result<Option<Cursor>, CursorError>)
      ensures r == Err(KeyRequired) <==> key == ""
      ensures r == Err(DbFailed) <==> key != "" && reply.Broken?
      ensures r.Err? ==> r.error.KeyRequired? || r.error.DbFailed?
      ensures r.Ok? ==> (r.value.Some? <==> key in rows) && (r.value.Some? ==> r.value.value == rows[key])
    {
      if key == "" {
        return Err(KeyRequired);
      }
      if reply.Broken? {
        return Err(DbFailed);
      }
      if key !in rows {
        return Ok(None);
      }
      r := Ok(Some(rows[key]));
    }

    method SaveCursor(c: Cursor, reply: Reply) returns (r: Outcome<CursorError>)
      modifies this
      ensures r.Pass? <==> Savable(c) && reply.Done?
      ensures if Savable(c) && (reply.Done? || reply.applied)
              then c.key in rows && rows == old(rows)[c.key := rows[c.key]] && Raised(rows[c.key], old(rows), c)
              else rows == old(rows)
    {
      if c.key == "" { return Fail(KeyRequired); }
      if c.chainId == 0 { return Fail(ChainIdRequired); }
      if c.chainName == "" { return Fail(ChainNameRequired); }
      if c.network == "" { return Fail(NetworkRequired); }
      if c.monitor == "" { return Fail(MonitorRequired); }
      if reply.Done? || reply.applied {
        if c.key in rows {
          var stored := rows[c.key];
          rows := rows[c.key := c.(nextBlock := Max(stored.nextBlock, c.nextBlock),
                                   safeBlock := Max(stored.safeBlock, c.safeBlock),
                                   latestBlock := Max(stored.latestBlock, c.latestBlock))];
        } else {
          rows := rows[c.key := c];
        }
      }
      r := if reply.Done? then Pass else Fail(DbFailed);
    }
  }

  // ---------- many saves of one key ----------

  function SaveAll(row: Option<Cursor>, saves: seq<Cursor>): Option<Cursor> {
    if saves == [] then row
    else Some(Merge(SaveAll(row, saves[..|saves| - 1]), saves[|saves| - 1]))
  }

  /** m is the greatest of f over the saves and the row that was there. */
  ghost predicate IsGreatest(m: int, f: Cursor -> int, row: Option<Cursor>, saves: seq<Cursor>) {
    && ((exists i :: 0 <= i < |saves| && f(saves[i]) == m) || (row.Some? && f(row.value) == m))
    && (forall i :: 0 <= i < |saves| ==> f(saves[i]) <= m)
    && (row.Some? ==> f(row.value) <= m)
  }

  const NEXT: Cursor -> int := (c: Cursor) => c.nextBlock
  const SAFE: Cursor -> int := (c: Cursor) => c.safeBlock
  const LATEST: Cursor -> int := (c: Cursor) => c.latestBlock

  lemma GreatestStep(m: int, f: Cursor -> int, row: Option<Cursor>, saves: seq<Cursor>, c: Cursor)
    requires IsGreatest(m, f, row, saves)
    ensures IsGreatest(Max(m, f(c)), f, row, saves + [c])
  {
    var all := saves + [c];
    if f(c) > m {
      assert f(all[|saves|]) == f(c);
    } else if i :| 0 <= i < |saves| && f(saves[i]) == m {
      assert f(all[i]) == m;
    }
  }

  lemma {:induction false} SaveAllTakesGreatest(row: Option<Cursor>, saves: seq<Cursor>)
    requires saves != [] || row.Some?
    ensures var r := SaveAll(row, saves);
            && r.Some?
            && IsGreatest(r.value.nextBlock, NEXT, row, saves)
            && IsGreatest(r.value.safeBlock, SAFE, row, saves)
            && IsGreatest(r.value.latestBlock, LATEST, row, saves)
  {
    if saves != [] {
      var init, c := saves[..|saves| - 1], saves[|saves| - 1];
      assert saves == init + [c];
      if init == [] && row.None? {
        assert saves[0] == c;
      } else {
        SaveAllTakesGreatest(row, init);
        var before := SaveAll(row, init).value;
        GreatestStep(before.nextBlock, NEXT, row, init, c);
        GreatestStep(before.safeBlock, SAFE, row, init, c);
        GreatestStep(before.latestBlock, LATEST, row, init, c);
      }
    }
  }

  lemma GreatestUnique(m: int, n: int, f: Cursor -> int, row: Option<Cursor>, a: seq<Cursor>, b: seq<Cursor>)
    requires multiset(a) == multiset(b)
    requires IsGreatest(m, f, row, a) && IsGreatest(n, f, row, b)
    ensures m == n
  {
    GreatestBound(m, n, f, row, a, b);
    GreatestBound(n, m, f, row, b, a);
  }

  lemma GreatestBound(m: int, n: int, f: Cursor -> int, row: Option<Cursor>, a: seq<Cursor>, b: seq<Cursor>)
    requires multiset(a) == multiset(b)
    requires IsGreatest(m, f, row, a) && IsGreatest(n, f, row, b)
    ensures m <= n
  {
    if i :| 0 <= i < |a| && f(a[i]) == m {
      assert a[i] in multiset(b);
      var j :| 0 <= j < |b| && b[j] == a[i];
      assert f(b[j]) <= n;
    }
  }

  /** The order in which concurrent scanners save does not matter for any block field. */
  lemma SavesCommute(row: Option<Cursor>, a: seq<Cursor>, b: seq<Cursor>)
    requires multiset(a) == multiset(b) && (a != [] || row.Some?)
    ensures var x, y := SaveAll(row, a), SaveAll(row, b);
            && x.Some? && y.Some?
            && x.value.nextBlock == y.value.nextBlock
            && x.value.safeBlock == y.value.safeBlock
            && x.value.latestBlock == y.value.latestBlock
  {
    assert |multiset(a)| == |multiset(b)|;
    SaveAllTakesGreatest(row, a);
    SaveAllTakesGreatest(row, b);
    var x, y := SaveAll(row, a).value, SaveAll(row, b).value;
    GreatestUnique(x.nextBlock, y.nextBlock, NEXT, row, a, b);
    GreatestUnique(x.safeBlock, y.safeBlock, SAFE, row, a, b);
    GreatestUnique(x.latestBlock, y.latestBlock, LATEST, row, a, b);
  }

  /** The shape of every cursor that a scanner with this confirmation depth saves. */
  ghost predicate Aligned(c: Cursor, confirmations: nat) {
    c.nextBlock <= c.safeBlock + 1 && c.latestBlock == c.safeBlock + confirmations
  }

  /** Merging keeps the shape and never moves a field back, whatever was saved in between. */
  lemma {:induction false} SavesKeepAligned(row: Option<Cursor>, saves: seq<Cursor>, confirmations: nat)
    requires row.Some? ==> Aligned(row.value, confirmations)
    requires forall i :: 0 <= i < |saves| ==> Aligned(saves[i], confirmations)
    ensures var r := SaveAll(row, saves);
            && (r.Some? ==> Aligned(r.value, confirmations))
            && (row.Some? ==> && r.Some? && row.value.nextBlock <= r.value.nextBlock
                              && row.value.safeBlock <= r.value.safeBlock
                                 && row.value.latestBlock <= r.value.latestBlock)
  {
    if saves != [] {
      SavesKeepAligned(row, saves[..|saves| - 1], confirmations);
    }
  }

  /** The shape of a cursor that a scanner of one of the two depths saves. */
  ghost predicate AlignedToOne(x: Cursor, c: U64, d: U64) {
    Aligned(x, c) || Aligned(x, d)
  }

  ghost predicate AllAlignedToOne(saves: seq<Cursor>, c: U64, d: U64) {
    forall i :: 0 <= i < |saves| ==> AlignedToOne(saves[i], c, d)
  }

  /** Whatever scanners of these two depths save, in any order, the stored cursor is one that one of them could save. */
  ghost predicate DepthsMix(c: U64, d: U64) {
    forall saves: seq<Cursor> :: saves != [] && AllAlignedToOne(saves, c, d)
                                 ==> AlignedToOne(SaveAll(None, saves).value, c, d)
  }

  lemma {:induction false} SavesStayAligned(saves: seq<Cursor>, c: U64, d: U64)
    requires saves != [] && AllAlignedToOne(saves, c, d) && c <= d + 1 && d <= c + 1
    ensures AlignedToOne(SaveAll(None, saves).value, c, d)
  {
    var init := saves[..|saves| - 1];
    if init != [] { SavesStayAligned(init, c, d); }
  }

  function PlainCursor(safe: U64, latest: U64): Cursor {
    Cursor("k", 1, "c", "n", "m", 0, safe, latest)
  }

  /** A deep scanner at the start and a shallow one a block further on. */
  lemma DepthsApart(c: U64, d: U64)
    requires c > d + 1
    ensures !DepthsMix(c, d) && !DepthsMix(d, c)
  {
    var saves := [PlainCursor(0, c), PlainCursor(1, 1 + d)];
    assert AllAlignedToOne(saves, c, d) && AllAlignedToOne(saves, d, c);
    assert SaveAll(None, [saves[0]]) == Some(saves[0]);
    assert saves[..1] == [saves[0]];
    assert SaveAll(None, saves) == Some(PlainCursor(1, c));
  }

  /** Scanners with different confirmation depths can share a cursor exactly when the depths differ by at most one. */
  lemma DepthsMixIff(c: U64, d: U64)
    ensures DepthsMix(c, d) <==> c <= d + 1 && d <= c + 1
  {
    if c > d + 1 {
      DepthsApart(c, d);
    } else if d > c + 1 {
      DepthsApart(d, c);
    } else {
      forall saves: seq<Cursor> | saves != [] && AllAlignedToOne(saves, c, d)
        ensures AlignedToOne(SaveAll(None, saves).value, c, d)
      {
        SavesStayAligned(saves, c, d);
      }
    }
  }
}
