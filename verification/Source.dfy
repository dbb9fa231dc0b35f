/**
 The query source (chains/evm/source.go): configured specs become eth_getLogs
 queries, split so that no query names too many addresses.
 */
module Source {
  import opened Basics
  import opened Domain

  datatype QuerySpec = QuerySpec(addresses: seq<Address>, topics: seq<seq<Hash>>)

  datatype QuerySource = QuerySource(
    name: string,
    specs: seq<QuerySpec>,
    maxAddressesPerQuery: int,
    allowEmptyFilter: bool)

  datatype FilterQuery = FilterQuery(
    fromBlock: nat,
    toBlock: nat,
    addresses: seq<Address>,
    topics: seq<seq<Hash>>)

  datatype SourceError =
    | NameRequired
    | SpecsEmpty
    | SpecEmpty(index: nat)
    | TooManyTopics(index: nat)
    | BadRange
    | Cancelled

  // ---------- what a filter means (eth_getLogs) ----------

  /** Topics match by position; an empty position is a wildcard but the log must still have that topic. */
  predicate TopicsMatch(pattern: seq<seq<Hash>>, topics: seq<Hash>) {
    && |pattern| <= |topics|
    && forall i :: 0 <= i < |pattern| ==> pattern[i] == [] || topics[i] in pattern[i]
  }

  /** An empty address list is a wildcard. */
  predicate FilterMatches(addresses: seq<Address>, pattern: seq<seq<Hash>>, log: Log) {
    && (addresses == [] || log.address in addresses)
    && TopicsMatch(pattern, log.topics)
  }

  predicate QueryMatches(q: FilterQuery, log: Log) {
    && q.fromBlock <= log.blockNumber <= q.toBlock
    && FilterMatches(q.addresses, q.topics, log)
  }

  /** What the configuration asks for. */
  predicate SourceMatches(src: QuerySource, log: Log) {
    || (src.specs == [] && src.allowEmptyFilter)
    || exists i :: 0 <= i < |src.specs| && FilterMatches(src.specs[i].addresses, src.specs[i].topics, log)
  }

  // ---------- construction ----------

  predicate SpecOk(spec: QuerySpec, allowEmptyFilter: bool) {
    && (spec.addresses == [] && spec.topics == [] ==> allowEmptyFilter)
    && |spec.topics| <= 4
  }

  /** The sources that NewQuerySource lets through. */
  ghost predicate ValidSource(src: QuerySource) {
    && src.name != [] && src.name == TrimSpace(src.name)
    && src.maxAddressesPerQuery > 0
    && (src.specs == [] ==> src.allowEmptyFilter)
    && forall i :: 0 <= i < |src.specs| ==> SpecOk(src.specs[i], src.allowEmptyFilter)
  }

  method NewQuerySource(cfg: QuerySource) returns (r: Result<QuerySource, SourceError>)
    ensures r.Ok? ==> && ValidSource(r.value)
                      && r.value.specs == cfg.specs && r.value.allowEmptyFilter == cfg.allowEmptyFilter
                      && r.value.name == TrimSpace(cfg.name)
                      && r.value.maxAddressesPerQuery
                         == if cfg.maxAddressesPerQuery <= 0 then 100 else cfg.maxAddressesPerQuery
    ensures r.Err? <==> || TrimSpace(cfg.name) == []
                        || (cfg.specs == [] && !cfg.allowEmptyFilter)
                        || exists i :: 0 <= i < |cfg.specs| && !SpecOk(cfg.specs[i], cfg.allowEmptyFilter)
  {
    var name := TrimSpace(cfg.name);
    if name == "" {
      return Err(NameRequired);
    }
    var max := if cfg.maxAddressesPerQuery <= 0 then 100 else cfg.maxAddressesPerQuery;
    if |cfg.specs| == 0 && !cfg.allowEmptyFilter {
      return Err(SpecsEmpty);
    }
    var i := 0;
    while i < |cfg.specs|
      invariant 0 <= i <= |cfg.specs|
      invariant forall j :: 0 <= j < i ==> SpecOk(cfg.specs[j], cfg.allowEmptyFilter)
    {
      var spec := cfg.specs[i];
      if |spec.addresses| == 0 && |spec.topics| == 0 && !cfg.allowEmptyFilter {
        assert !SpecOk(cfg.specs[i], cfg.allowEmptyFilter);
        return Err(SpecEmpty(i));
      }
      if |spec.topics| > 4 {
        assert !SpecOk(cfg.specs[i], cfg.allowEmptyFilter);
        return Err(TooManyTopics(i));
      }
      i := i + 1;
    }
    TrimSpaceLaw(cfg.name);
    r := Ok(QuerySource(name, cfg.specs, max, cfg.allowEmptyFilter));
  }

  // ---------- splitting addresses ----------

  /** Consecutive pieces of at most size addresses. */
  function Pieces<T>(addresses: seq<T>, size: int): seq<seq<T>> {
    if addresses == [] then []
    else if size <= 0 || |addresses| <= size then [addresses]
    else [addresses[..size]] + Pieces(addresses[size..], size)
  }

  /** No piece is empty or too long. */
  lemma {:induction false} PieceSizes<T>(addresses: seq<T>, size: int)
    ensures forall k :: 0 <= k < |Pieces(addresses, size)| ==>
              Pieces(addresses, size)[k] != [] && (size > 0 ==> |Pieces(addresses, size)[k]| <= size)
    decreases |addresses|
  {
    if addresses != [] && size > 0 && |addresses| > size {
      PieceSizes(addresses[size..], size);
    }
  }

  function Flatten<T>(pieces: seq<seq<T>>): seq<T> {
    if pieces == [] then [] else pieces[0] + Flatten(pieces[1..])
  }

  /** Splitting loses, repeats and reorders nothing. */
  lemma {:induction false} PiecesFlatten<T>(addresses: seq<T>, size: int)
    ensures Flatten(Pieces(addresses, size)) == addresses
    decreases |addresses|
  {
    var pieces := Pieces(addresses, size);
    if addresses == [] {
    } else if size <= 0 || |addresses| <= size {
      assert pieces[1..] == [];
      assert Flatten(pieces) == pieces[0] + [];
    } else {
      PiecesFlatten(addresses[size..], size);
      assert pieces[1..] == Pieces(addresses[size..], size);
    }
  }

  lemma {:induction false} InFlatten<T>(pieces: seq<seq<T>>, a: T)
    ensures a in Flatten(pieces) <==> exists k :: 0 <= k < |pieces| && a in pieces[k]
  {
    if pieces != [] {
      InFlatten(pieces[1..], a);
      if k :| 0 <= k < |pieces| && a in pieces[k] {
        if k > 0 { assert a in pieces[1..][k - 1]; }
      }
      if k :| 0 <= k < |pieces[1..]| && a in pieces[1..][k] {
        assert a in pieces[k + 1];
      }
    }
  }

  method SplitAddresses<T>(addresses: seq<T>, size: int) returns (out: seq<seq<T>>)
    ensures out == Pieces(addresses, size)
  {
    if |addresses| == 0 {
      return [];
    }
    if size <= 0 || |addresses| <= size {
      return [addresses];
    }
    out := [];
    var start := 0;
    while start < |addresses|
      invariant 0 <= start
      invariant out + PiecesFrom(addresses, size, start) == Pieces(addresses, size)
    {
      var end := start + size;
      if end > |addresses| {
        end := |addresses|;
      }
      PiecesNext(addresses, size, start, end);
      Regroup(out, addresses[start..end], PiecesFrom(addresses, size, start + size));
      out := out + [addresses[start..end]];
      start := start + size;
    }
  }

  lemma Regroup<T>(a: seq<T>, x: T, b: seq<T>)
    ensures a + ([x] + b) == (a + [x]) + b
  {
  }

  /** The pieces of the addresses from start on. */
  function PiecesFrom<T>(addresses: seq<T>, size: int, start: nat): seq<seq<T>> {
    if start < |addresses| then Pieces(addresses[start..], size) else []
  }

  /** The first piece of what is left. */
  lemma PiecesNext<T>(addresses: seq<T>, size: int, start: nat, end: nat)
    requires size > 0 && start < |addresses| && end == Min(start + size, |addresses|)
    ensures PiecesFrom(addresses, size, start) == [addresses[start..end]] + PiecesFrom(addresses, size, start + size)
  {
    var rest := addresses[start..];
    assert addresses[start..end] == rest[..end - start];
    if start + size < |addresses| {
      assert rest[size..] == addresses[start + size..];
    } else {
      assert addresses[start..end] == rest;
    }
  }

  // ---------- building queries ----------

  /** One query for each piece. */
  function QueriesForPieces(pieces: seq<seq<Address>>, topics: seq<seq<Hash>>, from: nat, to: nat): seq<FilterQuery> {
    if pieces == [] then []
    else [FilterQuery(from, to, pieces[0], topics)] + QueriesForPieces(pieces[1..], topics, from, to)
  }

  lemma {:induction false} QueriesFollowPieces(pieces: seq<seq<Address>>, topics: seq<seq<Hash>>, from: nat, to: nat)
    ensures var qs := QueriesForPieces(pieces, topics, from, to);
            |qs| == |pieces| && forall k :: 0 <= k < |qs| ==> qs[k] == FilterQuery(from, to, pieces[k], topics)
  {
    if pieces != [] { QueriesFollowPieces(pieces[1..], topics, from, to); }
  }

  function QueriesForSpec(spec: QuerySpec, size: int, from: nat, to: nat): seq<FilterQuery> {
    if spec.addresses == [] then [FilterQuery(from, to, [], spec.topics)]
    else QueriesForPieces(Pieces(spec.addresses, size), spec.topics, from, to)
  }

  /** The queries of the first n specs. */
  function QueriesForSpecs(specs: seq<QuerySpec>, n: nat, size: int, from: nat, to: nat): seq<FilterQuery>
    requires n <= |specs|
  {
    if n == 0 then [] else QueriesForSpecs(specs, n - 1, size, from, to) + QueriesForSpec(specs[n - 1], size, from, to)
  }

  /** The queries BuildQueries answers with when it does not fail. */
  function Queries(src: QuerySource, from: nat, to: nat): seq<FilterQuery> {
    if src.specs == [] then [FilterQuery(from, to, [], [])]
    else QueriesForSpecs(src.specs, |src.specs|, src.maxAddressesPerQuery, from, to)
  }

  /** done(i) is what ctx.Done shows just before spec i is read. */
  method BuildQueries(src: QuerySource, from: nat, to: nat, done: nat -> bool)
    returns (r: Result<seq<FilterQuery>, SourceError>)
    ensures r.Ok? ==> r.value == Queries(src, from, to)
    ensures r.Err? <==> || from > to
                        || (src.specs == [] && !src.allowEmptyFilter)
                        || exists i :: 0 <= i < |src.specs| && done(i)
  {
    if from > to {
      return Err(BadRange);
    }
    if |src.specs| == 0 {
      if !src.allowEmptyFilter {
        return Err(SpecsEmpty);
      }
      return Ok([FilterQuery(from, to, [], [])]);
    }
    r := ReadSpecs(src.specs, src.maxAddressesPerQuery, from, to, done);
  }

  /** BuildQueries' loop over the specs. */
  method ReadSpecs(specs: seq<QuerySpec>, size: int, from: nat, to: nat, done: nat -> bool)
    returns (r: Result<seq<FilterQuery>, SourceError>)
    ensures r.Ok? ==> r.value == QueriesForSpecs(specs, |specs|, size, from, to)
    ensures r.Err? <==> exists i :: 0 <= i < |specs| && done(i)
  {
    var queries := [];
    var i := 0;
    while i < |specs|
      invariant 0 <= i <= |specs|
      invariant queries == QueriesForSpecs(specs, i, size, from, to)
      invariant forall j :: 0 <= j < i ==> !done(j)
    {
      if done(i) {
        return Err(Cancelled);
      }
      queries := AppendQueries(queries, specs, i, size, from, to);
      i := i + 1;
    }
    r := Ok(queries);
  }

  /** The body of BuildQueries' loop: one query without addresses, or one for each piece. */
  method AppendQueries(before: seq<FilterQuery>, specs: seq<QuerySpec>, i: nat, size: int, from: nat, to: nat)
    returns (queries: seq<FilterQuery>)
    requires i < |specs| && before == QueriesForSpecs(specs, i, size, from, to)
    ensures queries == QueriesForSpecs(specs, i + 1, size, from, to)
  {
    var spec := specs[i];
    if |spec.addresses| == 0 {
      return before + [FilterQuery(from, to, [], spec.topics)];
    }
    var more := QueriesOfPieces(spec.addresses, spec.topics, size, from, to);
    queries := before + more;
  }

  method QueriesOfPieces(addresses: seq<Address>, topics: seq<seq<Hash>>, size: int, from: nat, to: nat)
    returns (queries: seq<FilterQuery>)
    requires addresses != []
    ensures queries == QueriesForPieces(Pieces(addresses, size), topics, from, to)
  {
    var pieces := SplitAddresses(addresses, size);
    PieceSizes(addresses, size);
    queries := [];
    var k := 0;
    while k < |pieces|
      invariant 0 <= k <= |pieces| && |queries| == k
      invariant forall j :: 0 <= j < k ==> queries[j] == FilterQuery(from, to, pieces[j], topics)
    {
      if |pieces[k]| != 0 {
        queries := queries + [FilterQuery(from, to, pieces[k], topics)];
      }
      k := k + 1;
    }
    QueriesFollowPieces(pieces, topics, from, to);
  }

  // ---------- splitting preserves meaning ----------

  ghost predicate SomeMatches(qs: seq<FilterQuery>, log: Log) {
    exists k :: 0 <= k < |qs| && QueryMatches(qs[k], log)
  }

  lemma SomeMatchesConcat(a: seq<FilterQuery>, b: seq<FilterQuery>, log: Log)
    ensures SomeMatches(a + b, log) <==> SomeMatches(a, log) || SomeMatches(b, log)
  {
    if k :| 0 <= k < |a| && QueryMatches(a[k], log) {
      assert QueryMatches((a + b)[k], log);
    }
    if k :| 0 <= k < |b| && QueryMatches(b[k], log) {
      assert QueryMatches((a + b)[|a| + k], log);
    }
    if k :| 0 <= k < |a + b| && QueryMatches((a + b)[k], log) {
      if k < |a| { assert QueryMatches(a[k], log); } else { assert QueryMatches(b[k - |a|], log); }
    }
  }

  lemma SpecQueriesMean(spec: QuerySpec, size: int, from: nat, to: nat, log: Log)
    ensures SomeMatches(QueriesForSpec(spec, size, from, to), log)
            <==> from <= log.blockNumber <= to && FilterMatches(spec.addresses, spec.topics, log)
  {
    var qs := QueriesForSpec(spec, size, from, to);
    if spec.addresses == [] {
      assert qs[0] == FilterQuery(from, to, [], spec.topics);
    } else {
      var pieces := Pieces(spec.addresses, size);
      QueriesFollowPieces(pieces, spec.topics, from, to);
      PieceSizes(spec.addresses, size);
      PiecesFlatten(spec.addresses, size);
      InFlatten(pieces, log.address);
      if k :| 0 <= k < |pieces| && log.address in pieces[k] {
        assert qs[k].addresses == pieces[k];
        assert FilterMatches(spec.addresses, spec.topics, log) && from <= log.blockNumber <= to ==>
               QueryMatches(qs[k], log);
      }
    }
  }

  ghost predicate SomeSpecMatches(specs: seq<QuerySpec>, n: nat, log: Log)
    requires n <= |specs|
  {
    exists i :: 0 <= i < n && FilterMatches(specs[i].addresses, specs[i].topics, log)
  }

  lemma {:induction false} SpecsQueriesMean(specs: seq<QuerySpec>, n: nat, size: int, from: nat, to: nat, log: Log)
    requires n <= |specs|
    ensures SomeMatches(QueriesForSpecs(specs, n, size, from, to), log)
            <==> from <= log.blockNumber <= to && SomeSpecMatches(specs, n, log)
  {
    if n > 0 {
      SpecsQueriesMean(specs, n - 1, size, from, to, log);
      SpecQueriesMean(specs[n - 1], size, from, to, log);
      SomeMatchesConcat(QueriesForSpecs(specs, n - 1, size, from, to), QueriesForSpec(specs[n - 1], size, from, to),
                        log);
    }
  }

  /** The union of the queries selects exactly the configured logs of the block range. */
  lemma QueriesMeanSource(src: QuerySource, from: nat, to: nat, log: Log)
    requires src.specs == [] ==> src.allowEmptyFilter
    ensures SomeMatches(Queries(src, from, to), log) <==> from <= log.blockNumber <= to && SourceMatches(src, log)
  {
    if src.specs == [] {
      assert Queries(src, from, to)[0] == FilterQuery(from, to, [], []);
    } else {
      SpecsQueriesMean(src.specs, |src.specs|, src.maxAddressesPerQuery, from, to, log);
    }
  }

  /** A query keeps within the address limit, and has no address only where its spec has none. */
  ghost predicate Disciplined(q: FilterQuery, specs: seq<QuerySpec>, size: int, from: nat, to: nat) {
    && q.fromBlock == from && q.toBlock == to
    && (size > 0 ==> |q.addresses| <= size)
    && exists i :: 0 <= i < |specs| && q.topics == specs[i].topics && (q.addresses == [] <==> specs[i].addresses == [])
  }

  lemma {:induction false} NoAccidentalWildcard(specs: seq<QuerySpec>, n: nat, size: int, from: nat, to: nat)
    requires n <= |specs|
    ensures forall k :: 0 <= k < |QueriesForSpecs(specs, n, size, from, to)|
                        ==> Disciplined(QueriesForSpecs(specs, n, size, from, to)[k], specs, size, from, to)
  {
    if n > 0 {
      NoAccidentalWildcard(specs, n - 1, size, from, to);
      var a, b := QueriesForSpecs(specs, n - 1, size, from, to), QueriesForSpec(specs[n - 1], size, from, to);
      forall k | 0 <= k < |a + b| ensures Disciplined((a + b)[k], specs, size, from, to) {
        if k >= |a| {
          var q := b[k - |a|];
          QueriesFollowPieces(Pieces(specs[n - 1].addresses, size), specs[n - 1].topics, from, to);
          PieceSizes(specs[n - 1].addresses, size);
          assert q.topics == specs[n - 1].topics && (q.addresses == [] <==> specs[n - 1].addresses == []);
        }
      }
    }
  }
}
