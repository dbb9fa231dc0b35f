/**
 The log handler (chains/evm/handler.go): a two-level decoder index, and the
 pass that turns raw logs into the events of one batch.  What a decoder or a
 filter answers is a fixed function; its code is not modelled.
 */
module Handler {
  import opened Basics
  import opened Domain
  import opened EventKey

  datatype DecoderKey = DecoderKey(address: Address, topic0: Hash, matchAnyAddress: bool)

  datatype ExactKey = ExactKey(address: Address, topic0: Hash)

  /** The code number stands for the decoder's program. */
  datatype Decoder = Decoder(name: string, keys: seq<DecoderKey>, code: nat)

  datatype Entry = Entry(decoder: Decoder, key: DecoderKey)

  datatype Index = Index(exact: map<ExactKey, Decoder>, topicOnly: map<Hash, Decoder>)

  datatype IndexError = NameEmpty | NoKeys | EmptyTopic | EmptyAddress | DuplicateTopic | DuplicateExact

  // ---------- building the index ----------

  function Pairs(d: Decoder, keys: seq<DecoderKey>): seq<Entry> {
    seq(|keys|, k requires 0 <= k < |keys| => Entry(d, keys[k]))
  }

  /** The keys of one decoder; nil decoders have none. */
  function EntriesOf(d: Option<Decoder>): seq<Entry> {
    if d.Some? then Pairs(d.value, d.value.keys) else []
  }

  /** All keys of all decoders, in configuration order. */
  function Entries(decoders: seq<Option<Decoder>>): seq<Entry> {
    if decoders == [] then []
    else Entries(decoders[..|decoders| - 1]) + EntriesOf(decoders[|decoders| - 1])
  }

  predicate Named(d: Option<Decoder>) {
    d.Some? ==> d.value.name != "" && d.value.keys != []
  }

  predicate KeyOk(key: DecoderKey) {
    !IsZero(key.topic0) && (key.matchAnyAddress || !IsZero(key.address))
  }

  /** Two keys that would need the same place in the index. */
  predicate SamePlace(a: DecoderKey, b: DecoderKey) {
    && a.matchAnyAddress == b.matchAnyAddress
    && a.topic0 == b.topic0
    && (a.matchAnyAddress || a.address == b.address)
  }

  ghost predicate NoClash(entries: seq<Entry>) {
    forall i, j :: 0 <= i < j < |entries| ==> !SamePlace(entries[i].key, entries[j].key)
  }

  ghost predicate KeysOk(entries: seq<Entry>) {
    forall i :: 0 <= i < |entries| ==> KeyOk(entries[i].key)
  }

  ghost predicate AllNamed(decoders: seq<Option<Decoder>>) {
    forall i :: 0 <= i < |decoders| ==> Named(decoders[i])
  }

  /** The configurations that can be indexed. */
  ghost predicate Indexable(decoders: seq<Option<Decoder>>) {
    AllNamed(decoders) && KeysOk(Entries(decoders)) && NoClash(Entries(decoders))
  }

  predicate InIndex(ix: Index, e: Entry) {
    if e.key.matchAnyAddress then
      e.key.topic0 in ix.topicOnly && ix.topicOnly[e.key.topic0] == e.decoder
    else
      ExactKey(e.key.address, e.key.topic0) in ix.exact && ix.exact[ExactKey(e.key.address, e.key.topic0)] == e.decoder
  }

  /** The index holds these entries and no others. */
  ghost predicate IndexOf(ix: Index, entries: seq<Entry>) {
    && (forall i :: 0 <= i < |entries| ==> InIndex(ix, entries[i]))
    && (forall t :: t in ix.topicOnly ==> exists i :: 0 <= i < |entries| && entries[i].key.matchAnyAddress
                                                      && entries[i].key.topic0 == t)
    && (forall p :: p in ix.exact ==> exists i :: 0 <= i < |entries| && !entries[i].key.matchAnyAddress
                                                  && ExactKey(entries[i].key.address, entries[i].key.topic0) == p)
  }

  predicate Taken(ix: Index, key: DecoderKey) {
    if key.matchAnyAddress then key.topic0 in ix.topicOnly else ExactKey(key.address, key.topic0) in ix.exact
  }

  function Insert(ix: Index, e: Entry): Index {
    if e.key.matchAnyAddress then Index(ix.exact, ix.topicOnly[e.key.topic0 := e.decoder])
    else Index(ix.exact[ExactKey(e.key.address, e.key.topic0) := e.decoder], ix.topicOnly)
  }

  lemma TakenMeansClash(ix: Index, entries: seq<Entry>, key: DecoderKey)
    requires IndexOf(ix, entries)
    ensures Taken(ix, key) <==> exists i :: 0 <= i < |entries| && SamePlace(entries[i].key, key)
  {
    if i :| 0 <= i < |entries| && SamePlace(entries[i].key, key) {
      assert InIndex(ix, entries[i]);
    }
  }

  lemma InsertKeepsIndex(ix: Index, entries: seq<Entry>, e: Entry)
    requires IndexOf(ix, entries) && NoClash(entries) && !Taken(ix, e.key)
    ensures IndexOf(Insert(ix, e), entries + [e]) && NoClash(entries + [e])
  {
    TakenMeansClash(ix, entries, e.key);
    var ix', all := Insert(ix, e), entries + [e];
    assert all[|entries|] == e;
    forall i | 0 <= i < |all| ensures InIndex(ix', all[i]) {
      if i < |entries| { assert InIndex(ix, entries[i]); }
    }
    forall t | t in ix'.topicOnly
      ensures exists i :: 0 <= i < |all| && all[i].key.matchAnyAddress && all[i].key.topic0 == t
    {
      if t in ix.topicOnly {
        var i :| 0 <= i < |entries| && entries[i].key.matchAnyAddress && entries[i].key.topic0 == t;
        assert all[i] == entries[i];
      }
    }
    forall p | p in ix'.exact
      ensures exists i :: 0 <= i < |all| && !all[i].key.matchAnyAddress
                          && ExactKey(all[i].key.address, all[i].key.topic0) == p
    {
      if p in ix.exact {
        var i :| 0 <= i < |entries| && !entries[i].key.matchAnyAddress
            && ExactKey(entries[i].key.address, entries[i].key.topic0) == p;
        assert all[i] == entries[i];
      }
    }
  }

  /** A defect among the first entries is a defect of the whole list. */
  lemma PrefixDefect(prefix: seq<Entry>, e: Entry, rest: seq<Entry>)
    requires !KeyOk(e.key) || exists i :: 0 <= i < |prefix| && SamePlace(prefix[i].key, e.key)
    ensures !KeysOk(prefix + [e] + rest) || !NoClash(prefix + [e] + rest)
  {
    var all := prefix + [e] + rest;
    assert all[|prefix|] == e;
    if KeyOk(e.key) {
      var i :| 0 <= i < |prefix| && SamePlace(prefix[i].key, e.key);
      assert all[i] == prefix[i];
    }
  }

  lemma EntriesNext(decoders: seq<Option<Decoder>>, d: nat)
    requires d < |decoders|
    ensures Entries(decoders[..d + 1]) == Entries(decoders[..d]) + EntriesOf(decoders[d])
  {
    assert decoders[..d + 1][..d] == decoders[..d];
  }

  lemma {:induction false} EntriesSplit(decoders: seq<Option<Decoder>>, d: nat) returns (rest: seq<Entry>)
    requires d <= |decoders|
    ensures Entries(decoders) == Entries(decoders[..d]) + rest
    decreases |decoders| - d
  {
    if d == |decoders| {
      assert decoders[..d] == decoders;
      rest := [];
    } else {
      var tail := EntriesSplit(decoders, d + 1);
      EntriesNext(decoders, d);
      rest := EntriesOf(decoders[d]) + tail;
    }
  }

  lemma NotIndexable(decoders: seq<Option<Decoder>>, d: nat)
    requires d <= |decoders| && (!KeysOk(Entries(decoders[..d])) || !NoClash(Entries(decoders[..d])))
    ensures !Indexable(decoders)
  {
    var prefix, all := Entries(decoders[..d]), Entries(decoders);
    var rest := EntriesSplit(decoders, d);
    assert forall i :: 0 <= i < |prefix| ==> all[i] == prefix[i];
  }

  /** The inner loop: one decoder's keys go into the index, or some key is at fault. */
  method AddKeys(decoder: Decoder, start: Index, ghost before: seq<Entry>) returns (r: Result<Index, IndexError>)
    requires IndexOf(start, before) && KeysOk(before) && NoClash(before)
    ensures var all := before + Pairs(decoder, decoder.keys);
            && (r.Ok? <==> KeysOk(all) && NoClash(all))
            && (r.Ok? ==> IndexOf(r.value, all))
  {
    var ix := start;
    ghost var all := before + Pairs(decoder, decoder.keys);
    var k := 0;
    assert before + Pairs(decoder, decoder.keys[..0]) == before;
    while k < |decoder.keys|
      invariant 0 <= k <= |decoder.keys|
      invariant KeysOk(all[..|before| + k]) && NoClash(all[..|before| + k])
      invariant IndexOf(ix, all[..|before| + k])
    {
      var key := decoder.keys[k];
      ghost var entries, e := all[..|before| + k], Entry(decoder, key);
      TakenMeansClash(ix, entries, key);
      assert all == entries + [e] + all[|before| + k + 1..];
      assert all[..|before| + k + 1] == entries + [e];
      if IsZero(key.topic0) {
        PrefixDefect(entries, e, all[|before| + k + 1..]);
        return Err(EmptyTopic);
      }
      if key.matchAnyAddress {
        if key.topic0 in ix.topicOnly {
          PrefixDefect(entries, e, all[|before| + k + 1..]);
          return Err(DuplicateTopic);
        }
        InsertKeepsIndex(ix, entries, e);
        ix := Index(ix.exact, ix.topicOnly[key.topic0 := decoder]);
      } else {
        if IsZero(key.address) {
          PrefixDefect(entries, e, all[|before| + k + 1..]);
          return Err(EmptyAddress);
        }
        if ExactKey(key.address, key.topic0) in ix.exact {
          PrefixDefect(entries, e, all[|before| + k + 1..]);
          return Err(DuplicateExact);
        }
        InsertKeepsIndex(ix, entries, e);
        ix := Index(ix.exact[ExactKey(key.address, key.topic0) := decoder], ix.topicOnly);
      }
      k := k + 1;
    }
    assert all[..|before| + k] == all;
    r := Ok(ix);
  }

  method BuildDecoderIndex(decoders: seq<Option<Decoder>>) returns (r: Result<Index, IndexError>)
    ensures r.Ok? <==> Indexable(decoders)
    ensures r.Ok? ==> IndexOf(r.value, Entries(decoders))
  {
    var ix := Index(map[], map[]);
    var d := 0;
    while d < |decoders|
      invariant 0 <= d <= |decoders|
      invariant AllNamed(decoders[..d])
      invariant KeysOk(Entries(decoders[..d])) && NoClash(Entries(decoders[..d]))
      invariant IndexOf(ix, Entries(decoders[..d]))
    {
      assert decoders[..d + 1][..d] == decoders[..d];
      assert Entries(decoders[..d + 1]) == Entries(decoders[..d]) + EntriesOf(decoders[d]);
      if decoders[d].Some? {
        var decoder := decoders[d].value;
        if decoder.name == "" {
          assert !Named(decoders[d]);
          return Err(NameEmpty);
        }
        if |decoder.keys| == 0 {
          assert !Named(decoders[d]);
          return Err(NoKeys);
        }
        var added := AddKeys(decoder, ix, Entries(decoders[..d]));
        if added.Err? {
          NotIndexable(decoders, d + 1);
          return added;
        }
        ix := added.value;
      } else {
        assert Entries(decoders[..d + 1]) == Entries(decoders[..d]);
      }
      d := d + 1;
    }
    assert decoders[..d] == decoders;
    r := Ok(ix);
  }

  // ---------- lookup ----------

  function FindDecoder(ix: Index, log: Log): Option<Decoder> {
    if log.topics == [] then None
    else if ExactKey(log.address, log.topics[0]) in ix.exact then Some(ix.exact[ExactKey(log.address, log.topics[0])])
    else if log.topics[0] in ix.topicOnly then Some(ix.topicOnly[log.topics[0]])
    else None
  }

  predicate ExactMatch(key: DecoderKey, log: Log) {
    log.topics != [] && !key.matchAnyAddress && key.topic0 == log.topics[0] && key.address == log.address
  }

  predicate TopicMatch(key: DecoderKey, log: Log) {
    log.topics != [] && key.matchAnyAddress && key.topic0 == log.topics[0]
  }

  function FirstExact(entries: seq<Entry>, log: Log): Option<Decoder> {
    if entries == [] then None
    else if ExactMatch(entries[0].key, log) then Some(entries[0].decoder)
    else FirstExact(entries[1..], log)
  }

  function FirstTopic(entries: seq<Entry>, log: Log): Option<Decoder> {
    if entries == [] then None
    else if TopicMatch(entries[0].key, log) then Some(entries[0].decoder)
    else FirstTopic(entries[1..], log)
  }

  /** The reference: scan all keys for an exact match, then all keys for a topic match. */
  function ScanDecoders(entries: seq<Entry>, log: Log): Option<Decoder> {
    match FirstExact(entries, log)
    case Some(d) => Some(d)
    case None => FirstTopic(entries, log)
  }

  lemma {:induction false} FirstExactFinds(entries: seq<Entry>, log: Log)
    ensures match FirstExact(entries, log)
            case Some(d) => exists i :: 0 <= i < |entries| && ExactMatch(entries[i].key, log) && entries[i].decoder == d
            case None => forall i :: 0 <= i < |entries| ==> !ExactMatch(entries[i].key, log)
  {
    if entries != [] && !ExactMatch(entries[0].key, log) {
      FirstExactFinds(entries[1..], log);
      if FirstExact(entries, log).Some? {
        var i :| 0 <= i < |entries[1..]| && ExactMatch(entries[1..][i].key, log)
                 && entries[1..][i].decoder == FirstExact(entries, log).value;
        assert entries[i + 1] == entries[1..][i];
      } else {
        forall i | 0 <= i < |entries| ensures !ExactMatch(entries[i].key, log) {
          if i > 0 { assert entries[i] == entries[1..][i - 1]; }
        }
      }
    }
  }

  lemma {:induction false} FirstTopicFinds(entries: seq<Entry>, log: Log)
    ensures match FirstTopic(entries, log)
            case Some(d) => exists i :: 0 <= i < |entries| && TopicMatch(entries[i].key, log) && entries[i].decoder == d
            case None => forall i :: 0 <= i < |entries| ==> !TopicMatch(entries[i].key, log)
  {
    if entries != [] && !TopicMatch(entries[0].key, log) {
      FirstTopicFinds(entries[1..], log);
      if FirstTopic(entries, log).Some? {
        var i :| 0 <= i < |entries[1..]| && TopicMatch(entries[1..][i].key, log)
                 && entries[1..][i].decoder == FirstTopic(entries, log).value;
        assert entries[i + 1] == entries[1..][i];
      } else {
        forall i | 0 <= i < |entries| ensures !TopicMatch(entries[i].key, log) {
          if i > 0 { assert entries[i] == entries[1..][i - 1]; }
        }
      }
    }
  }

  /** The indexed lookup agrees with the scan of all keys. */
  lemma LookupIsScan(ix: Index, entries: seq<Entry>, log: Log)
    requires IndexOf(ix, entries)
    ensures FindDecoder(ix, log) == ScanDecoders(entries, log)
  {
    FirstExactFinds(entries, log);
    FirstTopicFinds(entries, log);
    if FirstExact(entries, log).Some? {
      var i :| 0 <= i < |entries| && ExactMatch(entries[i].key, log)
          && entries[i].decoder == FirstExact(entries, log).value;
      assert InIndex(ix, entries[i]);
    } else if FirstTopic(entries, log).Some? {
      var i :| 0 <= i < |entries| && TopicMatch(entries[i].key, log)
          && entries[i].decoder == FirstTopic(entries, log).value;
      assert InIndex(ix, entries[i]);
    }
  }

  // ---------- the order of decoders does not matter ----------

  lemma TwicePresent<T>(s: seq<T>, x: T)
    requires multiset(s)[x] >= 2
    ensures exists i, j :: 0 <= i < j < |s| && s[i] == x && s[j] == x
  {
    var i :| 0 <= i < |s| && s[i] == x;
    var rest := s[..i] + s[i + 1..];
    assert s == s[..i] + [x] + s[i + 1..];
    assert multiset(s) == multiset(rest) + multiset{x};
    assert x in multiset(rest);
    var j :| 0 <= j < |rest| && rest[j] == x;
    if j < i { assert s[j] == x; } else { assert s[j + 1] == x; }
  }

  lemma TwoPositions<T>(a: seq<T>, b: seq<T>, i: nat, j: nat)
    requires multiset(a) == multiset(b) && i < j < |b|
    ensures exists p, q :: 0 <= p < |a| && 0 <= q < |a| && p != q && a[p] == b[i] && a[q] == b[j]
  {
    assert b[i] in multiset(a) && b[j] in multiset(a);
    if b[i] == b[j] {
      assert b == b[..j] + b[j..];
      assert multiset(b) == multiset(b[..j]) + multiset(b[j..]);
      assert b[..j][i] in multiset(b[..j]) && b[j..][0] in multiset(b[j..]);
      TwicePresent(a, b[i]);
    } else {
      var p :| 0 <= p < |a| && a[p] == b[i];
      var q :| 0 <= q < |a| && a[q] == b[j];
    }
  }

  ghost predicate CrossFree(a: seq<Entry>, b: seq<Entry>) {
    forall i, j :: 0 <= i < |a| && 0 <= j < |b| ==> !SamePlace(a[i].key, b[j].key)
  }

  /** No clash inside one decoder, none between two. */
  ghost predicate Clashless(ds: seq<Option<Decoder>>) {
    && (forall i :: 0 <= i < |ds| ==> NoClash(EntriesOf(ds[i])))
    && (forall i, j :: 0 <= i < j < |ds| ==> CrossFree(EntriesOf(ds[i]), EntriesOf(ds[j])))
  }

  lemma NoClashConcat(a: seq<Entry>, b: seq<Entry>)
    ensures NoClash(a + b) <==> NoClash(a) && NoClash(b) && CrossFree(a, b)
  {
    var c := a + b;
    if NoClash(c) {
      forall i, j | 0 <= i < j < |a| ensures !SamePlace(a[i].key, a[j].key) { assert c[i] == a[i] && c[j] == a[j]; }
      forall i, j | 0 <= i < j < |b| ensures !SamePlace(b[i].key, b[j].key) {
        assert c[|a| + i] == b[i] && c[|a| + j] == b[j];
      }
      forall i, j | 0 <= i < |a| && 0 <= j < |b| ensures !SamePlace(a[i].key, b[j].key) {
        assert c[i] == a[i] && c[|a| + j] == b[j];
      }
    }
  }

  lemma {:induction false} EntryMember(ds: seq<Option<Decoder>>, e: Entry)
    ensures e in Entries(ds) <==> exists i :: 0 <= i < |ds| && e in EntriesOf(ds[i])
  {
    if ds != [] {
      var init := ds[..|ds| - 1];
      EntryMember(init, e);
      if i :| 0 <= i < |init| && e in EntriesOf(init[i]) { assert e in EntriesOf(ds[i]); }
      if i :| 0 <= i < |ds| && e in EntriesOf(ds[i]) {
        if i < |init| { assert e in EntriesOf(init[i]); }
      }
    }
  }

  lemma CrossFreeEach(ds: seq<Option<Decoder>>, b: seq<Entry>)
    ensures CrossFree(Entries(ds), b) <==> CrossFreeAll(ds, b)
  {
    var all := Entries(ds);
    if CrossFree(all, b) {
      forall i, j, k | 0 <= i < |ds| && 0 <= j < |EntriesOf(ds[i])| && 0 <= k < |b|
        ensures !SamePlace(EntriesOf(ds[i])[j].key, b[k].key)
      {
        EntryMember(ds, EntriesOf(ds[i])[j]);
      }
    }
    if CrossFreeAll(ds, b) {
      forall m, k | 0 <= m < |all| && 0 <= k < |b| ensures !SamePlace(all[m].key, b[k].key) {
        EntryMember(ds, all[m]);
        var i :| 0 <= i < |ds| && all[m] in EntriesOf(ds[i]);
        assert CrossFree(EntriesOf(ds[i]), b);
      }
    }
  }

  ghost predicate CrossFreeAll(ds: seq<Option<Decoder>>, b: seq<Entry>) {
    forall i :: 0 <= i < |ds| ==> CrossFree(EntriesOf(ds[i]), b)
  }

  lemma ClashlessSnoc(init: seq<Option<Decoder>>, last: Option<Decoder>)
    ensures Clashless(init + [last])
            <==> Clashless(init) && NoClash(EntriesOf(last)) && CrossFreeAll(init, EntriesOf(last))
  {
    var ds := init + [last];
    assert ds[|init|] == last && forall i :: 0 <= i < |init| ==> init[i] == ds[i];
    if Clashless(ds) {
      forall i, j | 0 <= i < j < |init| ensures CrossFree(EntriesOf(init[i]), EntriesOf(init[j])) {
        assert CrossFree(EntriesOf(ds[i]), EntriesOf(ds[j]));
      }
      forall i | 0 <= i < |init| ensures CrossFree(EntriesOf(init[i]), EntriesOf(last)) && NoClash(EntriesOf(init[i])) {
        assert CrossFree(EntriesOf(ds[i]), EntriesOf(ds[|init|])) && NoClash(EntriesOf(ds[i]));
      }
    }
  }

  lemma {:induction false} IndexedIsClashless(ds: seq<Option<Decoder>>)
    requires NoClash(Entries(ds))
    ensures Clashless(ds)
  {
    if ds != [] {
      var init, last := ds[..|ds| - 1], ds[|ds| - 1];
      NoClashConcat(Entries(init), EntriesOf(last));
      IndexedIsClashless(init);
      CrossFreeEach(init, EntriesOf(last));
      ClashlessSnoc(init, last);
      assert ds == init + [last];
    }
  }

  lemma {:induction false} ClashlessIsIndexed(ds: seq<Option<Decoder>>)
    requires Clashless(ds)
    ensures NoClash(Entries(ds))
  {
    if ds != [] {
      var init, last := ds[..|ds| - 1], ds[|ds| - 1];
      assert ds == init + [last];
      ClashlessSnoc(init, last);
      ClashlessIsIndexed(init);
      CrossFreeEach(init, EntriesOf(last));
      NoClashConcat(Entries(init), EntriesOf(last));
    }
  }

  lemma ClashlessPermutes(a: seq<Option<Decoder>>, b: seq<Option<Decoder>>)
    requires multiset(a) == multiset(b) && Clashless(a)
    ensures Clashless(b)
  {
    forall i | 0 <= i < |b| ensures NoClash(EntriesOf(b[i])) {
      assert b[i] in multiset(a);
    }
    forall i, j | 0 <= i < j < |b| ensures CrossFree(EntriesOf(b[i]), EntriesOf(b[j])) {
      TwoPositions(a, b, i, j);
      var p, q :| 0 <= p < |a| && 0 <= q < |a| && p != q && a[p] == b[i] && a[q] == b[j];
      if p < q {
        assert CrossFree(EntriesOf(a[p]), EntriesOf(a[q]));
      } else {
        assert CrossFree(EntriesOf(a[q]), EntriesOf(a[p]));
      }
    }
  }

  lemma SameMembers(a: seq<Option<Decoder>>, b: seq<Option<Decoder>>, e: Entry)
    requires multiset(a) == multiset(b) && e in Entries(a)
    ensures e in Entries(b)
  {
    EntryMember(a, e);
    EntryMember(b, e);
    var i :| 0 <= i < |a| && e in EntriesOf(a[i]);
    assert a[i] in multiset(b);
    var j :| 0 <= j < |b| && b[j] == a[i];
    assert e in EntriesOf(b[j]);
  }

  lemma IndexablePermutes(a: seq<Option<Decoder>>, b: seq<Option<Decoder>>)
    requires multiset(a) == multiset(b) && Indexable(a)
    ensures Indexable(b)
  {
    IndexedIsClashless(a);
    ClashlessPermutes(a, b);
    ClashlessIsIndexed(b);
    forall i | 0 <= i < |b| ensures Named(b[i]) {
      assert b[i] in multiset(a);
    }
    forall i | 0 <= i < |Entries(b)| ensures KeyOk(Entries(b)[i].key) {
      SameMembers(b, a, Entries(b)[i]);
    }
  }

  /** Reordering the decoders changes neither whether the index can be built nor any lookup. */
  lemma DecoderOrderIrrelevant(a: seq<Option<Decoder>>, b: seq<Option<Decoder>>, x: Index, y: Index, log: Log)
    requires multiset(a) == multiset(b)
    ensures Indexable(a) <==> Indexable(b)
    ensures IndexOf(x, Entries(a)) && IndexOf(y, Entries(b)) ==> FindDecoder(x, log) == FindDecoder(y, log)
  {
    if Indexable(a) { IndexablePermutes(a, b); }
    if Indexable(b) { IndexablePermutes(b, a); }
    if IndexOf(x, Entries(a)) && IndexOf(y, Entries(b)) {
      forall e ensures e in Entries(a) <==> e in Entries(b) {
        if e in Entries(a) { SameMembers(a, b, e); }
        if e in Entries(b) { SameMembers(b, a, e); }
      }
      SameEntriesSameLookup(x, Entries(a), y, Entries(b), log);
      SameEntriesSameLookup(y, Entries(b), x, Entries(a), log);
    }
  }

  lemma SameEntriesSameLookup(x: Index, a: seq<Entry>, y: Index, b: seq<Entry>, log: Log)
    requires IndexOf(x, a) && IndexOf(y, b) && forall e :: e in a ==> e in b
    ensures log.topics != [] ==>
              && (ExactKey(log.address, log.topics[0]) in x.exact ==>
                    && ExactKey(log.address, log.topics[0]) in y.exact
                    && y.exact[ExactKey(log.address, log.topics[0])] == x.exact[ExactKey(log.address, log.topics[0])])
              && (log.topics[0] in x.topicOnly ==>
                    log.topics[0] in y.topicOnly && y.topicOnly[log.topics[0]] == x.topicOnly[log.topics[0]])
  {
    if log.topics != [] {
      var p, t := ExactKey(log.address, log.topics[0]), log.topics[0];
      if p in x.exact {
        var i :| 0 <= i < |a| && !a[i].key.matchAnyAddress && ExactKey(a[i].key.address, a[i].key.topic0) == p;
        assert InIndex(x, a[i]) && a[i] in b;
        var j :| 0 <= j < |b| && b[j] == a[i];
        assert InIndex(y, b[j]);
      }
      if t in x.topicOnly {
        var i :| 0 <= i < |a| && a[i].key.matchAnyAddress && a[i].key.topic0 == t;
        assert InIndex(x, a[i]) && a[i] in b;
        var j :| 0 <= j < |b| && b[j] == a[i];
        assert InIndex(y, b[j]);
      }
    }
  }

  // ---------- one log ----------

  datatype HandlerConfig = HandlerConfig(failOnUnmatched: bool, ignoreDecodeError: bool)

  datatype Filter = Filter(name: string, code: nat)

  datatype FilterResult = FilterResult(accepted: bool, reason: string)

  /** The fixed answers of decoders and filters; a decoder may answer nil without an error. */
  datatype Programs = Programs(
    decode: (Decoder, ScanBatch, Log) -> Result<Option<DecodedEvent>, nat>,
    judge: (Filter, EventEnvelope) -> Result<FilterResult, nat>)

  datatype Pipeline = Pipeline(cfg: HandlerConfig, index: Index, filters: seq<Option<Filter>>)

  datatype HandleError =
    | NoDecoder
    | DecodeFailed(cause: nat)
    | BuildFailed
    | FilterFailed(cause: nat)
    | Cancelled

  function Topic0(log: Log): Hash {
    if log.topics == [] then seq(32, _ => 0) else log.topics[0]
  }

  function BuildEvent(batch: ScanBatch, log: Log, decoded: Option<DecodedEvent>): Option<EventEnvelope> {
    if decoded.None? || decoded.value.eventName == "" || EmptyJson(decoded.value.payload)
        || !ValidJson(decoded.value.payload) then None
    else
      Some(EventEnvelope(
             BuildEventKey(batch.chainId, log.txHash, log.index),
             batch.chainId, batch.chainName, batch.network, batch.monitor,
             decoded.value.eventName, log.blockNumber, log.blockHash, log.txHash, log.txIndex, log.index,
             log.address, Topic0(log), decoded.value.payload, RawLogOf(log), log.removed))
  }

  function RunFilters(filters: seq<Option<Filter>>, programs: Programs, event: EventEnvelope)
    : Result<FilterResult, nat>
  {
    if filters == [] then Ok(FilterResult(true, ""))
    else if filters[0].None? then RunFilters(filters[1..], programs, event)
    else
      match programs.judge(filters[0].value, event)
      case Err(e) => Err(e)
      case Ok(verdict) =>
        if verdict.accepted then RunFilters(filters[1..], programs, event)
        else Ok(if verdict.reason == "" then verdict.(reason := filters[0].value.name) else verdict)
  }

  method ApplyFilters(filters: seq<Option<Filter>>, programs: Programs, event: EventEnvelope)
    returns (r: Result<FilterResult, nat>)
    ensures r == RunFilters(filters, programs, event)
  {
    var i := 0;
    while i < |filters|
      invariant 0 <= i <= |filters|
      invariant RunFilters(filters, programs, event) == RunFilters(filters[i..], programs, event)
    {
      if filters[i].Some? {
        var answer := programs.judge(filters[i].value, event);
        if answer.Err? {
          return Err(answer.error);
        }
        var verdict := answer.value;
        if !verdict.accepted {
          if verdict.reason == "" {
            verdict := verdict.(reason := filters[i].value.name);
          }
          return Ok(verdict);
        }
      }
      i := i + 1;
    }
    r := Ok(FilterResult(true, ""));
  }

  predicate Accepts(filter: Option<Filter>, programs: Programs, event: EventEnvelope) {
    filter.None? || (programs.judge(filter.value, event).Ok? && programs.judge(filter.value, event).value.accepted)
  }

  /**
   An event passes exactly when every configured filter accepts it; a rejection always has the rejecting filter's reason
   or name.
   */
  lemma {:induction false} FiltersConjoin(filters: seq<Option<Filter>>, programs: Programs, event: EventEnvelope)
    ensures var r := RunFilters(filters, programs, event);
            && ((r.Ok? && r.value.accepted) <==> forall i :: 0 <= i < |filters| ==>
                Accepts(filters[i], programs, event))
            && (!(r.Ok? && r.value.accepted) ==>
                  exists i :: 0 <= i < |filters| && filters[i].Some? && !Accepts(filters[i], programs, event)
                              && (forall j :: 0 <= j < i ==> Accepts(filters[j], programs, event))
                              && (r.Err? <==> programs.judge(filters[i].value, event).Err?))
  {
    if filters != [] && Accepts(filters[0], programs, event) {
      FiltersConjoin(filters[1..], programs, event);
      var r := RunFilters(filters, programs, event);
      if r.Ok? && r.value.accepted {
        forall i | 0 <= i < |filters| ensures Accepts(filters[i], programs, event) {
          if i > 0 { assert filters[i] == filters[1..][i - 1]; }
        }
      } else {
        var rest := filters[1..];
        var i :| 0 <= i < |rest| && rest[i].Some? && !Accepts(rest[i], programs, event)
                 && (forall j :: 0 <= j < i ==> Accepts(rest[j], programs, event))
                 && (r.Err? <==> programs.judge(rest[i].value, event).Err?);
        assert filters[i + 1] == rest[i];
        forall j | 0 <= j < i + 1 ensures Accepts(filters[j], programs, event) {
          if j > 0 { assert filters[j] == rest[j - 1]; }
        }
      }
    }
  }

  datatype Verdict = Unmatched | Ignored | Filtered | Accepted(event: EventEnvelope) | Fatal(error: HandleError)

  /** What becomes of one raw log. */
  function Judge(p: Pipeline, programs: Programs, batch: ScanBatch, log: Log): Verdict {
    match FindDecoder(p.index, log)
    case None => if p.cfg.failOnUnmatched then Fatal(NoDecoder) else Unmatched
    case Some(decoder) =>
      match programs.decode(decoder, batch, log)
      case Err(e) => if p.cfg.ignoreDecodeError then Ignored else Fatal(DecodeFailed(e))
      case Ok(decoded) =>
        match BuildEvent(batch, log, decoded)
        case None => Fatal(BuildFailed)
        case Some(event) =>
          match RunFilters(p.filters, programs, event)
          case Err(e) => Fatal(FilterFailed(e))
          case Ok(verdict) => if verdict.accepted then Accepted(event) else Filtered
  }

  /** Some configured key fits the log. */
  predicate SomeKeyFits(entries: seq<Entry>, log: Log) {
    exists i :: 0 <= i < |entries| && (ExactMatch(entries[i].key, log) || TopicMatch(entries[i].key, log))
  }

  /** The event that the first fitting decoder makes of the log, if decoding and building succeed. */
  function EventMade(entries: seq<Entry>, programs: Programs, batch: ScanBatch, log: Log): Option<EventEnvelope> {
    match ScanDecoders(entries, log)
    case None => None
    case Some(decoder) =>
      match programs.decode(decoder, batch, log)
      case Err(_) => None
      case Ok(decoded) => BuildEvent(batch, log, decoded)
  }

  /** The first fitting decoder answers with an error. */
  predicate DecodeFails(entries: seq<Entry>, programs: Programs, batch: ScanBatch, log: Log) {
    ScanDecoders(entries, log).Some? && programs.decode(ScanDecoders(entries, log).value, batch, log).Err?
  }

  lemma NoFitMeansNone(entries: seq<Entry>, log: Log)
    ensures ScanDecoders(entries, log).None? <==> !SomeKeyFits(entries, log)
  {
    FirstExactFinds(entries, log);
    FirstTopicFinds(entries, log);
  }

  /** The first filter that does not accept the event rejects it without an error. */
  predicate FirstObjectionIsRejection(filters: seq<Option<Filter>>, programs: Programs, event: EventEnvelope) {
    exists i :: 0 <= i < |filters| && filters[i].Some? && programs.judge(filters[i].value, event).Ok?
                && !programs.judge(filters[i].value, event).value.accepted
                && forall j :: 0 <= j < i ==> Accepts(filters[j], programs, event)
  }

  /** A rejection carries the rejecting filter's reason, or its name when it gives none. */
  lemma {:induction false} RejectionHasReason(filters: seq<Option<Filter>>, programs: Programs, event: EventEnvelope)
    ensures var r := RunFilters(filters, programs, event);
            r.Ok? && !r.value.accepted ==>
              exists f :: Some(f) in filters && programs.judge(f, event).Ok? && !programs.judge(f, event).value.accepted
                          && r.value.reason == (if programs.judge(f, event).value.reason == "" then f.name
                                                else programs.judge(f, event).value.reason)
  {
    if filters != [] && Accepts(filters[0], programs, event) {
      RejectionHasReason(filters[1..], programs, event);
    } else if filters != [] {
      assert Some(filters[0].value) in filters;
    }
  }

  lemma {:induction false} RejectedMeans(filters: seq<Option<Filter>>, programs: Programs, event: EventEnvelope)
    ensures var r := RunFilters(filters, programs, event);
            (r.Ok? && !r.value.accepted) <==> FirstObjectionIsRejection(filters, programs, event)
  {
    if filters != [] && Accepts(filters[0], programs, event) {
      var rest := filters[1..];
      RejectedMeans(rest, programs, event);
      if FirstObjectionIsRejection(rest, programs, event) {
        var i :| 0 <= i < |rest| && rest[i].Some? && programs.judge(rest[i].value, event).Ok?
                 && !programs.judge(rest[i].value, event).value.accepted
                 && forall j :: 0 <= j < i ==> Accepts(rest[j], programs, event);
        assert filters[i + 1] == rest[i];
        forall j | 0 <= j < i + 1 ensures Accepts(filters[j], programs, event) {
          if j > 0 { assert filters[j] == rest[j - 1]; }
        }
      }
      if FirstObjectionIsRejection(filters, programs, event) {
        var i :| 0 <= i < |filters| && filters[i].Some? && programs.judge(filters[i].value, event).Ok?
                 && !programs.judge(filters[i].value, event).value.accepted
                 && forall j :: 0 <= j < i ==> Accepts(filters[j], programs, event);
        assert rest[i - 1] == filters[i];
        forall j | 0 <= j < i - 1 ensures Accepts(rest[j], programs, event) { assert rest[j] == filters[j + 1]; }
      }
    }
  }

  /**
   The fate of a log in terms of the configured keys, decoders and filters: it is
   unmatched when no key fits, ignored when its decoder fails and such failures
   are to be ignored, filtered when the first objecting filter rejects it,
   accepted when every filter accepts the event made of it, and fatal otherwise.
   */
  lemma VerdictMeans(p: Pipeline, entries: seq<Entry>, programs: Programs, batch: ScanBatch, log: Log)
    requires IndexOf(p.index, entries)
    ensures var v, made := Judge(p, programs, batch, log), EventMade(entries, programs, batch, log);
            && (v.Unmatched? <==> !SomeKeyFits(entries, log) && !p.cfg.failOnUnmatched)
            && (v.Ignored? <==> DecodeFails(entries, programs, batch, log) && p.cfg.ignoreDecodeError)
            && (v.Filtered? <==> made.Some? && FirstObjectionIsRejection(p.filters, programs, made.value))
            && (v.Accepted? <==> made.Some? && forall i :: 0 <= i < |p.filters| ==>
                Accepts(p.filters[i], programs, made.value))
            && (v.Accepted? ==> v.event == made.value)
  {
    LookupIsScan(p.index, entries, log);
    NoFitMeansNone(entries, log);
    var made := EventMade(entries, programs, batch, log);
    if made.Some? {
      FiltersConjoin(p.filters, programs, made.value);
      RejectedMeans(p.filters, programs, made.value);
    }
  }

  // ---------- a batch of logs ----------

  /** The accepted events, in log order. */
  function AcceptedEvents(p: Pipeline, programs: Programs, batch: ScanBatch, logs: seq<Log>): seq<EventEnvelope> {
    if logs == [] then []
    else
      var v := Judge(p, programs, batch, logs[|logs| - 1]);
      AcceptedEvents(p, programs, batch, logs[..|logs| - 1]) + (if v.Accepted? then [v.event] else [])
  }

  predicate NoFatal(p: Pipeline, programs: Programs, batch: ScanBatch, logs: seq<Log>) {
    forall i :: 0 <= i < |logs| ==> !Judge(p, programs, batch, logs[i]).Fatal?
  }

  /** How many logs meet each fate. */
  function CountWith(p: Pipeline, programs: Programs, batch: ScanBatch, logs: seq<Log>, fate: Verdict): nat {
    if logs == [] then 0
    else CountWith(p, programs, batch, logs[..|logs| - 1], fate)
         + (if Judge(p, programs, batch, logs[|logs| - 1]) == fate then 1 else 0)
  }

  /** The fates of the logs, one by one. */
  function Fates(p: Pipeline, programs: Programs, batch: ScanBatch, logs: seq<Log>): seq<Verdict> {
    seq(|logs|, i requires 0 <= i < |logs| => Judge(p, programs, batch, logs[i]))
  }

  /** The count is how often the fate occurs. */
  lemma {:induction false} CountWithCounts(p: Pipeline, programs: Programs, batch: ScanBatch, logs: seq<Log>,
                                           fate: Verdict)
    ensures CountWith(p, programs, batch, logs, fate) == multiset(Fates(p, programs, batch, logs))[fate]
  {
    if logs != [] {
      var n := |logs| - 1;
      CountWithCounts(p, programs, batch, logs[..n], fate);
      assert Fates(p, programs, batch, logs)
             == Fates(p, programs, batch, logs[..n]) + [Judge(p, programs, batch, logs[n])];
    }
  }

  datatype Tally = Tally(events: seq<EventEnvelope>, unmatched: nat, ignored: nat, filtered: nat)

  /** The body of HandleLogs' loop after the context check. */
  method JudgeLog(p: Pipeline, programs: Programs, batch: ScanBatch, log: Log) returns (v: Verdict)
    ensures v == Judge(p, programs, batch, log)
  {
    var found := FindDecoder(p.index, log);
    if found.None? {
      return if p.cfg.failOnUnmatched then Fatal(NoDecoder) else Unmatched;
    }
    var decoded := programs.decode(found.value, batch, log);
    if decoded.Err? {
      return if !p.cfg.ignoreDecodeError then Fatal(DecodeFailed(decoded.error)) else Ignored;
    }
    var built := BuildEvent(batch, log, decoded.value);
    if built.None? {
      return Fatal(BuildFailed);
    }
    var verdict := ApplyFilters(p.filters, programs, built.value);
    if verdict.Err? {
      return Fatal(FilterFailed(verdict.error));
    }
    v := if !verdict.value.accepted then Filtered else Accepted(built.value);
  }

  /** Log i is the first at which the loop stops, and this is why. */
  predicate StopsAt(p: Pipeline, programs: Programs, batch: ScanBatch, logs: seq<Log>, done: nat -> bool, i: nat,
                    error: HandleError) {
    && i < |logs| && NoFatal(p, programs, batch, logs[..i]) && (forall j :: 0 <= j < i ==> !done(j))
    && if done(i) then error == Cancelled else Judge(p, programs, batch, logs[i]) == Fatal(error)
  }

  lemma CountOneMore(p: Pipeline, programs: Programs, batch: ScanBatch, logs: seq<Log>, i: nat)
    requires i < |logs|
    ensures var v := Judge(p, programs, batch, logs[i]);
            && (NoFatal(p, programs, batch, logs[..i + 1]) <==> NoFatal(p, programs, batch, logs[..i]) && !v.Fatal?)
            && AcceptedEvents(p, programs, batch, logs[..i + 1])
               == AcceptedEvents(p, programs, batch, logs[..i]) + (if v.Accepted? then [v.event] else [])
            && forall fate :: CountWith(p, programs, batch, logs[..i + 1], fate)
                              == CountWith(p, programs, batch, logs[..i], fate) + (if v == fate then 1 else 0)
  {
    var prefix := logs[..i + 1];
    assert prefix[..i] == logs[..i] && prefix[i] == logs[i];
    if NoFatal(p, programs, batch, prefix) {
      forall j | 0 <= j < i ensures !Judge(p, programs, batch, logs[..i][j]).Fatal? {
        assert logs[..i][j] == prefix[j];
      }
    }
  }

  /** The loop of HandleLogs up to the save: done(i) is what ctx.Done shows just before log i. */
  method Sift(p: Pipeline, programs: Programs, batch: ScanBatch, logs: seq<Log>, done: nat -> bool)
    returns (r: Result<Tally, HandleError>)
    ensures r.Ok? <==> NoFatal(p, programs, batch, logs) && forall i :: 0 <= i < |logs| ==> !done(i)
    ensures r.Err? ==> exists i: nat :: StopsAt(p, programs, batch, logs, done, i, r.error)
    ensures r.Ok? ==> && r.value.events == AcceptedEvents(p, programs, batch, logs)
                      && r.value.unmatched == CountWith(p, programs, batch, logs, Unmatched)
                      && r.value.ignored == CountWith(p, programs, batch, logs, Ignored)
                      && r.value.filtered == CountWith(p, programs, batch, logs, Filtered)
                      && |logs| == |r.value.events| + r.value.unmatched + r.value.ignored + r.value.filtered
  {
    var events, unmatched, ignored, filtered := [], 0, 0, 0;
    var i := 0;
    while i < |logs|
      invariant 0 <= i <= |logs|
      invariant NoFatal(p, programs, batch, logs[..i]) && forall j :: 0 <= j < i ==> !done(j)
      invariant events == AcceptedEvents(p, programs, batch, logs[..i])
      invariant unmatched == CountWith(p, programs, batch, logs[..i], Unmatched)
      invariant ignored == CountWith(p, programs, batch, logs[..i], Ignored)
      invariant filtered == CountWith(p, programs, batch, logs[..i], Filtered)
      invariant i == |events| + unmatched + ignored + filtered
    {
      if done(i) {
        assert StopsAt(p, programs, batch, logs, done, i, Cancelled);
        return Err(Cancelled);
      }
      CountOneMore(p, programs, batch, logs, i);
      var v := JudgeLog(p, programs, batch, logs[i]);
      match v {
        case Fatal(error) =>
          assert StopsAt(p, programs, batch, logs, done, i, error);
          return Err(error);
        case Unmatched => unmatched := unmatched + 1;
        case Ignored => ignored := ignored + 1;
        case Filtered => filtered := filtered + 1;
        case Accepted(event) => events := events + [event];
      }
      i := i + 1;
    }
    assert logs[..i] == logs;
    r := Ok(Tally(events, unmatched, ignored, filtered));
  }

  // ---------- what an accepted event says about its log ----------

  /** Every column of the event that comes from the batch or the log. */
  predicate MirrorsLog(e: EventEnvelope, batch: ScanBatch, log: Log) {
    && e.eventKey == BuildEventKey(batch.chainId, log.txHash, log.index)
    && e.chainId == batch.chainId && e.chainName == batch.chainName && e.network == batch.network
    && e.monitor == batch.monitor
    && e.blockNumber == log.blockNumber && e.blockHash == log.blockHash
    && e.txHash == log.txHash && e.txIndex == log.txIndex && e.logIndex == log.index
    && e.contractAddress == log.address
    && (if log.topics == [] then IsZero(e.topic0) else e.topic0 == log.topics[0])
    && e.rawLog == RawLogOf(log) && e.removed == log.removed
  }

  /** A decoder's answer that an event can be made of. */
  predicate Usable(d: DecodedEvent) {
    d.eventName != "" && !EmptyJson(d.payload) && ValidJson(d.payload)
  }

  /** The decoder that the scan chooses answers d. */
  predicate DecodedAs(entries: seq<Entry>, programs: Programs, batch: ScanBatch, log: Log, d: Option<DecodedEvent>) {
    && ScanDecoders(entries, log).Some?
    && programs.decode(ScanDecoders(entries, log).value, batch, log) == Ok(d)
  }

  /** The event is the log, named and with the payload that its decoder answers. */
  ghost predicate MirrorsDecoded(e: EventEnvelope, entries: seq<Entry>, programs: Programs, batch: ScanBatch,
                                 log: Log) {
    exists d :: DecodedAs(entries, programs, batch, log, Some(d)) && Usable(d) && MirrorsLog(e, batch, log)
                && e.eventName == d.eventName && e.payload == d.payload
  }

  /** An event is made exactly when the chosen decoder gives a usable answer, and then every field of it is known. */
  lemma EventMadeMeans(entries: seq<Entry>, programs: Programs, batch: ScanBatch, log: Log, e: EventEnvelope)
    ensures EventMade(entries, programs, batch, log) == Some(e) <==> MirrorsDecoded(e, entries, programs, batch, log)
  {
    if EventMade(entries, programs, batch, log) == Some(e) {
      var d := programs.decode(ScanDecoders(entries, log).value, batch, log).value.value;
      assert DecodedAs(entries, programs, batch, log, Some(d));
    }
    if d :| DecodedAs(entries, programs, batch, log, Some(d)) && Usable(d) && MirrorsLog(e, batch, log)
            && e.eventName == d.eventName && e.payload == d.payload {
      if log.topics == [] { ZeroTopic(e.topic0); }
    }
  }

  lemma ZeroTopic(h: Hash)
    requires IsZero(h)
    ensures h == seq(32, _ => 0)
  {
  }

  /** An accepted event carries every field of the log it came from, and all filters accept it. */
  lemma AcceptedMirrorsLog(p: Pipeline, programs: Programs, batch: ScanBatch, log: Log)
    ensures var v := Judge(p, programs, batch, log);
            v.Accepted? ==>
              && MirrorsLog(v.event, batch, log)
              && (forall i :: 0 <= i < |p.filters| ==> Accepts(p.filters[i], programs, v.event))
  {
    var v := Judge(p, programs, batch, log);
    if v.Accepted? { FiltersConjoin(p.filters, programs, v.event); }
  }

  /** Which decoder is chosen: one of an exact key that fits, otherwise one of a topic key that fits. */
  lemma ScanPrefersExact(entries: seq<Entry>, log: Log)
    ensures match ScanDecoders(entries, log)
            case None => !SomeKeyFits(entries, log)
            case Some(d) =>
              exists i :: 0 <= i < |entries| && entries[i].decoder == d
                          && (if forall j :: 0 <= j < |entries| ==> !ExactMatch(entries[j].key, log)
                              then TopicMatch(entries[i].key, log) else ExactMatch(entries[i].key, log))
  {
    FirstExactFinds(entries, log);
    FirstTopicFinds(entries, log);
  }

  /** The first filter that does not accept the event fails on it. */
  predicate FirstObjectionIsError(filters: seq<Option<Filter>>, programs: Programs, event: EventEnvelope, cause: nat) {
    exists i :: 0 <= i < |filters| && filters[i].Some? && programs.judge(filters[i].value, event) == Err(cause)
                && forall j :: 0 <= j < i ==> Accepts(filters[j], programs, event)
  }

  lemma {:induction false} ErrorMeans(filters: seq<Option<Filter>>, programs: Programs, event: EventEnvelope,
                                      cause: nat)
    ensures RunFilters(filters, programs, event) == Err(cause)
            <==> FirstObjectionIsError(filters, programs, event, cause)
  {
    if filters != [] && Accepts(filters[0], programs, event) {
      var rest := filters[1..];
      ErrorMeans(rest, programs, event, cause);
      if FirstObjectionIsError(rest, programs, event, cause) {
        var i :| 0 <= i < |rest| && rest[i].Some? && programs.judge(rest[i].value, event) == Err(cause)
                 && forall j :: 0 <= j < i ==> Accepts(rest[j], programs, event);
        assert filters[i + 1] == rest[i];
        forall j | 0 <= j < i + 1 ensures Accepts(filters[j], programs, event) {
          if j > 0 { assert filters[j] == rest[j - 1]; }
        }
      }
      if FirstObjectionIsError(filters, programs, event, cause) {
        var i :| 0 <= i < |filters| && filters[i].Some? && programs.judge(filters[i].value, event) == Err(cause)
                 && forall j :: 0 <= j < i ==> Accepts(filters[j], programs, event);
        assert rest[i - 1] == filters[i];
        forall j | 0 <= j < i - 1 ensures Accepts(rest[j], programs, event) { assert rest[j] == filters[j + 1]; }
      }
    }
  }

  /** Each reason for a log to fail its batch, in terms of keys, decoders and filters. */
  lemma FatalMeans(p: Pipeline, entries: seq<Entry>, programs: Programs, batch: ScanBatch, log: Log, cause: nat)
    requires IndexOf(p.index, entries)
    ensures var v, made := Judge(p, programs, batch, log), EventMade(entries, programs, batch, log);
            && (v == Fatal(NoDecoder) <==> !SomeKeyFits(entries, log) && p.cfg.failOnUnmatched)
            && (v == Fatal(DecodeFailed(cause))
                <==> && ScanDecoders(entries, log).Some? && !p.cfg.ignoreDecodeError
                     && programs.decode(ScanDecoders(entries, log).value, batch, log) == Err(cause))
            && (v == Fatal(BuildFailed)
                <==> exists d :: DecodedAs(entries, programs, batch, log, d) && (d.None? || !Usable(d.value)))
            && (v == Fatal(FilterFailed(cause))
                <==> made.Some? && FirstObjectionIsError(p.filters, programs, made.value, cause))
            && v != Fatal(Cancelled)
  {
    LookupIsScan(p.index, entries, log);
    NoFitMeansNone(entries, log);
    var made := EventMade(entries, programs, batch, log);
    if made.Some? { ErrorMeans(p.filters, programs, made.value, cause); }
    if ScanDecoders(entries, log).Some? {
      var answer := programs.decode(ScanDecoders(entries, log).value, batch, log);
      if answer.Ok? { assert DecodedAs(entries, programs, batch, log, answer.value); }
    }
  }

  /** Some log's accepted event is e. */
  ghost predicate EventOf(p: Pipeline, programs: Programs, batch: ScanBatch, logs: seq<Log>, e: EventEnvelope) {
    exists i :: 0 <= i < |logs| && Judge(p, programs, batch, logs[i]) == Accepted(e)
  }

  lemma EventOfSnoc(p: Pipeline, programs: Programs, batch: ScanBatch, logs: seq<Log>, e: EventEnvelope)
    requires logs != []
    ensures EventOf(p, programs, batch, logs, e)
            <==> || EventOf(p, programs, batch, logs[..|logs| - 1], e)
                 || Judge(p, programs, batch, logs[|logs| - 1]) == Accepted(e)
  {
    var init := logs[..|logs| - 1];
    if i :| 0 <= i < |init| && Judge(p, programs, batch, init[i]) == Accepted(e) {
      assert logs[i] == init[i];
    }
    if i :| 0 <= i < |logs| && Judge(p, programs, batch, logs[i]) == Accepted(e) {
      if i < |init| { assert logs[i] == init[i]; }
    }
  }

  /** The accepted events are exactly those of the logs. */
  lemma {:induction false} AcceptedEventsAreOfLogs(p: Pipeline, programs: Programs, batch: ScanBatch, logs: seq<Log>,
                                                   e: EventEnvelope)
    ensures e in AcceptedEvents(p, programs, batch, logs) <==> EventOf(p, programs, batch, logs, e)
  {
    if logs != [] {
      AcceptedEventsAreOfLogs(p, programs, batch, logs[..|logs| - 1], e);
      EventOfSnoc(p, programs, batch, logs, e);
    }
  }

  /** The positions at yields the events one by one. */
  predicate Yields(p: Pipeline, programs: Programs, batch: ScanBatch, logs: seq<Log>, at: seq<nat>,
                   events: seq<EventEnvelope>) {
    && |at| == |events|
    && (forall k :: 0 <= k < |at| ==> at[k] < |logs| && Judge(p, programs, batch, logs[at[k]]) == Accepted(events[k]))
    && (forall k, m :: 0 <= k < m < |at| ==> at[k] < at[m])
  }

  /** Every accepted log's position is listed. */
  predicate Lists(p: Pipeline, programs: Programs, batch: ScanBatch, logs: seq<Log>, at: seq<nat>) {
    forall i :: 0 <= i < |logs| && Judge(p, programs, batch, logs[i]).Accepted? ==> i in at
  }

  lemma YieldsSnoc(p: Pipeline, programs: Programs, batch: ScanBatch, logs: seq<Log>, at: seq<nat>,
                   events: seq<EventEnvelope>, n: nat)
    requires n < |logs| && Yields(p, programs, batch, logs[..n], at, events)
             && Judge(p, programs, batch, logs[n]).Accepted?
    ensures Yields(p, programs, batch, logs, at + [n], events + [Judge(p, programs, batch, logs[n]).event])
  {
  }

  lemma ListsSnoc(p: Pipeline, programs: Programs, batch: ScanBatch, logs: seq<Log>, before: seq<nat>, at: seq<nat>,
                  n: nat)
    requires n + 1 == |logs| && Lists(p, programs, batch, logs[..n], before) && before <= at
    requires Judge(p, programs, batch, logs[n]).Accepted? ==> n in at
    ensures Lists(p, programs, batch, logs, at)
  {
    forall i | 0 <= i < |logs| && Judge(p, programs, batch, logs[i]).Accepted? ensures i in at {
      if i < n {
        assert logs[..n][i] == logs[i];
        var k :| 0 <= k < |before| && before[k] == i;
        assert at[k] == i;
      }
    }
  }

  /** Every accepted log has its own event, and the events come in the order of their logs. */
  lemma {:induction false} AcceptedEventsInOrder(p: Pipeline, programs: Programs, batch: ScanBatch, logs: seq<Log>)
    returns (at: seq<nat>)
    ensures Yields(p, programs, batch, logs, at, AcceptedEvents(p, programs, batch, logs))
            && Lists(p, programs, batch, logs, at)
  {
    if logs == [] {
      at := [];
    } else {
      var n := |logs| - 1;
      var before := AcceptedEventsInOrder(p, programs, batch, logs[..n]);
      if Judge(p, programs, batch, logs[n]).Accepted? {
        at := before + [n];
        YieldsSnoc(p, programs, batch, logs, before, AcceptedEvents(p, programs, batch, logs[..n]), n);
        assert at[|before|] == n;
      } else {
        at := before;
      }
      ListsSnoc(p, programs, batch, logs, before, at, n);
    }
  }
}
