/**
 Chunk arithmetic of the scanner (chains/evm/scanner.go): safe height, tiling
 of [next, safe] into chunks, and the commit point after a round.  Block
 numbers are uint64 and every addition that can wrap is written as one.
 */
module Chunks {
  import opened Basics

  type U64 = x: nat | x < TWO_64

  datatype ScannerConfig = ScannerConfig(
    chainId: U64,
    chainName: string,
    network: string,
    startBlock: U64,
    confirmations: U64,
    chunkSize: U64,
    fetchWorkers: int,
    maxInflightChunks: int)

  datatype Chunk = Chunk(index: nat, from: U64, to: U64)

  datatype ChunkError = Missing(from: U64, to: U64) | QueriesFailed | FetchFailed | SendersFailed | HandlerFailed

  datatype ChunkResult = ChunkResult(job: Chunk, logCount: nat, err: Option<ChunkError>)

  /** applyScannerDefault, without the two intervals. */
  function ApplyDefaults(cfg: ScannerConfig): (r: ScannerConfig)
    ensures r == cfg.(confirmations := r.confirmations, chunkSize := r.chunkSize, fetchWorkers := r.fetchWorkers,
                      maxInflightChunks := r.maxInflightChunks)
    ensures r.confirmations == cfg.confirmations >= 1 || (cfg.confirmations == 0 && r.confirmations == 3)
    ensures r.chunkSize == cfg.chunkSize >= 1 || (cfg.chunkSize == 0 && r.chunkSize == 500)
    ensures r.fetchWorkers == cfg.fetchWorkers >= 1 || (cfg.fetchWorkers <= 0 && r.fetchWorkers == 10)
    ensures r.maxInflightChunks == cfg.maxInflightChunks >= 1
            || (cfg.maxInflightChunks <= 0 && r.maxInflightChunks == 2 * r.fetchWorkers)
  {
    var workers := if cfg.fetchWorkers <= 0 then 10 else cfg.fetchWorkers;
    cfg.(confirmations := if cfg.confirmations == 0 then 3 else cfg.confirmations,
         chunkSize := if cfg.chunkSize == 0 then 500 else cfg.chunkSize,
         fetchWorkers := workers,
         maxInflightChunks := if cfg.maxInflightChunks <= 0 then workers * 2 else cfg.maxInflightChunks)
  }

  /** The highest block with enough confirmations; it always leaves room for a successor. */
  function SafeBlock(latest: U64, confirmations: U64): (r: Option<U64>)
    ensures r.Some? <==> latest > confirmations
    ensures r.Some? ==> r.value + confirmations == latest
    ensures r.Some? && confirmations >= 1 ==> r.value + 1 < TWO_64
  {
    if latest <= confirmations then None else Some(latest - confirmations)
  }

  // ---------- tiling ----------

  function NextToBlock(from: U64, safe: U64, size: U64): U64 {
    var to := WrapU64(from + size - 1);
    if to > safe then safe else to
  }

  /** The chunk end is sound exactly when the addition does not leave uint64. */
  lemma NextToBlockSound(from: U64, safe: U64, size: U64)
    requires from <= safe && size >= 1
    ensures var to := NextToBlock(from, safe, size);
            && (from <= to <==> from + size - 1 < TWO_64)
            && (from <= to ==> to == Min(from + size - 1, safe))
  {
    if from + size - 1 >= TWO_64 {
      assert WrapU64(from + size - 1) == from + size - 1 - TWO_64;
    }
  }

  function Plan(from: U64, safe: U64, size: U64, room: nat, index: nat): seq<Chunk>
    decreases room
  {
    if room == 0 || from > safe then []
    else
      var to := NextToBlock(from, safe, size);
      [Chunk(index, from, to)]
      + (if to == safe then [] else Plan(WrapU64(to + 1), safe, size, room - 1, index + 1))
  }

  function PlanChunks(cfg: ScannerConfig, next: U64, safe: U64): seq<Chunk> {
    if cfg.maxInflightChunks <= 0 then [] else Plan(next, safe, cfg.chunkSize, cfg.maxInflightChunks, 0)
  }

  lemma PushFront(a: seq<Chunk>, c: Chunk, b: seq<Chunk>)
    ensures a + ([c] + b) == a + [c] + b
  {
  }

  method PlanChunksLoop(cfg: ScannerConfig, next: U64, safe: U64) returns (chunks: seq<Chunk>)
    ensures chunks == PlanChunks(cfg, next, safe)
  {
    chunks := [];
    var from: U64 := next;
    ghost var room: nat := Max(cfg.maxInflightChunks, 0);
    while |chunks| < cfg.maxInflightChunks && from <= safe
      invariant |chunks| <= room
      invariant chunks + Plan(from, safe, cfg.chunkSize, room - |chunks|, |chunks|) == PlanChunks(cfg, next, safe)
      decreases room - |chunks|
    {
      var to := NextToBlock(from, safe, cfg.chunkSize);
      ghost var rest := if to == safe then []
          else Plan(WrapU64(to + 1), safe, cfg.chunkSize, room - |chunks| - 1, |chunks| + 1);
      PushFront(chunks, Chunk(|chunks|, from, to), rest);
      chunks := chunks + [Chunk(|chunks|, from, to)];
      if to == safe {
        break;
      }
      from := WrapU64(to + 1);
    }
  }

  /** How many chunks a round can plan. */
  function PlanCount(next: nat, safe: nat, size: nat, room: nat): nat
    requires next <= safe && size >= 1
  {
    Min(room, (safe - next) / size + 1)
  }

  /** Chunk k of a correct plan covers [next + k*size, next + (k+1)*size - 1], cut off at safe. */
  ghost predicate Tile(c: Chunk, k: nat, index: nat, next: nat, safe: nat, size: nat) {
    && c.index == index + k
    && c.from == next + k * size
    && c.to == Min(next + k * size + size - 1, safe)
    && c.from <= c.to
  }

  ghost predicate Tiles(chunks: seq<Chunk>, index: nat, next: nat, safe: nat, size: nat, room: nat)
    requires next <= safe && size >= 1
  {
    && |chunks| == PlanCount(next, safe, size, room)
    && forall k :: 0 <= k < |chunks| ==> Tile(chunks[k], k, index, next, safe, size)
  }

  lemma CountStep(next: nat, safe: nat, size: nat, room: nat)
    requires next <= safe && size >= 1 && room >= 1 && next + size <= safe
    ensures PlanCount(next, safe, size, room) == 1 + PlanCount(next + size, safe, size, room - 1)
  {
    var d := safe - next;
    assert d / size == (d - size) / size + 1 by {
      DivStep(d, size);
    }
  }

  lemma DivStep(d: nat, size: nat)
    requires size >= 1 && d >= size
    ensures d / size == (d - size) / size + 1
  {
    var q, r := (d - size) / size, (d - size) % size;
    assert d == size * (q + 1) + r by { assert size * (q + 1) == size * q + size; }
    QuotientUnique(d, size, q + 1, r);
  }

  /** One step of the plan where the addition stays in uint64. */
  lemma PlanStep(next: U64, safe: U64, size: U64, room: nat, index: nat)
    requires next <= safe && size >= 1 && room >= 1 && next + size - 1 < TWO_64
    ensures Plan(next, safe, size, room, index)
            == [Chunk(index, next, Min(next + size - 1, safe))]
               + (if next + size <= safe then Plan(next + size, safe, size, room - 1, index + 1) else [])
  {
    NextToBlockSound(next, safe, size);
  }

  lemma TilesStep(rest: seq<Chunk>, index: nat, next: nat, safe: nat, size: nat, room: nat, c: Chunk)
    requires size >= 1 && room >= 1 && next + size <= safe
    requires Tiles(rest, index + 1, next + size, safe, size, room - 1)
    requires c.index == index && c.from == next && c.to == next + size - 1
    ensures Tiles([c] + rest, index, next, safe, size, room)
  {
    CountStep(next, safe, size, room);
    var plan := [c] + rest;
    forall k | 0 <= k < |plan| ensures Tile(plan[k], k, index, next, safe, size) {
      if k == 0 {
        assert k * size == 0;
      } else {
        assert Tile(rest[k - 1], k - 1, index + 1, next + size, safe, size);
        assert k * size == (k - 1) * size + size;
      }
    }
  }

  lemma CountBounds(next: nat, safe: nat, size: nat, room: nat)
    requires next <= safe && size >= 1 && room >= 1
    ensures var count := PlanCount(next, safe, size, room);
            && count >= 1 && count * size >= size
            && (count == 1 ==> count * size == size)
            && (next + size > safe ==> count == 1)
            && (next + size <= safe ==> && count == 1 + PlanCount(next + size, safe, size, room - 1)
                                        && count * size == size + PlanCount(next + size, safe, size, room - 1) * size)
  {
    var count := PlanCount(next, safe, size, room);
    if next + size <= safe {
      CountStep(next, safe, size, room);
      assert count * size == size + (count - 1) * size;
    } else {
      QuotientUnique(safe - next, size, 0, safe - next);
    }
    AtLeastFactor(size, count);
  }

  lemma {:induction false} PlanTiles(next: U64, safe: U64, size: U64, room: nat, index: nat)
    requires next <= safe && size >= 1 && room >= 1
    requires next + PlanCount(next, safe, size, room) * size - 1 < TWO_64
    ensures Tiles(Plan(next, safe, size, room, index), index, next, safe, size, room)
    decreases room
  {
    CountBounds(next, safe, size, room);
    PlanStep(next, safe, size, room, index);
    var c := Chunk(index, next, Min(next + size - 1, safe));
    if next + size <= safe && room > 1 {
      PlanTiles(next + size, safe, size, room - 1, index + 1);
      TilesStep(Plan(next + size, safe, size, room - 1, index + 1), index, next, safe, size, room, c);
    } else {
      assert Plan(next, safe, size, room, index) == [c];
      assert Tile(c, 0, index, next, safe, size);
    }
  }

  ghost predicate Backwards(chunks: seq<Chunk>) {
    exists k :: 0 <= k < |chunks| && chunks[k].to < chunks[k].from
  }

  lemma BackwardsTail(c: Chunk, rest: seq<Chunk>)
    requires Backwards(rest)
    ensures Backwards([c] + rest)
  {
    var k :| 0 <= k < |rest| && rest[k].to < rest[k].from;
    assert ([c] + rest)[k + 1] == rest[k];
  }

  /** Past the limit some planned chunk ends before it starts. */
  lemma {:induction false} PlanBreaks(next: U64, safe: U64, size: U64, room: nat, index: nat)
    requires next <= safe && size >= 1 && room >= 1
    requires next + PlanCount(next, safe, size, room) * size - 1 >= TWO_64
    ensures Backwards(Plan(next, safe, size, room, index))
    decreases room
  {
    CountBounds(next, safe, size, room);
    if next + size - 1 >= TWO_64 {
      NextToBlockSound(next, safe, size);
      assert Plan(next, safe, size, room, index)[0].to < next;
    } else {
      PlanStep(next, safe, size, room, index);
      PlanBreaks(next + size, safe, size, room - 1, index + 1);
      BackwardsTail(Chunk(index, next, Min(next + size - 1, safe)), Plan(next + size, safe, size, room - 1, index + 1));
    }
  }

  /** A round's plan is a tiling exactly when its last full chunk ends inside uint64. */
  lemma PlanIsTilingIff(cfg: ScannerConfig, next: U64, safe: U64)
    requires next <= safe && cfg.chunkSize >= 1 && cfg.maxInflightChunks >= 1
    ensures Tiles(PlanChunks(cfg, next, safe), 0, next, safe, cfg.chunkSize, cfg.maxInflightChunks)
            <==> next + PlanCount(next, safe, cfg.chunkSize, cfg.maxInflightChunks) * cfg.chunkSize - 1 < TWO_64
  {
    var room: nat := cfg.maxInflightChunks;
    if next + PlanCount(next, safe, cfg.chunkSize, room) * cfg.chunkSize - 1 < TWO_64 {
      PlanTiles(next, safe, cfg.chunkSize, room, 0);
    } else {
      PlanBreaks(next, safe, cfg.chunkSize, room, 0);
      var plan := PlanChunks(cfg, next, safe);
      assert Backwards(plan);
      var k :| 0 <= k < |plan| && plan[k].to < plan[k].from;
      assert !Tile(plan[k], k, 0, next, safe, cfg.chunkSize);
    }
  }

  /** An example: three blocks from 2^64 - 2 on, the first chunk ends at block 0. */
  lemma PlanWraps(cfg: ScannerConfig)
    requires cfg.chunkSize == 3 && cfg.maxInflightChunks >= 1
    ensures var next, plan := TWO_64 - 2, PlanChunks(cfg, TWO_64 - 2, TWO_64 - 2);
            && plan != [] && plan[0] == Chunk(0, next, 0)
            && !Tiles(plan, 0, next, next, cfg.chunkSize, cfg.maxInflightChunks)
  {
    PlanIsTilingIff(cfg, TWO_64 - 2, TWO_64 - 2);
  }

  /** A check on the safe height alone is enough. */
  lemma PlanIsTiling(cfg: ScannerConfig, next: U64, safe: U64)
    requires next <= safe && cfg.chunkSize >= 1 && cfg.maxInflightChunks >= 1
    requires safe + cfg.chunkSize - 1 < TWO_64
    ensures Tiles(PlanChunks(cfg, next, safe), 0, next, safe, cfg.chunkSize, cfg.maxInflightChunks)
  {
    var d, size := safe - next, cfg.chunkSize;
    var count := PlanCount(next, safe, size, cfg.maxInflightChunks);
    assert (count - 1) * size <= (d / size) * size <= d by {
      MulMono(count - 1, d / size, size);
    }
    assert count * size == (count - 1) * size + size;
    PlanIsTilingIff(cfg, next, safe);
  }

  lemma MulMono(a: nat, b: nat, c: nat)
    requires a <= b
    ensures a * c <= b * c
  {
    assert (b - a) * c >= 0;
  }

  /** First block after a plan. */
  function PlanEnd(next: nat, safe: nat, size: nat, room: nat): nat {
    Min(next + size * room, safe + 1)
  }

  /** A tiling is contiguous, ends where PlanEnd says, and covers each of its blocks once. */
  lemma TilesCover(chunks: seq<Chunk>, next: nat, safe: nat, size: nat, room: nat)
    requires next <= safe && size >= 1 && room >= 1
    requires Tiles(chunks, 0, next, safe, size, room)
    ensures chunks != [] && chunks[0].from == next
    ensures chunks[|chunks| - 1].to + 1 == PlanEnd(next, safe, size, room)
    ensures forall k :: 0 <= k < |chunks| - 1 ==> chunks[k + 1].from == chunks[k].to + 1
    ensures forall k :: 0 <= k < |chunks| ==>
            chunks[k].from <= chunks[k].to <= safe && chunks[k].to - chunks[k].from < size
    ensures forall j, k :: 0 <= j < k < |chunks| ==> chunks[j].to < chunks[k].from
  {
    var count := |chunks|;
    forall k | 0 <= k < count
      ensures chunks[k].to <= safe && chunks[k].to - chunks[k].from < size
    {
      assert Tile(chunks[k], k, 0, next, safe, size);
    }
    forall j, k | 0 <= j < k < count ensures chunks[j].to < chunks[k].from {
      assert Tile(chunks[j], j, 0, next, safe, size) && Tile(chunks[k], k, 0, next, safe, size);
      MulMono(j + 1, k, size);
      assert (j + 1) * size == j * size + size;
    }
    forall k | 0 <= k < count - 1 ensures chunks[k + 1].from == chunks[k].to + 1 {
      assert Tile(chunks[k], k, 0, next, safe, size) && Tile(chunks[k + 1], k + 1, 0, next, safe, size);
      assert (k + 1) * size == k * size + size;
    }
    TilesEnd(chunks, next, safe, size, room);
  }

  lemma TilesEnd(chunks: seq<Chunk>, next: nat, safe: nat, size: nat, room: nat)
    requires next <= safe && size >= 1 && room >= 1
    requires Tiles(chunks, 0, next, safe, size, room)
    ensures chunks != [] && chunks[0].from == next
    ensures chunks[|chunks| - 1].to + 1 == PlanEnd(next, safe, size, room)
  {
    var d := safe - next;
    var count := |chunks|;
    assert Tile(chunks[0], 0, 0, next, safe, size);
    assert Tile(chunks[count - 1], count - 1, 0, next, safe, size);
    assert (count - 1) * size + size == count * size;
    if room <= d / size + 1 {
      assert count * size == size * room;
    } else {
      assert count == d / size + 1;
      assert d == size * (d / size) + d % size;
      assert count * size == size * (d / size) + size;
      MulMono(count, room, size);
      assert room * size == size * room;
    }
  }

  // ---------- commit point ----------

  predicate Succeeded(c: Chunk, results: map<U64, ChunkResult>) {
    c.from in results && results[c.from].err.None?
  }

  /** Length of the longest error-free prefix. */
  function ErrorFree(chunks: seq<Chunk>, results: map<U64, ChunkResult>): (k: nat)
    ensures k <= |chunks|
    ensures forall i :: 0 <= i < k ==> Succeeded(chunks[i], results)
    ensures k < |chunks| ==> !Succeeded(chunks[k], results)
  {
    if chunks == [] || !Succeeded(chunks[0], results) then 0
    else 1 + ErrorFree(chunks[1..], results)
  }

  /** Where the cursor goes: after the last chunk of the error-free prefix. */
  function CommitPoint(next: U64, chunks: seq<Chunk>, results: map<U64, ChunkResult>): U64 {
    var k := ErrorFree(chunks, results);
    if k == 0 then next else WrapU64(results[chunks[k - 1].from].job.to + 1)
  }

  function LogTotal(chunks: seq<Chunk>, results: map<U64, ChunkResult>): nat {
    if chunks == [] then 0
    else
      var last := chunks[|chunks| - 1];
      LogTotal(chunks[..|chunks| - 1], results) + (if last.from in results then results[last.from].logCount else 0)
  }

  lemma ErrorFreeUnique(chunks: seq<Chunk>, results: map<U64, ChunkResult>, k: nat)
    requires k <= |chunks|
    requires forall i :: 0 <= i < k ==> Succeeded(chunks[i], results)
    requires k < |chunks| ==> !Succeeded(chunks[k], results)
    ensures k == ErrorFree(chunks, results)
  {
  }

  method ComputeCommitPoint(next: U64, chunks: seq<Chunk>, results: map<U64, ChunkResult>)
    returns (advanced: U64, committedChunks: nat, committedLogs: nat, firstErr: Option<ChunkError>)
    ensures committedChunks == ErrorFree(chunks, results)
    ensures advanced == CommitPoint(next, chunks, results)
    ensures committedLogs == LogTotal(chunks[..committedChunks], results)
    ensures firstErr.None? <==> committedChunks == |chunks|
    ensures firstErr.Some? ==>
              var bad := chunks[committedChunks];
              if bad.from in results then firstErr == results[bad.from].err
                  else firstErr == Some(Missing(bad.from, bad.to))
  {
    advanced := next;
    committedChunks := 0;
    committedLogs := 0;
    while committedChunks < |chunks|
      invariant committedChunks <= |chunks|
      invariant forall i :: 0 <= i < committedChunks ==> Succeeded(chunks[i], results)
      invariant advanced == if committedChunks == 0 then next
                            else WrapU64(results[chunks[committedChunks - 1].from].job.to + 1)
      invariant committedLogs == LogTotal(chunks[..committedChunks], results)
    {
      var chunk := chunks[committedChunks];
      if chunk.from !in results {
        ErrorFreeUnique(chunks, results, committedChunks);
        return advanced, committedChunks, committedLogs, Some(Missing(chunk.from, chunk.to));
      }
      var result := results[chunk.from];
      if result.err.Some? {
        ErrorFreeUnique(chunks, results, committedChunks);
        return advanced, committedChunks, committedLogs, result.err;
      }
      assert chunks[..committedChunks + 1][..committedChunks] == chunks[..committedChunks];
      advanced := WrapU64(result.job.to + 1);
      committedChunks := committedChunks + 1;
      committedLogs := committedLogs + result.logCount;
    }
    ErrorFreeUnique(chunks, results, committedChunks);
    firstErr := None;
  }

  /** What the worker pool may return: any part of the chunks, each entry under its own first block. */
  ghost predicate PoolResults(chunks: seq<Chunk>, results: map<U64, ChunkResult>) {
    forall f :: f in results ==> results[f].job.from == f && results[f].job in chunks
  }

  /** Block b lies in one of the first k chunks. */
  ghost predicate Covered(chunks: seq<Chunk>, k: nat, b: nat)
    requires k <= |chunks|
  {
    exists i :: 0 <= i < k && chunks[i].from <= b <= chunks[i].to
  }

  lemma FirstBlocksRise(chunks: seq<Chunk>)
    requires forall k :: 0 <= k < |chunks| ==> chunks[k].from <= chunks[k].to
    requires forall j, k :: 0 <= j < k < |chunks| ==> chunks[j].to < chunks[k].from
    ensures forall j, k :: 0 <= j < k < |chunks| ==> chunks[j].from < chunks[k].from
    ensures forall k :: 0 <= k < |chunks| ==> chunks[0].from <= chunks[k].from
  {
    forall j, k | 0 <= j < k < |chunks| ensures chunks[j].from < chunks[k].from {
      assert chunks[j].from <= chunks[j].to;
    }
  }

  /** A pool entry under a chunk's first block is that chunk's own. */
  lemma OwnEntry(chunks: seq<Chunk>, results: map<U64, ChunkResult>, i: nat)
    requires i < |chunks| && chunks[i].from in results && PoolResults(chunks, results)
    requires forall j, k :: 0 <= j < k < |chunks| ==> chunks[j].from < chunks[k].from
    ensures results[chunks[i].from].job == chunks[i]
  {
    var j :| 0 <= j < |chunks| && chunks[j] == results[chunks[i].from].job;
  }

  /** Forward chunks, one behind the other, from next up to safe. */
  ghost predicate Ordered(chunks: seq<Chunk>, next: nat, safe: nat) {
    && chunks != [] && chunks[0].from == next
    && (forall k :: 0 <= k < |chunks| ==> chunks[k].from <= chunks[k].to <= safe)
    && (forall j, k :: 0 <= j < k < |chunks| ==> chunks[j].to < chunks[k].from)
  }

  lemma CommitPointOrdered(chunks: seq<Chunk>, results: map<U64, ChunkResult>, next: U64, safe: U64)
    requires safe + 1 < TWO_64 && Ordered(chunks, next, safe) && PoolResults(chunks, results)
    ensures var k := ErrorFree(chunks, results);
            && CommitPoint(next, chunks, results) == (if k == 0 then next else chunks[k - 1].to + 1)
            && next <= CommitPoint(next, chunks, results) <= safe + 1
            && (CommitPoint(next, chunks, results) > next <==> k > 0)
  {
    var k := ErrorFree(chunks, results);
    if k > 0 {
      assert Succeeded(chunks[k - 1], results);
      FirstBlocksRise(chunks);
      OwnEntry(chunks, results, k - 1);
    }
  }

  /** With pool results of a tiled round nothing wraps: the commit point ends the error-free prefix of blocks. */
  lemma CommitPointExact(chunks: seq<Chunk>, results: map<U64, ChunkResult>, next: U64, safe: U64, size: nat, room: nat)
    requires next <= safe && size >= 1 && room >= 1 && safe + 1 < TWO_64
    requires Tiles(chunks, 0, next, safe, size, room) && PoolResults(chunks, results)
    ensures var k := ErrorFree(chunks, results);
            && CommitPoint(next, chunks, results) == (if k == 0 then next else chunks[k - 1].to + 1)
            && next <= CommitPoint(next, chunks, results) <= safe + 1
            && (CommitPoint(next, chunks, results) > next <==> k > 0)
            && (k == |chunks| ==> CommitPoint(next, chunks, results) == PlanEnd(next, safe, size, room))
  {
    TilesCover(chunks, next, safe, size, room);
    assert Ordered(chunks, next, safe);
    CommitPointOrdered(chunks, results, next, safe);
  }

  lemma {:induction false} PrefixCovers(chunks: seq<Chunk>, k: nat, b: nat)
    requires 0 < k <= |chunks| && chunks[0].from <= b <= chunks[k - 1].to
    requires forall i :: 0 <= i < |chunks| - 1 ==> chunks[i + 1].from == chunks[i].to + 1
    ensures Covered(chunks, k, b)
    decreases k
  {
    if chunks[k - 1].from > b {
      if k >= 2 {
        assert chunks[k - 2 + 1].from == chunks[k - 2].to + 1;
        PrefixCovers(chunks, k - 1, b);
      }
    }
  }

  // ---------- what holds of every plan, wrapped or not ----------

  /** Each chunk's end is fixed by its start, each chunk starts where the one before ends, none passes safe. */
  ghost predicate Linked(chunks: seq<Chunk>, next: nat, safe: U64, size: U64) {
    && (chunks != [] ==> chunks[0].from == next)
    && (forall i :: 0 <= i < |chunks| ==> chunks[i].to == NextToBlock(chunks[i].from, safe, size))
    && (forall i :: 0 <= i < |chunks| - 1 ==> chunks[i + 1].from == chunks[i].to + 1)
  }

  lemma {:induction false} PlanLinked(next: U64, safe: U64, size: U64, room: nat, index: nat)
    ensures Linked(Plan(next, safe, size, room, index), next, safe, size)
    decreases room
  {
    if room > 0 && next <= safe {
      var to := NextToBlock(next, safe, size);
      if to != safe {
        PlanLinked(WrapU64(to + 1), safe, size, room - 1, index + 1);
        var rest := Plan(WrapU64(to + 1), safe, size, room - 1, index + 1);
        LinkedCons(Chunk(index, next, to), rest, safe, size);
      }
    }
  }

  lemma LinkedCons(c: Chunk, rest: seq<Chunk>, safe: U64, size: U64)
    requires c.to == NextToBlock(c.from, safe, size) && c.to != safe
    requires Linked(rest, WrapU64(c.to + 1), safe, size)
    ensures Linked([c] + rest, c.from, safe, size)
  {
    var all := [c] + rest;
    forall i | 0 <= i < |all| - 1 ensures all[i + 1].from == all[i].to + 1 {
      if i > 0 { assert all[i] == rest[i - 1] && all[i + 1] == rest[i]; }
    }
  }

  /** A chunk counts as good only if it is not backwards. */
  ghost predicate GoodMeansForward(results: map<U64, ChunkResult>) {
    forall f :: f in results && results[f].err.None? ==> results[f].job.from <= results[f].job.to
  }

  lemma EntryEnd(chunks: seq<Chunk>, results: map<U64, ChunkResult>, next: nat, safe: U64, size: U64, i: nat)
    requires Linked(chunks, next, safe, size) && PoolResults(chunks, results)
    requires i < |chunks| && chunks[i].from in results
    ensures results[chunks[i].from].job.to == chunks[i].to
  {
    var j :| 0 <= j < |chunks| && chunks[j] == results[chunks[i].from].job;
  }

  lemma CommitIsPrefixEnd(chunks: seq<Chunk>, results: map<U64, ChunkResult>, next: U64, safe: U64, size: U64)
    requires Linked(chunks, next, safe, size) && PoolResults(chunks, results) && GoodMeansForward(results)
    requires safe + 1 < TWO_64 && next <= safe
    ensures var k := ErrorFree(chunks, results);
            && CommitPoint(next, chunks, results) == (if k == 0 then next else chunks[k - 1].to + 1)
            && (k > 0 ==> next <= chunks[k - 1].to <= safe)
  {
    var k := ErrorFree(chunks, results);
    if k > 0 {
      assert Succeeded(chunks[k - 1], results);
      EntryEnd(chunks, results, next, safe, size, k - 1);
      FirstAtMost(chunks, results, next, safe, size, k - 1);
    }
  }

  /** The commit point of any plan passes only blocks of chunks that succeeded, even when the plan wrapped. */
  lemma CommitPassesGoodBlocks(chunks: seq<Chunk>, results: map<U64, ChunkResult>, next: U64, safe: U64, size: U64)
    requires Linked(chunks, next, safe, size) && PoolResults(chunks, results) && GoodMeansForward(results)
    requires safe + 1 < TWO_64 && next <= safe
    ensures next <= CommitPoint(next, chunks, results) <= safe + 1
    ensures forall b: nat :: next <= b < CommitPoint(next, chunks, results) ==>
            Covered(chunks, ErrorFree(chunks, results), b)
  {
    CommitIsPrefixEnd(chunks, results, next, safe, size);
    var k := ErrorFree(chunks, results);
    forall b: nat | next <= b < CommitPoint(next, chunks, results) ensures Covered(chunks, k, b) {
      PrefixCovers(chunks, k, b);
    }
  }

  lemma {:induction false} FirstAtMost(chunks: seq<Chunk>, results: map<U64, ChunkResult>, next: U64, safe: U64,
                                       size: U64, i: nat)
    requires Linked(chunks, next, safe, size) && PoolResults(chunks, results) && GoodMeansForward(results)
    requires i < ErrorFree(chunks, results)
    ensures next <= chunks[i].from <= chunks[i].to <= safe
  {
    assert Succeeded(chunks[i], results);
    EntryEnd(chunks, results, next, safe, size, i);
    if i > 0 {
      FirstAtMost(chunks, results, next, safe, size, i - 1);
      assert chunks[i - 1 + 1].from == chunks[i - 1].to + 1;
    }
  }

  // ---------- catching up ----------

  /** Rounds that a lone scanner without failures needs to pass a fixed safe height. */
  function Rounds(next: nat, safe: nat, size: nat, room: nat): nat
    requires size >= 1 && room >= 1
    decreases safe + 1 - next
  {
    if next > safe then 0
    else
      AtLeastFactor(size, room);
      1 + Rounds(PlanEnd(next, safe, size, room), safe, size, room)
  }

  function CeilDiv(a: nat, d: nat): nat
    requires d >= 1
  {
    if a == 0 then 0 else (a - 1) / d + 1
  }

  /** Catching up takes exactly ceil((safe + 1 - next) / (size * room)) rounds. */
  lemma {:induction false} CatchUpRounds(next: nat, safe: nat, size: nat, room: nat)
    requires size >= 1 && room >= 1 && next <= safe + 1
    ensures size * room >= 1
    ensures Rounds(next, safe, size, room) == CeilDiv(safe + 1 - next, size * room)
    decreases safe + 1 - next
  {
    AtLeastFactor(size, room);
    if next <= safe {
      var d, a := size * room, safe + 1 - next;
      CatchUpRounds(PlanEnd(next, safe, size, room), safe, size, room);
      if a > d {
        DivStep(a - 1, d);
      } else {
        QuotientUnique(a - 1, d, 0, a - 1);
      }
    }
  }
}
