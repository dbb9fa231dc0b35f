/**
 The worker pool of one scan round (Scanner.runChunks in chains/evm/scanner.go)
 as a step system: a dispatcher on an unbuffered channel, workers, a results
 channel with one place per chunk, a closer and a collector, and a context that
 may be cancelled at any moment.
 */
module WorkerPool {
  import opened Chunks

  /** A result on its way to the collector, with the index of the job it answers. */
  datatype Item = Item(job: nat, result: ChunkResult)

  datatype Worker = Waiting | Busy(job: nat) | Holding(item: Item) | Exited

  datatype Pool = Pool(
    workers: seq<Worker>,
    dispatched: nat,
    jobsClosed: bool,
    buffer: seq<Item>,
    resultsClosed: bool,
    received: seq<Item>,
    resultMap: map<U64, ChunkResult>,
    finished: bool,
    cancelled: bool)

  datatype Step =
    | Handoff(w: nat)
    | StopDispatch
    | CloseJobs
    | Return(w: nat, result: ChunkResult)
    | Send(w: nat)
    | Exit(w: nat)
    | CloseResults
    | Receive
    | Finish
    | Cancel

  function Start(workerCount: nat): Pool {
    Pool(seq(workerCount, _ => Waiting), 0, false, [], false, [], map[], false, false)
  }

  predicate Enabled(chunks: seq<Chunk>, s: Pool, step: Step) {
    match step
    case Handoff(w) => !s.jobsClosed && s.dispatched < |chunks| && w < |s.workers| && s.workers[w].Waiting?
    case StopDispatch => !s.jobsClosed && s.dispatched < |chunks| && s.cancelled
    case CloseJobs => !s.jobsClosed && s.dispatched == |chunks|
    case Return(w, result) =>
      w < |s.workers| && s.workers[w].Busy? && s.workers[w].job < |chunks| && result.job == chunks[s.workers[w].job]
    case Send(w) => w < |s.workers| && s.workers[w].Holding? && |s.buffer| < |chunks|
    case Exit(w) => w < |s.workers| && s.workers[w].Waiting? && s.jobsClosed
    case CloseResults => !s.resultsClosed && forall w :: 0 <= w < |s.workers| ==> s.workers[w].Exited?
    case Receive => !s.finished && s.buffer != []
    case Finish => !s.finished && s.buffer == [] && s.resultsClosed
    case Cancel => !s.cancelled
  }

  function Apply(chunks: seq<Chunk>, s: Pool, step: Step): Pool
    requires Enabled(chunks, s, step)
  {
    match step
    case Handoff(w) => s.(workers := s.workers[w := Busy(s.dispatched)], dispatched := s.dispatched + 1)
    case StopDispatch => s.(jobsClosed := true)
    case CloseJobs => s.(jobsClosed := true)
    case Return(w, result) => s.(workers := s.workers[w := Holding(Item(s.workers[w].job, result))])
    case Send(w) => s.(workers := s.workers[w := Waiting], buffer := s.buffer + [s.workers[w].item])
    case Exit(w) => s.(workers := s.workers[w := Exited])
    case CloseResults => s.(resultsClosed := true)
    case Receive =>
      var item := s.buffer[0];
      s.(buffer := s.buffer[1..], received := s.received + [item],
         resultMap := s.resultMap[item.result.job.from := item.result])
    case Finish => s.(finished := true)
    case Cancel => s.(cancelled := true)
  }

  /** The steps lead from s to t. */
  ghost predicate Leads(chunks: seq<Chunk>, s: Pool, steps: seq<Step>, t: Pool)
    decreases |steps|
  {
    if steps == [] then s == t
    else Enabled(chunks, s, steps[0]) && Leads(chunks, Apply(chunks, s, steps[0]), steps[1..], t)
  }

  // ---------- jobs are conserved ----------

  ghost function Has(w: Worker, j: nat): nat {
    match w
    case Busy(job) => if job == j then 1 else 0
    case Holding(item) => if item.job == j then 1 else 0
    case _ => 0
  }

  ghost function Load(w: Worker): nat {
    if w.Busy? || w.Holding? then 1 else 0
  }

  /** How many workers have job j. */
  ghost function WorkersHave(ws: seq<Worker>, j: nat): nat {
    if ws == [] then 0 else WorkersHave(ws[..|ws| - 1], j) + Has(ws[|ws| - 1], j)
  }

  ghost function TotalLoad(ws: seq<Worker>): nat {
    if ws == [] then 0 else TotalLoad(ws[..|ws| - 1]) + Load(ws[|ws| - 1])
  }

  ghost function ItemsHave(items: seq<Item>, j: nat): nat {
    if items == [] then 0 else ItemsHave(items[..|items| - 1], j) + (if items[|items| - 1].job == j then 1 else 0)
  }

  /** In how many places job j is: in a worker's hands, in the results channel, with the collector. */
  ghost function Places(s: Pool, j: nat): nat {
    WorkersHave(s.workers, j) + ItemsHave(s.buffer, j) + ItemsHave(s.received, j)
  }

  lemma {:induction false} WorkersHaveUpdate(ws: seq<Worker>, w: nat, x: Worker, j: nat)
    requires w < |ws|
    ensures WorkersHave(ws[w := x], j) + Has(ws[w], j) == WorkersHave(ws, j) + Has(x, j)
    ensures TotalLoad(ws[w := x]) + Load(ws[w]) == TotalLoad(ws) + Load(x)
  {
    var n := |ws| - 1;
    if w == n {
      assert ws[w := x][..n] == ws[..n];
    } else {
      WorkersHaveUpdate(ws[..n], w, x, j);
      assert ws[w := x][..n] == ws[..n][w := x];
    }
  }

  lemma {:induction false} ItemsHaveConcat(a: seq<Item>, b: seq<Item>, j: nat)
    ensures ItemsHave(a + b, j) == ItemsHave(a, j) + ItemsHave(b, j)
    decreases |b|
  {
    if b == [] {
      assert a + b == a;
    } else {
      var n := |b| - 1;
      ItemsHaveConcat(a, b[..n], j);
      assert (a + b)[..|a + b| - 1] == a + b[..n];
    }
  }

  lemma OneItem(item: Item, j: nat)
    ensures ItemsHave([item], j) == if item.job == j then 1 else 0
  {
    assert [item][..0] == [];
  }

  lemma {:induction false} IdleHoldsNothing(ws: seq<Worker>, j: nat)
    requires forall w :: 0 <= w < |ws| ==> ws[w].Exited? || ws[w].Waiting?
    ensures WorkersHave(ws, j) == 0 && TotalLoad(ws) == 0
  {
    if ws != [] { IdleHoldsNothing(ws[..|ws| - 1], j); }
  }

  // ---------- the invariant ----------

  ghost predicate ItemSane(chunks: seq<Chunk>, item: Item) {
    item.job < |chunks| && item.result.job == chunks[item.job]
  }

  ghost predicate ItemsSane(chunks: seq<Chunk>, items: seq<Item>) {
    forall i :: 0 <= i < |items| ==> ItemSane(chunks, items[i])
  }

  ghost predicate WorkerSane(chunks: seq<Chunk>, w: Worker, jobsClosed: bool) {
    match w
    case Busy(job) => job < |chunks|
    case Holding(item) => ItemSane(chunks, item)
    case Exited => jobsClosed
    case Waiting => true
  }

  /** The map has an entry for every received item under the first block of its chunk, and nothing else. */
  ghost predicate MapsReceived(received: seq<Item>, resultMap: map<U64, ChunkResult>) {
    && (forall i :: 0 <= i < |received| ==> received[i].result.job.from in resultMap)
    && forall f :: f in resultMap ==> exists i :: 0 <= i < |received| && received[i].result == resultMap[f]
                                                  && received[i].result.job.from == f
  }

  /** Every dispatched job is in exactly one place, every other job in none. */
  ghost predicate Conserved(s: Pool) {
    && (forall j: nat :: Places(s, j) == if j < s.dispatched then 1 else 0)
    && TotalLoad(s.workers) + |s.buffer| + |s.received| == s.dispatched
  }

  ghost predicate Sane(chunks: seq<Chunk>, s: Pool) {
    && s.dispatched <= |chunks|
    && (forall w :: 0 <= w < |s.workers| ==> WorkerSane(chunks, s.workers[w], s.jobsClosed))
    && ItemsSane(chunks, s.buffer)
    && ItemsSane(chunks, s.received)
    && (s.jobsClosed ==> s.dispatched == |chunks| || s.cancelled)
    && (s.resultsClosed ==> forall w :: 0 <= w < |s.workers| ==> s.workers[w].Exited?)
    && (s.finished ==> s.resultsClosed && s.buffer == [])
  }

  ghost predicate Inv(chunks: seq<Chunk>, s: Pool) {
    Conserved(s) && Sane(chunks, s) && MapsReceived(s.received, s.resultMap)
  }

  lemma StartInv(chunks: seq<Chunk>, workerCount: nat)
    ensures Inv(chunks, Start(workerCount))
  {
    var s := Start(workerCount);
    IdleHoldsNothing(s.workers, 0);
    forall j: nat ensures Places(s, j) == 0 {
      IdleHoldsNothing(s.workers, j);
    }
  }

  lemma PlacesPreserved(chunks: seq<Chunk>, s: Pool, step: Step, j: nat)
    requires Enabled(chunks, s, step)
    ensures Places(Apply(chunks, s, step), j) == Places(s, j) + (if step.Handoff? && j == s.dispatched then 1 else 0)
    ensures var t := Apply(chunks, s, step);
            TotalLoad(t.workers) + |t.buffer| + |t.received| - t.dispatched
            == TotalLoad(s.workers) + |s.buffer| + |s.received| - s.dispatched
  {
    var t := Apply(chunks, s, step);
    match step
    case Handoff(w) => WorkersHaveUpdate(s.workers, w, t.workers[w], j);
    case Return(w, _) => WorkersHaveUpdate(s.workers, w, t.workers[w], j);
    case Exit(w) => WorkersHaveUpdate(s.workers, w, t.workers[w], j);
    case Send(w) =>
      WorkersHaveUpdate(s.workers, w, t.workers[w], j);
      ItemsHaveConcat(s.buffer, [s.workers[w].item], j);
      OneItem(s.workers[w].item, j);
    case Receive =>
      assert s.buffer == [s.buffer[0]] + s.buffer[1..];
      ItemsHaveConcat([s.buffer[0]], s.buffer[1..], j);
      ItemsHaveConcat(s.received, [s.buffer[0]], j);
    case _ =>
  }

  lemma ConservedPreserved(chunks: seq<Chunk>, s: Pool, step: Step)
    requires Conserved(s) && Enabled(chunks, s, step)
    ensures Conserved(Apply(chunks, s, step))
  {
    var t := Apply(chunks, s, step);
    PlacesPreserved(chunks, s, step, 0);
    forall j: nat ensures Places(t, j) == if j < t.dispatched then 1 else 0 {
      PlacesPreserved(chunks, s, step, j);
    }
  }

  lemma SanePreserved(chunks: seq<Chunk>, s: Pool, step: Step)
    requires Sane(chunks, s) && Enabled(chunks, s, step)
    ensures Sane(chunks, Apply(chunks, s, step))
  {
  }

  lemma MapPreserved(s: Pool, item: Item)
    requires MapsReceived(s.received, s.resultMap)
    ensures MapsReceived(s.received + [item], s.resultMap[item.result.job.from := item.result])
  {
    var received, resultMap := s.received + [item], s.resultMap[item.result.job.from := item.result];
    forall f | f in resultMap
      ensures exists i :: 0 <= i < |received| && received[i].result == resultMap[f] && received[i].result.job.from == f
    {
      if f == item.result.job.from {
        assert received[|s.received|] == item;
      } else {
        var i :| 0 <= i < |s.received| && s.received[i].result == s.resultMap[f] && s.received[i].result.job.from == f;
        assert received[i] == s.received[i];
      }
    }
  }

  lemma StepKeepsInv(chunks: seq<Chunk>, s: Pool, step: Step)
    requires Inv(chunks, s) && Enabled(chunks, s, step)
    ensures Inv(chunks, Apply(chunks, s, step))
    ensures |Apply(chunks, s, step).workers| == |s.workers|
  {
    ConservedPreserved(chunks, s, step);
    SanePreserved(chunks, s, step);
    if step.Receive? { MapPreserved(s, s.buffer[0]); }
  }

  lemma {:induction false} LeadsKeepsInv(chunks: seq<Chunk>, s: Pool, steps: seq<Step>, t: Pool)
    requires Inv(chunks, s) && Leads(chunks, s, steps, t)
    ensures Inv(chunks, t) && |t.workers| == |s.workers|
    decreases |steps|
  {
    if steps != [] {
      StepKeepsInv(chunks, s, steps[0]);
      LeadsKeepsInv(chunks, Apply(chunks, s, steps[0]), steps[1..], t);
    }
  }

  // ---------- safety ----------

  lemma {:induction false} WorkerCounted(ws: seq<Worker>, w: nat, j: nat)
    requires w < |ws|
    ensures Has(ws[w], j) <= WorkersHave(ws, j)
    ensures Load(ws[w]) <= TotalLoad(ws)
  {
    if w < |ws| - 1 { WorkerCounted(ws[..|ws| - 1], w, j); }
  }

  lemma {:induction false} TwoWorkersCounted(ws: seq<Worker>, v: nat, w: nat, j: nat)
    requires v < w < |ws|
    ensures Has(ws[v], j) + Has(ws[w], j) <= WorkersHave(ws, j)
  {
    if w == |ws| - 1 {
      WorkerCounted(ws[..w], v, j);
    } else {
      TwoWorkersCounted(ws[..|ws| - 1], v, w, j);
    }
  }

  /** A job that one worker has is with no other worker, not in the channel and not collected. */
  lemma EachJobOnce(chunks: seq<Chunk>, s: Pool, v: nat, w: nat, j: nat)
    requires Inv(chunks, s) && v < |s.workers| && w < |s.workers| && v != w
    requires Has(s.workers[v], j) == 1
    ensures Has(s.workers[w], j) == 0 && ItemsHave(s.buffer, j) == 0 && ItemsHave(s.received, j) == 0
  {
    TwoWorkersCounted(s.workers, if v < w then v else w, if v < w then w else v, j);
    assert Places(s, j) <= 1;
  }

  // Each job is processed at most once in a whole run.

  ghost function HasResult(w: Worker, j: nat): nat {
    if w.Holding? then Has(w, j) else 0
  }

  ghost function WorkersHaveResult(ws: seq<Worker>, j: nat): nat {
    if ws == [] then 0 else WorkersHaveResult(ws[..|ws| - 1], j) + HasResult(ws[|ws| - 1], j)
  }

  /** How often job j has been processed, as far as the state shows. */
  ghost function Processed(s: Pool, j: nat): nat {
    WorkersHaveResult(s.workers, j) + ItemsHave(s.buffer, j) + ItemsHave(s.received, j)
  }

  lemma {:induction false} WorkersHaveResultUpdate(ws: seq<Worker>, w: nat, x: Worker, j: nat)
    requires w < |ws|
    ensures WorkersHaveResult(ws[w := x], j) + HasResult(ws[w], j) == WorkersHaveResult(ws, j) + HasResult(x, j)
  {
    var n := |ws| - 1;
    if w == n {
      assert ws[w := x][..n] == ws[..n];
    } else {
      WorkersHaveResultUpdate(ws[..n], w, x, j);
      assert ws[w := x][..n] == ws[..n][w := x];
    }
  }

  lemma {:induction false} ResultsAmongJobs(ws: seq<Worker>, j: nat)
    ensures WorkersHaveResult(ws, j) <= WorkersHave(ws, j)
  {
    if ws != [] { ResultsAmongJobs(ws[..|ws| - 1], j); }
  }

  /** Is this step the completion of processChunk for job j? */
  ghost predicate Completes(s: Pool, step: Step, j: nat) {
    step.Return? && step.w < |s.workers| && s.workers[step.w] == Busy(j)
  }

  ghost function Completions(chunks: seq<Chunk>, s: Pool, steps: seq<Step>, j: nat): nat
    decreases |steps|
  {
    if steps == [] || !Enabled(chunks, s, steps[0]) then 0
    else (if Completes(s, steps[0], j) then 1 else 0) + Completions(chunks, Apply(chunks, s, steps[0]), steps[1..], j)
  }

  lemma ProcessedStep(chunks: seq<Chunk>, s: Pool, step: Step, j: nat)
    requires Enabled(chunks, s, step)
    ensures Processed(Apply(chunks, s, step), j) == Processed(s, j) + (if Completes(s, step, j) then 1 else 0)
  {
    var t := Apply(chunks, s, step);
    match step
    case Handoff(w) => WorkersHaveResultUpdate(s.workers, w, t.workers[w], j);
    case Return(w, _) => WorkersHaveResultUpdate(s.workers, w, t.workers[w], j);
    case Exit(w) => WorkersHaveResultUpdate(s.workers, w, t.workers[w], j);
    case Send(w) =>
      WorkersHaveResultUpdate(s.workers, w, t.workers[w], j);
      ItemsHaveConcat(s.buffer, [s.workers[w].item], j);
      OneItem(s.workers[w].item, j);
    case Receive =>
      assert s.buffer == [s.buffer[0]] + s.buffer[1..];
      ItemsHaveConcat([s.buffer[0]], s.buffer[1..], j);
      ItemsHaveConcat(s.received, [s.buffer[0]], j);
    case _ =>
  }

  lemma {:induction false} ProcessedAtMostOnce(chunks: seq<Chunk>, s: Pool, steps: seq<Step>, t: Pool, j: nat)
    requires Inv(chunks, s) && Leads(chunks, s, steps, t)
    ensures Processed(s, j) + Completions(chunks, s, steps, j) == Processed(t, j) <= 1
    decreases |steps|
  {
    if steps != [] {
      ProcessedStep(chunks, s, steps[0], j);
      StepKeepsInv(chunks, s, steps[0]);
      ProcessedAtMostOnce(chunks, Apply(chunks, s, steps[0]), steps[1..], t, j);
    } else {
      ResultsAmongJobs(s.workers, j);
      assert Places(s, j) <= 1;
    }
  }

  /** A worker with a result finds room in the results channel, so a send never blocks. */
  lemma SendNeverBlocks(chunks: seq<Chunk>, s: Pool, w: nat)
    requires Inv(chunks, s) && w < |s.workers| && s.workers[w].Holding?
    ensures |s.buffer| < |chunks| && Enabled(chunks, s, Send(w))
  {
    WorkerCounted(s.workers, w, 0);
  }

  lemma {:induction false} JobAmongItems(items: seq<Item>, j: nat)
    ensures ItemsHave(items, j) > 0 <==> exists i :: 0 <= i < |items| && items[i].job == j
  {
    if items != [] {
      var n := |items| - 1;
      JobAmongItems(items[..n], j);
      if i :| 0 <= i < n && items[..n][i].job == j {
        assert items[i].job == j;
      }
      if i :| 0 <= i < |items| && items[i].job == j {
        if i < n { assert items[..n][i].job == j; }
      }
    }
  }

  /** At all times the map is pool results: entries only of planned chunks, each under its own first block. */
  lemma MapIsPoolResults(chunks: seq<Chunk>, s: Pool)
    requires Inv(chunks, s)
    ensures PoolResults(chunks, s.resultMap)
  {
    forall f | f in s.resultMap ensures s.resultMap[f].job.from == f && s.resultMap[f].job in chunks {
      var i :| 0 <= i < |s.received| && s.received[i].result == s.resultMap[f] && s.received[i].result.job.from == f;
      assert ItemSane(chunks, s.received[i]);
    }
  }

  /**
   When the collector is done the map holds exactly the dispatched chunks, a prefix; all of them if nothing was
   cancelled.
   */
  lemma FinishedPoolIsComplete(chunks: seq<Chunk>, s: Pool)
    requires Inv(chunks, s) && s.finished && s.workers != []
    requires forall i, j :: 0 <= i < j < |chunks| ==> chunks[i].from != chunks[j].from
    ensures forall i :: 0 <= i < |chunks| ==> (chunks[i].from in s.resultMap <==> i < s.dispatched)
    ensures forall i :: 0 <= i < s.dispatched ==> s.resultMap[chunks[i].from].job == chunks[i]
    ensures !s.cancelled ==> s.dispatched == |chunks|
  {
    MapIsPoolResults(chunks, s);
    AllExited(chunks, s);
    forall i | 0 <= i < |chunks| ensures chunks[i].from in s.resultMap <==> i < s.dispatched {
      IdleHoldsNothing(s.workers, i);
      JobAmongItems(s.received, i);
      assert Places(s, i) == ItemsHave(s.received, i);
      if chunks[i].from in s.resultMap {
        var k :| 0 <= k < |s.received| && s.received[k].result == s.resultMap[chunks[i].from]
                 && s.received[k].result.job.from == chunks[i].from;
        assert ItemSane(chunks, s.received[k]) && s.received[k].job == i;
      }
    }
    forall i | 0 <= i < s.dispatched ensures s.resultMap[chunks[i].from].job == chunks[i] {
      var job := s.resultMap[chunks[i].from].job;
      assert job in chunks && job.from == chunks[i].from;
    }
  }

  lemma AllExited(chunks: seq<Chunk>, s: Pool)
    requires Inv(chunks, s) && s.finished && s.workers != []
    ensures s.cancelled || s.dispatched == |chunks|
  {
    assert s.workers[0].Exited?;
  }

  // ---------- termination ----------

  ghost function Weight(w: Worker): nat {
    match w
    case Waiting => 1
    case Busy(_) => 4
    case Holding(_) => 3
    case Exited => 0
  }

  ghost function TotalWeight(ws: seq<Worker>): nat {
    if ws == [] then 0 else TotalWeight(ws[..|ws| - 1]) + Weight(ws[|ws| - 1])
  }

  ghost function Flag(done: bool): nat {
    if done then 0 else 1
  }

  /** How many steps are left, cancellation included. */
  ghost function Remaining(chunks: seq<Chunk>, s: Pool): int {
    4 * (|chunks| - s.dispatched) + TotalWeight(s.workers) + |s.buffer|
    + Flag(s.jobsClosed) + Flag(s.resultsClosed) + Flag(s.finished) + Flag(s.cancelled)
  }

  lemma {:induction false} TotalWeightUpdate(ws: seq<Worker>, w: nat, x: Worker)
    requires w < |ws|
    ensures TotalWeight(ws[w := x]) + Weight(ws[w]) == TotalWeight(ws) + Weight(x)
  {
    var n := |ws| - 1;
    if w == n {
      assert ws[w := x][..n] == ws[..n];
    } else {
      TotalWeightUpdate(ws[..n], w, x);
      assert ws[w := x][..n] == ws[..n][w := x];
    }
  }

  lemma {:induction false} StartWeight(workerCount: nat)
    ensures TotalWeight(Start(workerCount).workers) == workerCount
  {
    if workerCount > 0 {
      StartWeight(workerCount - 1);
      assert Start(workerCount).workers[..workerCount - 1] == Start(workerCount - 1).workers;
    }
  }

  /** Every step uses up exactly one unit. */
  lemma StepCostsOne(chunks: seq<Chunk>, s: Pool, step: Step)
    requires Enabled(chunks, s, step)
    ensures Remaining(chunks, Apply(chunks, s, step)) == Remaining(chunks, s) - 1
  {
    var t := Apply(chunks, s, step);
    match step
    case Handoff(w) => TotalWeightUpdate(s.workers, w, t.workers[w]);
    case Return(w, _) => TotalWeightUpdate(s.workers, w, t.workers[w]);
    case Exit(w) => TotalWeightUpdate(s.workers, w, t.workers[w]);
    case Send(w) => TotalWeightUpdate(s.workers, w, t.workers[w]);
    case _ =>
  }

  lemma {:induction false} RunCosts(chunks: seq<Chunk>, s: Pool, steps: seq<Step>, t: Pool)
    requires Leads(chunks, s, steps, t)
    ensures Remaining(chunks, t) == Remaining(chunks, s) - |steps|
    decreases |steps|
  {
    if steps != [] {
      StepCostsOne(chunks, s, steps[0]);
      RunCosts(chunks, Apply(chunks, s, steps[0]), steps[1..], t);
    }
  }

  /** The pool never deadlocks: until the collector is done, some step other than cancellation is possible. */
  lemma NoDeadlock(chunks: seq<Chunk>, s: Pool, reply: Chunk -> ChunkResult)
    requires Inv(chunks, s) && s.workers != [] && !s.finished
    requires forall c :: c in chunks ==> reply(c).job == c
    ensures exists step: Step :: !step.Cancel? && Enabled(chunks, s, step)
  {
    if s.buffer != [] {
      assert Enabled(chunks, s, Receive);
    } else if w :| 0 <= w < |s.workers| && s.workers[w].Holding? {
      SendNeverBlocks(chunks, s, w);
    } else if w :| 0 <= w < |s.workers| && s.workers[w].Busy? {
      assert Enabled(chunks, s, Return(w, reply(chunks[s.workers[w].job])));
    } else if w :| 0 <= w < |s.workers| && s.workers[w].Waiting? {
      if s.jobsClosed {
        assert Enabled(chunks, s, Exit(w));
      } else if s.dispatched < |chunks| {
        assert Enabled(chunks, s, Handoff(w));
      } else {
        assert Enabled(chunks, s, CloseJobs);
      }
    } else if !s.resultsClosed {
      assert Enabled(chunks, s, CloseResults);
    } else {
      assert Enabled(chunks, s, Finish);
    }
  }

  /** One round of the pool, whatever the interleaving: bounded, and its map is what the commit point needs. */
  lemma EveryRoundIsSound(chunks: seq<Chunk>, workerCount: nat, steps: seq<Step>, t: Pool)
    requires workerCount >= 1
    requires Leads(chunks, Start(workerCount), steps, t)
    ensures |steps| <= 4 * |chunks| + workerCount + 4
    ensures PoolResults(chunks, t.resultMap)
    ensures t.finished && !t.cancelled && (forall i, j :: 0 <= i < j < |chunks| ==> chunks[i].from != chunks[j].from)
            ==> forall i :: 0 <= i < |chunks| ==>
                chunks[i].from in t.resultMap && t.resultMap[chunks[i].from].job == chunks[i]
  {
    StartInv(chunks, workerCount);
    LeadsKeepsInv(chunks, Start(workerCount), steps, t);
    StartWeight(workerCount);
    RunCosts(chunks, Start(workerCount), steps, t);
    MapIsPoolResults(chunks, t);
    if t.finished && !t.cancelled && forall i, j :: 0 <= i < j < |chunks| ==> chunks[i].from != chunks[j].from {
      FinishedPoolIsComplete(chunks, t);
    }
  }
}
