# Chain indexer: a verified model

The repository is an at-least-once indexer for EVM chains. Scanners tile the safe block range into chunks, fetch and
decode the logs of each chunk on a worker pool, store the accepted events together with planned notifications in one
transaction, and then move a cursor past the error-free prefix. Dispatchers claim due notifications under a timed lease,
send them and mark the outcome. A snowflake generator numbers all rows, and a token lock on Redis serves as a mutex.

This project models that protocol in Dafny and proves what it keeps over every run: no configured log below the cursor
is lost, the stored rows are those of a one-block-at-a-time scan, rows exist once per key whatever is replayed, leases
never overlap, retries are counted exactly, no due notification is overtaken for long, IDs never repeat and lock
intervals are disjoint.

`dafny verify dfyconfig.toml` checks the whole project (Dafny 4.11).

## Layout

| file | what it models |
|---|---|
| `Basics.dfy`, `Domain.dfy`, `Tables.dfy` | integer width, trimming, values and rows shared by the rest |
| `Snowflake.dfy` | the ID generator, bit by bit, and every history of calls under any clock |
| `Source.dfy` | log filters and the queries they are split into |
| `Chunks.dfy` | safe height, tiling, commit point, with the uint64 arithmetic of the code |
| `WorkerPool.dfy` | the goroutines and channels of one round as a step system |
| `EventKey.dfy`, `Handler.dfy` | event keys, the decoder index, and what becomes of each log of a batch |
| `EventStore.dfy`, `EventStoreLaws.dfy` | the transactional save with its unique keys, and what any sequence of saves keeps |
| `SaveLaws.dfy` | exactly when a save passes, what it adds column by column, and that saving again changes nothing |
| `CursorStore.dfy` | the cursor upsert |
| `Ingest.dfy`, `IngestLaws.dfy`, `ChunkLaws.dfy` | one `processChunk` call, what a result without an error means, and exactly when there is one |
| `Scan.dfy`, `Refinement.dfy`, `ScanRound.dfy` | all scanners together, with dispatchers at work on the outbox: no loss, refinement of the sequential scan, catch-up bound |
| `Rounds.dfy` | `scanOnce` called again and again on the stored tables: a run of the step system, so the laws hold of the tables |
| `Messages.dfy` | what stored events and message bodies say about the chain, in every run |
| `ForeignSaves.dfy`, `SharedLog.dfy` | scanners beside other writers of the same tables: who owns a row, and when refinement survives |
| `Backoff.dfy` | both backoffs, the RPC retry loop, round robin |
| `Outbox.dfy` | the notification outbox table with claim and marks |
| `Dispatch.dfy`, `DispatchLaws.dfy`, `DispatchSends.dfy` | N workers over the outbox as a timed step system |
| `Fairness.dfy`, `Overtaking.dfy` | how long a due notification can be passed over, and exactly when that is bounded |
| `Dispatcher.dfy` | the dispatcher's own loop, tied to the step system |
| `Delivery.dfy` | where scanners and dispatchers meet: each side's effect on the outbox is a step of the other's system |
| `RedisLock.dfy` | the lock server, the client and every run of both |

Where the source updates state step by step, the model has a method (with the source's loop and branches) proved against
a specification function, and the laws are lemmas about that function. Interleavings are step systems: a list of steps
leads from one state to another when every step is possible, and the theorems hold for every such list.

## Assumptions

- Blocks at or below a safe height never change, and `eth_getLogs` returns exactly the matching logs of its range, in
  the semantics of the Ethereum JSON-RPC API: topics match by position, an empty position matches anything, and a log with
  fewer topics than positions does not match.
- Decoders, filters and the route planner answer the same question the same way each time.
- A database transaction is one atomic step, and so is one Redis command or script. A claim or a mark reads the clock in that
  same step, although the code calls `time.Now()` shortly before the commit.
- All workers share one clock that does not run back. Worker names are distinct, and each worker does one thing at a time;
  after a crash it may come back under its old name.
- `SET NX` with a TTL below one millisecond gets one millisecond, as the Redis client library documents; a key is gone
  once the server clock has passed its expiry and may be gone from the expiry on.
- Lock tokens are fresh: the random bytes of `newToken` do not repeat.

IDs drawn from generators, clock readings, context polls, RPC failures and commit failures are inputs: a sequence of
readings, a function from the poll number to its answer, and so on. Running out of readings stands for a cancelled context.

## Findings

Each of these is a property that the code does not have on all inputs. The model keeps the code's behaviour and proves
exactly when the property holds; the half that fails comes with the input or the run that breaks it.

- **An ID collision loses an event silently.** The event insert ignores every conflict, so an event whose generated ID
  is taken is skipped and the save still reports success. Without a route planner every event of a successful save is
  stored if and only if its IDs are fresh (`PlainSaveStoresIffFresh`, with `SilentLossExample`); with a planner the
  later lookup turns the loss into an error (`PlannedSaveStores`). Fresh IDs follow from the generator, however its
  draws are dealt out among workers (`GeneratorDrawsAreFresh`).
- **Another monitor can own the row of a shared log**, because the event key does not name the monitor. Below the cursor
  an accepted event has its own row if and only if no foreign save took its key first (`StoredAsOursIff`), and the rows
  under our keys refine the sequential scan if and only if none was taken (`RefinesBesideOthersIff`). No run can take
  one if and only if the storable foreign events that share one of our keys are our own events (`NeverTakenIff`);
  `SharedLogIsTheirs` is a run of one log where the cursor passes a block whose row is theirs.
- **`nextToBlock` wraps near 2^64.** A round's plan is a tiling if and only if its last full chunk ends inside uint64
  (`PlanIsTilingIff`; `PlanWraps` is a plan whose first chunk ends at block 0); even where it wraps, the commit point
  passes only blocks that were handled (`CommitPassesGoodBlocks`).
- **The outbox's own delays, those of `retryDelay`, can shrink and turn negative.** They are all positive if and only if
  ten doublings of the base fit an int64 (`OutboxDelayPositiveIff`), and non-decreasing if and only if the base, which
  is not capped, does not exceed the maximum as well (`OutboxDelayMonotoneIff`). `OutboxDelayWraps` is a base whose
  fifth delay is zero. Through the dispatcher a failed send waits a second or more all the same, as long as its sender
  reports no negative wait and none within a second of the int64 limit (`WaitIsASecondAtLeast`).
- **A failed notification can come back to the front of the queue** when the base is that large and a sender reports a
  wait of minus a second or less, or one within a second of the int64 limit. Every wait is positive if and only if ten
  doublings of the base fit an int64 or the reported wait and a second do and are positive (`WaitIsPositiveIff`), and
  overtaking is bounded in every run if and only if this is so for everything that senders report
  (`OvertakingIsBoundedIff`); `FailureOvertakes` is the run that breaks it.
- **The RPC client's doubling loop is exact** if and only if some doubling reaches the maximum inside int64
  (`RpcDelayExactIff`); with a base of 2^62 ns the second delay is -2^63 (`RpcDelayWraps`).
- **`pickEndpoint` goes negative** after 2^63 picks (`PickInRangeIff`); for three endpoints it is then -2
  (`PickIndexTurnsNegative`).
- **The lock covers a send only if it starts soon enough.** Sends of a row never overlap if and only if the latest start
  after a claim and one timeout fit the lock: two timeouts for a lock of three (`NeverOverlapsIff`). One nanosecond
  later they can overlap, which a batch size above one or a pause after a failed send can bring about. The lock is three
  timeouts if and only if these fit an int64 (`LockIsThreeTimeoutsIff`); a timeout of 2^62 ns gets a lock of thirty
  seconds (`LockCanBeTooShort`).
- **IDs fall once the time difference leaves 41 bits.** Every history with readings up to a bound increases if and only
  if the bound is inside the range (`IssuedIdsIncreaseIff`).
- **Scanners whose confirmation depths differ by two or more** can leave a cursor whose latest and safe heights belong
  to neither; with equal or adjacent depths they cannot, whatever they save in which order (`DepthsMixIff`, with
  `DepthsApart`).
- **Different sources can share a cursor row** when a network contains a colon, since the key joins chain, network and
  source with colons. They do if and only if their chain IDs and their texts network:name agree (`CursorKeysAgreeIff`, with
  `CursorKeysCollide`); without colons in networks that is when all three agree (`CursorKeyInjective`).

## Model

| member | source | states |
|---|---|---|
| `Snowflake.PackIsPositional` | common/idgen/snowFlake.go:112-115 | shifting and or-ing equals kept time bits times 2^22 plus worker times 2^12 plus sequence, inside int64 |
| `Snowflake.ParseInvertsPack` | common/idgen/snowFlake.go:118-133 | `Parse` returns worker and sequence always, and the time if and only if the difference fits 41 signed bits |
| `Snowflake.New` | common/idgen/snowFlake.go:52-73 | worker IDs outside 0..1023 are refused; otherwise a valid generator with the given settings, or 2024-01-01 and 5 ms where none are given, that has seen no time yet |
| `Snowflake.Generator.NextID` | common/idgen/snowFlake.go:75-116 | one call, on any clock readings, moves the fields and answers exactly as `Next` says, failure paths included |
| `Snowflake.Generator.WaitNextMillis` | common/idgen/snowFlake.go:139-151 | the first reading after the given millisecond, or none |
| `Snowflake.DecideShape` | common/idgen/snowFlake.go:79-109 | a call takes a later millisecond with sequence 0, or the same one with the next sequence, or leaves time alone; the sequence passes 4095 only by a failed wait |
| `Snowflake.NextMeans` | common/idgen/snowFlake.go:75-116 | by the first reading: behind by more than the tolerance fails at once; behind within it, or in a full millisecond, issues at the first later reading with sequence 0 or fails when there is none; a millisecond with room issues the next sequence; a later one starts with sequence 0 |
| `Snowflake.NextFailsIff` | common/idgen/snowFlake.go:85-107 | each of the three failures happens if and only if its own condition on the readings and the fields holds |
| `Snowflake.NextRaisesMark` | common/idgen/snowFlake.go:75-116 | an issued ID exceeds everything before it; a failed call does not move the mark |
| `Snowflake.IssuedIdsIncrease` | common/idgen/snowFlake.go:75-116 | for every history of calls, clock jumps and failures, the issued IDs strictly increase |
| `Snowflake.IssuedIdsIncreaseIff` | common/idgen/snowFlake.go:112-115 | all histories with readings from the start of the 41-bit range to epoch + high issue increasing IDs if and only if high is inside the range |
| `Snowflake.WorkersNeverCollide` | common/idgen/snowFlake.go:112-115 | generators with different worker IDs share no ID in any two histories |
| `Snowflake.AtMost4096PerMillisecond` | common/idgen/snowFlake.go:97-109 | two IDs of one millisecond are at most 4095 positions apart |
| `Source.NewQuerySource` | chains/evm/source.go:88-119 | exactly the named, non-empty specs with at most four topics are accepted, with the defaults |
| `Source.PiecesFlatten` | chains/evm/source.go:281-300 | splitting loses, repeats and reorders no address |
| `Source.PieceSizes` | chains/evm/source.go:281-300 | no piece is empty, none exceeds the limit |
| `Source.SplitAddresses` | chains/evm/source.go:281-300 | the loop yields those pieces |
| `Source.BuildQueries` | chains/evm/source.go:207-270 | it fails exactly on a backwards range, on no specs without leave, or when cancelled, and otherwise yields the queries of the specs |
| `Source.QueriesMeanSource` | chains/evm/source.go:207-270 | a log matches some query if and only if it is in the range and matches some spec |
| `Source.NoAccidentalWildcard` | chains/evm/source.go:231-265 | every query keeps its spec's topics and the address limit, and has no address only if its spec has none |
| `Chunks.ApplyDefaults` | chains/evm/scanner.go:146-170 | each setting that is at least one stays; otherwise 3 confirmations, chunks of 500 blocks, 10 workers, and twice as many chunks in flight as workers |
| `Chunks.SafeBlock` | chains/evm/scanner.go:595-600 | latest minus confirmations if that is positive, with a successor inside uint64 |
| `Chunks.NextToBlockSound` | chains/evm/scanner.go:576-584 | the chunk end is right if and only if the addition stays inside uint64 |
| `Chunks.PlanChunksLoop` | chains/evm/scanner.go:527-548 | the planning loop yields the plan |
| `Chunks.PlanIsTilingIff` | chains/evm/scanner.go:527-548 | the plan is a tiling from the next block, chunk by chunk, if and only if its last full chunk ends inside uint64 |
| `Chunks.PlanWraps` | chains/evm/scanner.go:576-584 | the plan for block 2^64 - 2 with chunks of three starts with a chunk that ends at block 0 |
| `Chunks.PlanIsTiling` | chains/evm/scanner.go:527-548 | a safe height plus chunk size below 2^64 is enough |
| `Chunks.TilesCover` | chains/evm/scanner.go:527-548 | a tiling is contiguous, disjoint, non-empty, ends where expected and covers each of its blocks |
| `Chunks.ComputeCommitPoint` | chains/evm/scanner.go:550-574 | the loop returns the commit point, the counts of the error-free prefix and the first error, missing results included |
| `Chunks.CommitPointExact` | chains/evm/scanner.go:550-574 | for pool results the commit point is one past the longest error-free prefix, without wrap, and advances if and only if the first chunk succeeded |
| `Chunks.CommitPassesGoodBlocks` | chains/evm/scanner.go:550-574 | even for a plan that wrapped, every block below the commit point lies in a chunk that succeeded |
| `Chunks.CatchUpRounds` | chains/evm/scanner.go:527-574 | the number of error-free rounds is the quotient, rounded up, of the missing blocks by chunk size times inflight chunks |
| `WorkerPool.EachJobOnce` | chains/evm/scanner.go:353-383 | a job that a worker holds is nowhere else |
| `WorkerPool.ProcessedAtMostOnce` | chains/evm/scanner.go:359-366 | in every interleaving a job is processed at most once |
| `WorkerPool.SendNeverBlocks` | chains/evm/scanner.go:348-366 | the results channel has room for every worker with a result |
| `WorkerPool.MapIsPoolResults` | chains/evm/scanner.go:384-389 | every entry maps a planned chunk's first block to that chunk's result |
| `WorkerPool.FinishedPoolIsComplete` | chains/evm/scanner.go:347-390 | at the end exactly the dispatched chunks are present, and without cancellation all of them |
| `WorkerPool.NoDeadlock` | chains/evm/scanner.go:347-390 | until the collector is done some step is possible |
| `WorkerPool.EveryRoundIsSound` | chains/evm/scanner.go:347-390 | every interleaving has at most 4 chunks + workers + 4 steps and ends with the results the commit point needs |
| `EventKey.EventKeyInjective` | chains/evm/handler.go:525-527 | two keys are equal if and only if chain, transaction and log index are |
| `EventKey.HexDigits` | chains/evm/handler.go:525-527 | the hash is written byte by byte as two lower-case hexadecimal digits |
| `Handler.BuildDecoderIndex` | chains/evm/handler.go:215-276 | it succeeds if and only if every decoder has a name and keys, every key is set, and no two keys need the same place; the index holds those keys and no others |
| `Handler.LookupIsScan` | chains/evm/handler.go:570-588 | the indexed lookup is a scan of all keys that prefers exact ones |
| `Handler.ScanPrefersExact` | chains/evm/handler.go:570-588 | that scan finds a decoder of an exact key that fits, otherwise of a topic key that fits, and none if and only if no key fits |
| `Handler.DecoderOrderIrrelevant` | chains/evm/handler.go:215-276 | permuting the decoders changes neither success nor any lookup |
| `Handler.ApplyFilters` | chains/evm/handler.go:446-466 | the loop over the filters, nil filters included |
| `Handler.FiltersConjoin` | chains/evm/handler.go:446-466 | an event passes if and only if every filter accepts it; otherwise the first objecting filter decides |
| `Handler.RejectionHasReason` | chains/evm/handler.go:446-466 | a rejection carries the reason of a rejecting filter, or its name when it gives none |
| `Handler.VerdictMeans` | chains/evm/handler.go:300-395 | a log is unmatched when no configured key fits, ignored when its decoder fails and that is allowed, filtered when the first objecting filter rejects it, accepted when every filter accepts the event made of it |
| `Handler.FatalMeans` | chains/evm/handler.go:300-395 | each error has its own cause: no key fits, the decoder fails, its answer is unusable, or the first objecting filter fails |
| `Handler.EventMadeMeans` | chains/evm/handler.go:468-523 | an event is made if and only if the chosen decoder gives a named, valid answer, and then every field is that of the batch, the log or this answer |
| `Handler.CountWithCounts` | chains/evm/handler.go:287-396 | the counts of a batch are how often each fate occurs |
| `Handler.Sift` | chains/evm/handler.go:287-396 | success if and only if no log is fatal and nothing was cancelled; otherwise the first reason in log order; the events are the accepted logs and the counts add up to the raw logs |
| `Handler.AcceptedEventsAreOfLogs` | chains/evm/handler.go:287-396 | an event is among the saved ones if and only if some log was accepted as it |
| `Handler.AcceptedEventsInOrder` | chains/evm/handler.go:287-396 | each accepted log has one event of its own, in the order of the logs |
| `Handler.AcceptedMirrorsLog` | chains/evm/handler.go:468-523 | an accepted event carries every field of its log and batch, and every filter accepts it |
| `EventStore.DedupeEvents` | database/store_event.go:475-499 | the loop keeps first occurrences and events without a key |
| `SaveLaws.DedupeTakesFirsts` | database/store_event.go:475-499 | deduplication keeps exactly the first event of each key and the keyless ones, in order |
| `EventStore.Store.SaveEvents` | database/store_event.go:83-151 | one call changes both tables and answers as `Save` says, whose success, effect and errors the next rows give |
| `SaveLaws.SavePassesIff` | database/store_event.go:83-256 | a save passes if and only if there are IDs for all distinct events, nothing is cancelled, each can be stored, and with a planner the IDs of new events are free, every answer is there with complete routes, there are IDs for all notices, and those for new notices are free |
| `SaveLaws.PlannedSaveAdds` | database/store_event.go:153-256 | a save with a planner that passes adds exactly the events with new keys and one outbox row per new notice, under the IDs drawn for them, every column given |
| `SaveLaws.PlainSaveAdds` | database/store_event.go:128-134 | without a planner it adds exactly the events with new keys when the IDs are fresh, and leaves the outbox |
| `SaveLaws.SavingAgainChangesNothing` | database/store_event.go:128-256 | saving again what is stored with all its routes passes and leaves both tables as they are, whatever IDs are drawn |
| `SaveLaws.BuildFailsAt` | database/store_event.go:97-120 | a save that fails before its transaction does so at the first event that is cancelled, has no ID or cannot be stored, with that error |
| `EventStore.PlanRows` | database/store_event.go:153-233 | the outbox rows of the persisted events, with message bodies that carry version and stored event ID, or the first error in event and route order |
| `SaveLaws.PlansIff` | database/store_event.go:153-233 | the plan comes about if and only if every key has a row, every answer is there with complete routes and there is an ID per notice; row k is that of notice k under ID k |
| `SaveLaws.NormalizeMeans` | database/store_event.go:355-369 | a route is trimmed, with the event's name for a blank type and ten tries for none |
| `SaveLaws.PlanFailsAt` | database/store_event.go:153-233 | a plan that fails does so at the first event, and there at the first route, that cannot be planned, with that error |
| `EventStore.InsertOutboxRows` | database/store_event.go:240-253 | planned rows are inserted unless the delivery exists; a used ID is an error |
| `SaveLaws.InsertsIff` | database/store_event.go:240-253 | the insert passes if and only if no row of a new delivery has a used ID, and then adds exactly the rows of new deliveries |
| `EventStoreLaws.ConflictIsIdOrKey` | database/models.go:72-93 | with injective keys the three unique constraints conflict exactly on a used ID or a used event key |
| `EventStoreLaws.DedupeLaw` | database/store_event.go:475-499 | the result has distinct keys and every key of the batch |
| `EventStoreLaws.SaveKeepsDatabase` | database/store_event.go:128-256 | a save keeps one row per key and per delivery and every reference to an event, in the column and in the message body; it alters no row, and does nothing when it fails |
| `EventStoreLaws.AnySavesKeepDatabase` | database/store_event.go:128-256 | the same for any sequence of replayed, failed and duplicated saves |
| `EventStoreLaws.PlannedSaveStores` | database/store_event.go:153-256 | a successful save with a planner stored every event and one outbox row per route that names it |
| `EventStoreLaws.PlainSaveStoresIffFresh` | database/store_event.go:128-134 | without a planner a successful save stored every event if and only if the IDs were fresh |
| `EventStoreLaws.SilentLossExample` | database/store_event.go:128-134 | a reported success that stored nothing |
| `CursorStore.Store.GetCursor` | database/store_cursor.go:29-65 | the row of the key itself, none when it was never saved, or an error for an empty key or from the database |
| `CursorStore.Store.SaveCursor` | database/store_cursor.go:67-139 | the row has each block number as the greatest of the saved and the previous one and the other columns as saved; other keys stay; incomplete cursors are refused; a statement whose answer is an error may or may not have been carried out |
| `CursorStore.MergeRaises` | database/store_cursor.go:107-130 | the merge that the runs use is that row |
| `CursorStore.SavesCommute` | database/store_cursor.go:107-130 | saves of one key in any order give the same blocks |
| `CursorStore.SavesKeepAligned` | database/store_cursor.go:107-130 | merging moves no field back and keeps next <= safe + 1 and latest = safe + confirmations |
| `CursorStore.DepthsMixIff` | database/store_cursor.go:107-130 | after any saves by scanners of two depths, in any order, the stored cursor fits one of them if and only if the depths differ by at most one |
| `CursorStore.DepthsApart` | database/store_cursor.go:107-130 | two saves whose depths differ by two or more leave a cursor that fits neither |
| `Ingest.CollectLaw` | chains/evm/scanner.go:421-455 | collecting keeps each log identity once, invents none and drops none |
| `Ingest.CollectTakesFirsts` | chains/evm/scanner.go:421-455 | the logs come in the order of the answers, each identity where it occurs first |
| `Ingest.CollectLogs` | chains/evm/scanner.go:421-455 | the loop with its seen-set does that, or stops at a failed query |
| `Ingest.ChunkLogsExact` | chains/evm/scanner.go:405-455 | a chunk's logs are exactly the configured logs of its blocks, each once |
| `Ingest.HandleLogs` | chains/evm/handler.go:278-444 | tables and error after the call, with one save after the loop; the error names its cause |
| `ChunkLaws.HandlePassesIff` | chains/evm/handler.go:278-444 | it passes if and only if the batch is empty, or no log is fatal or cancelled and either none is accepted or the accepted ones can be saved and the commit is confirmed |
| `ChunkLaws.HandleLeavesTables` | chains/evm/handler.go:278-444 | without accepted events, and on a failure whose commit is not in doubt, both tables stay |
| `Ingest.ProcessChunk` | chains/evm/scanner.go:405-502 | tables and chunk result after the call, for every failure on the way |
| `ChunkLaws.ProcessPassesIff` | chains/evm/scanner.go:405-502 | a chunk has no error if and only if range and source are legal, nothing is cancelled, every query is answered, the senders load and the batch passes; each error has its own cause |
| `ChunkLaws.QuietChunkPasses` | chains/evm/handler.go:283-285 | a chunk whose blocks hold no configured log passes and changes nothing |
| `ChunkLaws.ReplayPasses` | chains/evm/scanner.go:405-502 | a chunk whose logs are settled passes again and changes nothing |
| `IngestLaws.GeneratorDrawsAreFresh` | common/idgen/snowFlake.go:75-116 | the IDs at any rising positions of a generator's history are distinct, and fresh after those at any other positions and those of any set of other workers |
| `IngestLaws.DedupeKeepsAll` | database/store_event.go:475-499 | deduplication drops no event of distinct logs |
| `IngestLaws.HandleHandles` | chains/evm/handler.go:278-444 | without an error every log of the batch is handled and what was accepted is stored with its routes |
| `IngestLaws.ProcessHandles` | chains/evm/scanner.go:405-502 | a chunk result without an error means every configured log of the chunk is handled |
| `IngestLaws.ProcessKeeps` | chains/evm/scanner.go:405-502 | whatever becomes of a chunk, tables only grow, and only by events of its blocks |
| `Scan.StepKeepsInv` | chains/evm/scanner.go:242-345 | every step of a scanner or dispatcher, every crash and every foreign save keeps: every configured log up to the cursor, up to every pending cursor and in every good chunk was in a finished batch and is settled in the tables |
| `Scan.NoLoss` | chains/evm/scanner.go:242-345 | in every reachable state every configured log from the start block to below the stored cursor was in the batch of a `processChunk` call of the run whose `HandleLogs` returned nil, and if it was accepted its key has an event row and each of its routes an outbox row |
| `Scan.CursorNeverMovesBack` | database/store_cursor.go:107-130 | over every run, stale reads included, the stored cursor never moves back and keeps its shape |
| `Scan.CursorKeysAgreeIff` | chains/evm/scanner.go:586-593 | two scanners share a cursor row if and only if their chain IDs and their texts network:name agree |
| `Scan.CursorKeyInjective` | chains/evm/scanner.go:586-593 | with networks without a colon that is when chain, network and source agree |
| `Scan.CursorKeysCollide` | chains/evm/scanner.go:586-593 | an example: network x with source y:z, and network x:y with source z |
| `Delivery.DispatchersRunBesideScanners` | notifications/dispatcher.go:121-223 | whatever a run of the dispatchers does to the outbox is a step that leaves the scanners' laws intact: rows stay, and only status, retries, lock, last error and sending time change |
| `Delivery.SavedRowsAreInserts` | database/store_event.go:153-253 | every row that a save adds to the outbox is a pending, unlocked, untried row, due at once, as the dispatchers' system inserts it |
| `Refinement.SequentialLaw` | chains/evm/scanner.go:405-502 | the one-block-at-a-time scan yields exactly the accepted events of its blocks |
| `Refinement.RefinesSequentialScan` | chains/evm/scanner.go:303-324 | in every state that the scanners of one key reach, the stored events below the cursor are exactly those of the sequential scan |
| `Messages.StoredMirrorsChain` | database/store_event.go:315-417 | in every state of the scanners' own runs each event row is a configured log, column by column, and each outbox row is for a route of such an event and carries its columns in the message |
| `ForeignSaves.StoredAsOursIff` | chains/evm/handler.go:525-527 | beside any foreign saves, an accepted event below the cursor has its own row if and only if no foreign save of the run took its key first |
| `ForeignSaves.RefinesBesideOthersIff` | database/store_event.go:128-134 | beside any foreign saves, the rows under our keys below the cursor are those of the sequential scan if and only if no foreign save took one of them first |
| `ForeignSaves.ForeignTakesIff` | database/store_event.go:128-134 | a foreign save of one event takes our key if and only if the key is free and a different, storable event comes under it with a free ID |
| `ForeignSaves.NeverTakenIff` | database/models.go:72-93 | our keys are safe in every run if and only if the storable foreign events that share one are our own events |
| `SharedLog.SharedLogIsTheirs` | chains/evm/handler.go:525-527 | a run in which another monitor saves a shared log first, our cursor passes its block and our event never gets a row |
| `SharedLog.SharedLogExists` | chains/evm/handler.go:525-527 | the chain, settings and event of such a run |
| `Refinement.NothingAboveSafe` | chains/evm/scanner.go:595-600 | no row is of a block above the highest safe block that was observed |
| `ScanRound.ScanOnce` | chains/evm/scanner.go:242-345 | one call on the stored tables does and reports what `Round` says, whatever the RPC client, the pool and the database answer |
| `Rounds.UnfailingIff` | chains/evm/scanner.go:242-345 | a call with a safe height does not fail if and only if the cursor can be read and there is nothing to do, or every planned chunk passes, the scanner has its names and the write is confirmed |
| `Rounds.ProgressIsRise` | chains/evm/scanner.go:303-344 | it reports progress if and only if the database confirms a write that raises the stored next block |
| `Rounds.RunScanner` | chains/evm/scanner.go:186-222 | the loop around `scanOnce`, without its waits |
| `Rounds.RoundsAreRun` | chains/evm/scanner.go:242-345 | any sequence of calls with any failures is a run of the step system whose cursor is the row of the table |
| `Rounds.TablesLoseNothing` | chains/evm/scanner.go:242-345 | after any calls every configured log below the stored next block is settled in the tables, and the events below it are those of the sequential scan |
| `Rounds.RoundsKeepOtherKeys` | chains/evm/scanner.go:308-328 | no call touches the row of another key |
| `Rounds.TablesCatchUp` | chains/evm/scanner.go:242-345 | with a fixed height and no failures the stored next block reaches safe + 1 after exactly the rounded-up quotient of calls |
| `ScanRound.LoneScannerCatchesUp` | chains/evm/scanner.go:242-345 | a lone scanner without failures reaches safe + 1 after exactly the rounded-up quotient of rounds |
| `ScanRound.LoneRunExists` | chains/evm/scanner.go:242-345 | such a run of every length starts from every stored cursor |
| `Backoff.RetryDelay` | chains/evm/rpc_client.go:256-270 | the doubling loop with its int64 wrap |
| `Backoff.RpcDelayExactIff` | chains/evm/rpc_client.go:256-270 | the loop is min(base * 2^attempt, max) for every attempt if and only if some doubling reaches max inside int64 |
| `Backoff.RpcDelayWraps` | chains/evm/rpc_client.go:256-270 | an example: a base of 2^62 ns whose second delay is -2^63 |
| `Backoff.RpcDelayCapped` | chains/evm/rpc_client.go:256-270 | positive delays below 2^62 ns meet that condition |
| `Backoff.OutboxMatchesRpcIff` | database/store_notification_outbox.go:231-247 | the shift form equals the doubling loop at n - 1 for 1 <= n <= 11 if and only if base <= max |
| `Backoff.OutboxDelayPositiveIff` | database/store_notification_outbox.go:231-247 | every delay is positive if and only if base * 1024 is below 2^63 |
| `Backoff.OverflowIsNegative` | database/store_notification_outbox.go:231-247 | otherwise one of the second to eleventh delays is negative |
| `Backoff.OutboxDelayMonotoneIff` | database/store_notification_outbox.go:231-247 | for all positive int64 base and max the delays are non-decreasing if and only if base <= max and base * 1024 is below 2^63 |
| `Backoff.OutboxDelayWraps` | database/store_notification_outbox.go:231-247 | an example: a base for which the fifth delay is zero |
| `Backoff.Client.Do` | chains/evm/rpc_client.go:215-254 | the retry loop with limiter, shared pick counter and context makes the specified calls and leaves the counter as specified |
| `Backoff.AttemptsLaw` | chains/evm/rpc_client.go:215-254 | call k is attempt k; every call but the last failed and was retried; the loop ends at the first success, at a refusal, at the end of the context or after the last attempt |
| `Backoff.CounterCounts` | chains/evm/rpc_client.go:301-304 | the shared counter moves on by the call's own picks and those that others made in between |
| `Backoff.RetriesWalkRound` | chains/evm/rpc_client.go:221-254 | below 2^63 picks a lone caller's retries go round the endpoints |
| `Backoff.LoneCallerCounts` | chains/evm/rpc_client.go:301-304 | a lone caller moves the counter by one per call to an endpoint |
| `Backoff.PickInRangeIff` | chains/evm/rpc_client.go:301-304 | the index is valid unless the counter reads negative and is no multiple of the endpoint count |
| `Backoff.PickIndexTurnsNegative` | chains/evm/rpc_client.go:301-304 | an example: after 2^63 picks of three endpoints the index is -2 |
| `Backoff.PicksWalkRound` | chains/evm/rpc_client.go:301-304 | below 2^63 picks the endpoints are used in turn |
| `Outbox.NormalizeChannelsLoop` | database/store_notification_outbox.go:249-272 | the loop with its seen-set yields the normalized list |
| `Outbox.NormalizeChannelsLaw` | database/store_notification_outbox.go:249-272 | exactly the trimmed non-blank channels, once each |
| `Outbox.Store.ClaimDue` | database/store_notification_outbox.go:39-127 | the first rows in order among the claimable ones get the lock and are returned as stored; no other row changes; a blank worker is refused |
| `Outbox.SettingsStay` | database/store_notification_outbox.go:39-60 | settings that are at least one stay; otherwise 100 rows, thirty seconds, ten tries |
| `Outbox.ClaimMeans` | database/store_notification_outbox.go:95-118 | a claim sets status, owner and lock time of the picked rows and touches nothing else |
| `Outbox.PickFirst` | database/store_notification_outbox.go:82-88 | ordered by due time and ID, cut at the limit |
| `Outbox.PicksUnique` | database/store_notification_outbox.go:82-88 | the order leaves no choice |
| `Outbox.Store.MarkSent` | database/store_notification_outbox.go:135-165 | the fenced update to sent, or an error for a zero ID |
| `Outbox.SentMeans` | database/store_notification_outbox.go:135-165 | a sent mark that fits sets status and time, clears error and lock and keeps the rest; one that does not fit changes nothing |
| `Outbox.Store.MarkFailed` | database/store_notification_outbox.go:167-229 | the fenced update to failed or dead, computed from the snapshot |
| `Outbox.FailedMeans` | database/store_notification_outbox.go:167-229 | a failure mark that fits counts one more than the snapshot, kills the row at the maximum or makes it due after the longer of backoff and demand, keeps the beginning of the error, and touches nothing else |
| `Dispatch.LockIsThreeTimeoutsIff` | cmd/app/run_notification_outbox.go:138-165 | the lock lasts three send timeouts if and only if three timeouts fit an int64 |
| `Dispatch.AppSettings` | cmd/app/run_notification_outbox.go:138-165 | the dispatcher's batch size, timeout, lock, poll interval and delays in terms of the application's settings |
| `Dispatch.LockCanBeTooShort` | cmd/app/run_notification_outbox.go:138-165 | an example: a request timeout of 2^62 ns gets a lock of thirty seconds |
| `Dispatch.PickedHaveSenders` | notifications/dispatcher.go:139-144 | claimed rows are due, distinct and on a channel that has a sender |
| `Dispatch.StepKeepsInv` | notifications/dispatcher.go:121-223 | every step keeps rows, leases and the workers' memories consistent |
| `DispatchLaws.RetryAccounting` | database/store_notification_outbox.go:184-223 | retry_count is the number of effective failure marks, never above the maximum, and dead means exactly at the maximum |
| `DispatchLaws.SnapshotCountIsStored` | notifications/dispatcher.go:164-176 | while a remembered row is locked by its worker, the remembered retry count is the stored one |
| `DispatchLaws.ProcessingIffLocked` | database/store_notification_outbox.go:95-118 | processing if and only if there is an owner, and if and only if there is a lock time |
| `DispatchLaws.TerminalRowsStay` | database/store_notification_outbox.go:71-118 | sent and dead rows never change again |
| `DispatchLaws.MarkIsFenced` | database/store_notification_outbox.go:146-153 | a mark changes its row if and only if the worker still owns it; a late mark changes no row |
| `DispatchLaws.SenderIsAlwaysKnown` | notifications/dispatcher.go:181-188 | the branch for a missing sender is never taken |
| `DispatchLaws.LeasesAreExclusive` | database/store_notification_outbox.go:71-118 | over a whole run no instant lies in two unexpired, unreleased leases of one row |
| `DispatchLaws.LeaseInForceIsStored` | database/store_notification_outbox.go:95-118 | a lease in force is the stored lock |
| `DispatchLaws.SentWasDelivered` | notifications/dispatcher.go:193-212 | a sent row had a successful send |
| `DispatchLaws.FailureSetsDue` | database/store_notification_outbox.go:191-223 | an effective failure mark raises the count by one and makes the row dead, or due after the longer of backoff and retry-after plus a second |
| `DispatchLaws.NoEarlyRetry` | database/store_notification_outbox.go:71-71 | no later claim takes the row before that time |
| `DispatchSends.TimelySendsNeverOverlap` | notifications/dispatcher.go:190-193 | sends of a row that end within one timeout never overlap when the lock covers the latest start and one timeout more |
| `DispatchSends.NeverOverlapsIff` | cmd/app/run_notification_outbox.go:150-165 | for every bound on the start after the claim, no run has overlapping sends of a row if and only if bound and timeout fit the lock: two timeouts for a lock of three |
| `DispatchSends.LateSendsOverlap` | notifications/dispatcher.go:164-176 | one nanosecond past the bound, a given run has two workers sending one row, each within its timeout |
| `DispatchSends.JustClaimedIsReachable` | notifications/dispatcher.go:134-144 | that run starts from an empty table |
| `Dispatcher.Loop.SendOne` | notifications/dispatcher.go:180-223 | the table after one send and its mark, and when it reports success |
| `Dispatcher.Loop.RunRound` | notifications/dispatcher.go:135-176 | the table after one claim and the sends of all its rows in turn |
| `Dispatcher.MarkIsSendOne` | notifications/dispatcher.go:180-223 | the step system's mark does to the table what `sendOne` does |
| `Dispatcher.RoundSettlesBatch` | notifications/dispatcher.go:164-176 | without interference a round settles each claimed row by its own answer and touches no other |
| `Dispatcher.ClaimedIsBatch` | notifications/dispatcher.go:139-144 | what a round claims is such a batch |
| `Fairness.PassedOverByFullBatch` | database/store_notification_outbox.go:82-88 | a claim that passes a due row over takes a full batch of rows ahead of it |
| `Fairness.WaitIsASecondAtLeast` | notifications/dispatcher.go:193-200 | for every base and maximum, a failed send waits at least the reported wait and a second, when that wait is neither negative nor within a second of the int64 limit |
| `Fairness.WaitIsPositiveIff` | notifications/dispatcher.go:193-200 | the wait after every failure is positive if and only if ten doublings of the base fit an int64, or the reported wait and a second do and are positive |
| `Fairness.StepKeepsPlace` | database/store_notification_outbox.go:191-201 | when every failure waits, failed rows and new rows go behind a due row, and nothing else moves ahead |
| `Fairness.BoundedOvertaking` | database/store_notification_outbox.go:64-88 | when every failure waits, a due row with k claimable rows ahead is claimed within k / limit + 1 claims |
| `Overtaking.OvertakingIsBoundedIff` | database/store_notification_outbox.go:64-88 | over all runs from an empty table, for every configuration and every set of waits that senders may report, that bound holds if and only if each of these waits makes every failure wait |
| `Overtaking.FailureOvertakes` | database/store_notification_outbox.go:191-215 | a failure without a wait puts its row back in front, and the next full batch passes over a row that it should have taken |
| `Overtaking.CrowdIsReachable` | notifications/dispatcher.go:121-223 | such a failing row, with any number of due rows behind it, is reached from an empty table |
| `RedisLock.TokensAreDistinctIff` | redis/lock.go:208-214 | tokens are equal if and only if owner and random bytes are |
| `RedisLock.FullKeyInjective` | redis/lock.go:108-113 | under one prefix different keys stay different |
| `RedisLock.LockManager.TryLock` | redis/lock.go:75-106 | a lock if and only if the key is free, and then the server holds the new token for the whole milliseconds of the ttl, one at least; otherwise nothing changes |
| `RedisLock.LockManager.Lock` | redis/lock.go:115-150 | it takes the lock at the first try that finds the key free, and fails only for an empty key or when no try did |
| `RedisLock.Lock.Unlock` | redis/lock.go:152-171 | the key is freed if and only if the server holds the token, else not-owned and nothing changes |
| `RedisLock.Lock.Renew` | redis/lock.go:173-206 | the expiry moves if and only if the server holds the token; a ttl below a millisecond is refused; the handle's TTL changes only on success |
| `RedisLock.OwnersAreExclusive` | redis/lock.go:24-37 | over every run no instant lies between acquisition and end of two handles of one key |
| `RedisLock.StaleHandleIsHarmless` | redis/lock.go:24-37 | unlock and renew of an overtaken, unlocked or expired handle are not owned and change nothing |
| `RedisLock.OwnerIsStored` | redis/lock.go:152-171 | until its expiry an owner is stored and its unlock frees the key |

## Left out

- Database, Redis, RPC, Elasticsearch and Telegram clients and SQL generation: tables, maps and given answers take their place.
- Exactly-once delivery: the code sends at least once, since a successful send can be followed by a lost mark.
- Termination of a row under repeated crashes: a crash or an expired lease does not raise the retry count.
- Poll intervals, sleeps and the loop of `Dispatcher.Run`: time passes between steps by any amount.
- The retry interval and timeout of `LockManager.Lock`: the number of tries before the context ends is an input.
- The timing of the RPC rate limiter and the semaphore channel (`acquire`, `release`): that they give up is an input.
- Copies made by `cloneTopicMatrix` and `cloneAddresses`: the model's values cannot be aliased.
- Parsing of addresses and topics from configuration text, and the hex parser of go-ethereum.
- JSON encoding: payloads are opaque, with the verdict of `json.Valid` as part of the value.
- Batch sizes of `CreateInBatches`: all batches of a call belong to one transaction.
- ObservedAt, CreatedAt and UpdatedAt, as columns and in message bodies, log lines, and the wording of error messages.
- bigint columns: block numbers above 2^63 that PostgreSQL would refuse are stored as they are.
- Counters that would wrap after 2^63 steps (`retry_count`, and `sequence` after that many failed calls).
- `loadTxSenders`: its contents; whether it fails is an input.
- `truncateString`: cuts bytes, which the model counts as characters.
- Outbox.Store.ClaimDue: rows that another transaction has locked at that moment are an input.
- Fairness.BoundedOvertaking: assumes that no lock runs out, that inserts are due at once with rising IDs, and that a claim
  skips no locked row; what senders may report is exactly settled by `OvertakingIsBoundedIff`.
- Overtaking.OvertakingIsBoundedIff: the same three assumptions.
- Rounds.RoundsAreRun: covers the calls of one scanner one after the other, with the pool's transactions in any order; several
  scanners at once are runs of `Scan`.
- Refinement.RefinesSequentialScan: covers scanners that share one cursor key; `ForeignSaves` says what holds beside other writers.
- `handler_registry.go`, the decoder features and the remaining application wiring, which would add only simple members.
- `common/graceful`: cancellation and crashes are steps of the environment instead.
