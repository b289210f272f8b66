# ai-store in Dafny

ai-store keeps JSON documents as event streams. Every event is a JSON Patch; a
document's state is the replay of its stream from `Null`. Around the log stand a
snapshot cache, schema gates that judge a write before it is stored, projection
sinks fed live and by catch-up, compaction of a log prefix into one snapshot
event, read-time upcasting, and a SQLite read model with a filter language that
is compiled to SQL. This project models that engine and proves what its parts
promise each other.

Two forms are used. Code that works by updating fields is a class whose methods
are proved against specification functions: one whole call at a time. What
happens *between* the steps of concurrent calls is a state machine, one step per
lock acquisition, backend call or sink call, and its safety theorems hold for every
list of actions: every interleaving, failure and restart. That the machines do
something is said beside them: from every reachable state, a task left alone ends
with its work done.

| file | contents |
|---|---|
| `Json.dfy` | documents, patches (RFC 6902 `add`, `replace`, `remove` over RFC 6901 object pointers, all-or-nothing), `Diff` |
| `Events.dfy` | events, replay, what a log holds of a history, reading a compacted log |
| `Upcasting.dfy`, `Reads.dfy` | the upcaster chain; cache-nearest replay against plain replay |
| `Backends.dfy` | event rows and snapshot cache, the paged `read_by_meta`, pruning |
| `Dispatcher.dfy` | sink registry, checkpoints, live dispatch |
| `Store.dfy` | reads, the write critical section, revert, delete, compaction |
| `Lifecycle.dfy` | catch-up, rebuild, attach |
| `SharedLog.dfy` | state machine: writers, readers, reverts, compactions, evictions and crashes on one stream |
| `Progress.dfy` | what a task of that machine gets done, one step at a time and left alone |
| `StaleRead.dfy` | one concrete run of it: a read overtaken by a compaction |
| `Handover.dfy`, `HandoverEnds.dfy` | the same machine with a catch-up of a sink among its steps: the states handed over, and that all are |
| `Delivery.dfy` | state machine: live dispatch, catch-up, attach, checkpoints in memory and on disk, failures and crashes |
| `Arrival.dfy` | what an append, an attach or a rebuild left alone in that machine gets delivered |
| `Sql.dfy`, `Query.dfy`, `Assembly.dfy` | SQL tokens, a precedence parser, three-valued evaluation; filters, WHERE and keyset predicate as text with parameters |
| `Builder.dfy` | the imperative compiler that emits that text into a growing parameter list |
| `Pages.dfy` | keyset pagination |
| `ReadModel.dfy` | the guarded upsert, and the table against the store |
| `Combined.dfy` | the combined file sink over appends, catch-ups and restarts |

A history is every event ever committed to a stream; a log is what the backend
holds of it (`Events.Holds`): the history itself, or a snapshot at the boundary
followed by the rest. `Truth(history, n)` is the replay of the first `n` events.
Behind an upcaster chain all of this is said of what readers find
(`Upcasting.HoldsSeen`): the upcasted log holds the upcasted history.

Conditions carried by the statements, because the code does not give more:

- With no gate registered, a committed patch may not apply, and then that stream
  has no state from there on. Statements about gates say so (`c.gated`).
- A plain append is safe through one Store only; several Stores on one backend
  must write through `append_if_head` (`SharedLog.Allowed`).
- Compactions do not overlap each other (the `compactor` slot in `SharedLog`).
- An upcaster chain keeps `seq` (`Upcasting.KeepsSeq`): one that changes it breaks
  the `seq <= at` cut in `crates/ai-store-core/src/facade/read.rs:79`.
- A compaction keeps a store right exactly if the chain leaves the snapshot event as
  it is (`Store.Store.CompactStream`, `Reads.CompactedReadsRight`).
- `Lifecycle` counts a call during which no append lands; `Delivery` has no such
  condition.

What the code does differently from its own documentation, or from what one
might expect, and is modelled as the code has it:

- A failing `state_at` at the first row of a stream's catch-up abandons the whole
  call (`crates/ai-store-core/src/facade/lifecycle.rs:292`), though failures are
  documented as kept to their stream. It happens if and only if a leg of the call
  begins at a checkpoint whose next coordinate has no state
  (`Lifecycle.GivenUpExactly`, `Lifecycle.LostIs`); from zero, if and only if the
  first event of some accepted, uncompacted stream does not apply
  (`Lifecycle.GivenUpFromZero`). `Lifecycle.BadFirstEvent` is such a call.
- `catch_up` marks a sink id as rebuilt even when no such sink is registered
  (`crates/ai-store-core/src/facade/lifecycle.rs:164-178`); a sink attached under
  that id later is then not escalated (`Arrival.UnknownIsMarked`).
- `append_if_head` with a stale expectation reports `SeqCompacted` below the
  boundary, and a gate's refusal before the conflict, where one uniform
  `HeadConflict` is documented (`Store.Store.Assumed`, `Store.Store.WriteEventLocked`).
- A read overtaken by a compaction of its own coordinate returns its stale base
  without an error, and is right if and only if that is the state at its coordinate
  (`SharedLog.OvertakenReadIsStale`); `StaleRead.StaleReadHappens` is a run of it.
- The snapshot event carries no schema version, so a chain that goes by the version
  upcasts the compacted state a second time (`Reads.SnapshotUpcastTwice`). Reads past
  the compaction are right if and only if the snapshot, as the chain leaves it, still
  sets the state it was made from (`Reads.CompactedReadsRight`).
- A stream compacted at a tombstoned head is listed as live again
  (`Store.Store.ListedLive`). A first event of kind `compacted` makes `state_at(0)`
  answer `SeqCompacted`.
- An empty `In` compiles to `0` before its field is checked.
- A bare `Or` under a cursor is misread; the rows it gets wrong are given exactly
  (`Assembly.BareOrUnderCursor`), and `Assembly.BareOrMisreads` has one.
- `ORDER BY` has no stream tie-breaker, so a page may lose rows
  (`Pages.TieMayLoseARow`): exactly those with a null key, or tied with its last row
  and not after it by stream (`Pages.LostAfterPage`).
- A hash collision in the combined file sink skips a write and leaves the file
  stale, where its comment speaks of one redundant write
  (`Combined.CommitWrites`).
- A checkpoint reset that is not stored can leave a stream out of the file with no
  failure reported (`Combined.LostReset`): exactly if the stream was not held and its
  old checkpoint, at its head, is read back (`Combined.CatchUpIsRight`,
  `Combined.SkippedMeans`).

## Model

| member | source | states |
|---|---|---|
| `Json.Diff` | crates/ai-store-core/src/facade/write.rs:418 | applying the diff of two documents to the first gives the second, for any nesting |
| `Json.OpWorks` | crates/ai-store-core/src/state.rs:24-31 | `add` works where an object takes the member or at the root, `replace` only on a member that is there, `remove` only on one and not on the root |
| `Json.OpDoes` | crates/ai-store-core/src/state.rs:24-31 | afterwards the member named has the value, or is gone, and every member apart from it is as it was |
| `Events.ReplayFrom` | crates/ai-store-core/src/state.rs:24-31 | the loop is replay: every event's patch applied in order to the state before it, or an error naming the first event whose patch fails |
| `Events.ReplaySnapshot` | crates/ai-store-sqlite/src/maintenance.rs:153-155 | a root-add snapshot replays to its own state from any base whatsoever |
| `Events.ReadTail` | crates/ai-store-core/src/facade/read.rs:60-80 | replaying the rows of a possibly compacted log from a true state below `at` gives the true state at `at`, even from a base under the boundary |
| `Events.ReadTailBelow` | crates/ai-store-core/src/facade/read.rs:73-80 | for a coordinate below the boundary the same read applies no event and returns its base |
| `Events.RowsAfter` | crates/ai-store-sqlite/src/maintenance.rs:178-199 | deleting the prefix and inserting the snapshot leaves a log that still holds the whole history, with the new boundary |
| `Events.OnlySnapshotsBound` | crates/ai-store-sqlite/src/backend.rs:474-496 | a log that begins with a revert or a tombstone has no boundary |
| `Events.AnchorTime` | crates/ai-store-sqlite/src/maintenance.rs:139-150 | the row a compaction takes its timestamp from is there, also on a compacted log, and carries the time the event at that coordinate was given |
| `Upcasting.UpcastOne` | crates/ai-store-core/src/upcasting_backend.rs:61-66 | every element of the chain, in registration order, takes the output of the one before it, and the last output is what readers get |
| `Upcasting.UpcastInOrder` | crates/ai-store-core/src/upcasting_backend.rs:61-66 | whatever steps through the chain in registration order ends there |
| `Upcasting.UpcastTwo` | crates/ai-store-core/src/upcasting_backend.rs:61-66 | of two steps the one registered first is applied first |
| `Upcasting.UpcastRead` | crates/ai-store-core/src/upcasting_backend.rs:98-106 | upcasting what a read returns equals reading a log upcasted beforehand, for every start and limit |
| `Upcasting.SeenAppend` | crates/ai-store-core/src/upcasting_backend.rs:71-106 | an event appended to the stored log leaves readers behind the chain with their history, one upcasted event longer |
| `Upcasting.SeenCompacted` | crates/ai-store-sqlite/src/maintenance.rs:153-199 | after a compaction readers behind the chain find their history again if and only if the chain leaves the snapshot as it is |
| `Reads.Nearest` | crates/ai-store-mem/src/cache.rs:41-54 | the greatest cached coordinate at or below `at`, and none only if every entry lies above |
| `Reads.TailUpcasted` | crates/ai-store-core/src/facade/read.rs:60-80 | the upcasted tail of a log, compacted or not, replayed on a true base gives the true state of the upcasted history |
| `Reads.StateAtIsTruth` | crates/ai-store-core/src/facade/read.rs:38-81 | cache transparency: with any right cache entries, compacted and upcasted, `state_at` answers with plain replay of the complete upcasted history, failing exactly where it fails, and with the three range errors |
| `Reads.CompactedReadsRight` | crates/ai-store-sqlite/src/maintenance.rs:133-199 | the snapshot is taken through the chain and read back through it: every read from the boundary on is right, for every cache the compaction leaves, if and only if the snapshot as read still sets its state |
| `Reads.SnapshotUpcastTwice` | crates/ai-store-sqlite/src/maintenance.rs:153-156 | the input: with a chain that goes by the schema version, `state_at(1)` is 10 before a compaction to 1 and 100 after it |
| `Reads.RetiredChain` | crates/ai-store-core/src/facade.rs:326-331 | a compaction retires a chain: where it rewrites nothing past the boundary, a store without it answers every coordinate from there on as the store with it did |
| `Backends.EventBackend.Streams` | crates/ai-store-sqlite/src/backend.rs:460-472 | every stream with rows, once |
| `Backends.EventBackend.Append` | crates/ai-store-mem/src/event.rs:47-67 | one row at the next gap-free coordinate counted over the whole history, or nothing changed; the log still holds the history |
| `Backends.EventBackend.AppendIfHead` | crates/ai-store-sqlite/src/backend.rs:254-293 | appends exactly if the head is the expected one, else a conflict naming the observed head and nothing changed |
| `Backends.EventBackend.ReplacePrefix` | crates/ai-store-sqlite/src/maintenance.rs:178-199 | the row half of the transaction: rows up to the coordinate out, snapshot in; history and head stay and the boundary is set |
| `Backends.EventBackend.ReadByMeta` | crates/ai-store-core/src/backend.rs:123-154 | the paging loop terminates and returns the first `limit` matches from `from`, for every page boundary |
| `Backends.FirstMatchesAre` | crates/ai-store-core/src/backend.rs:112-117 | those are the rows whose metadata has the field with the value, none before `from`, none left out ahead of one that is in, and fewer than `limit` only if no more exist |
| `Backends.CacheBackend.Put` | crates/ai-store-mem/src/cache.rs:32-39 | one entry replaced or added, or nothing on failure |
| `Backends.CacheBackend.Prune` | crates/ai-store-mem/src/cache.rs:56-70 | exactly the `keep_latest` greatest coordinates are left, with their states, and no other stream is touched |
| `Backends.CacheBackend.DropBelow` | crates/ai-store-sqlite/src/maintenance.rs:207-210 | the cache half of the compaction transaction: exactly the rows below the boundary go |
| `Dispatcher.SinkDispatcher.Attach` | crates/ai-store-core/src/dispatcher.rs:102-109 | refused for a registered id with nothing changed, else registered last; ids stay distinct |
| `Dispatcher.SinkDispatcher.FindSink` | crates/ai-store-core/src/dispatcher.rs:119-126 | the sink with that id, and none only if no sink has it |
| `Dispatcher.SinkDispatcher.CheckpointGet` | crates/ai-store-core/src/dispatcher.rs:137-158 | memory, else the stored value where the backend reads it, else zero, a failing read counting as zero; remembered afterwards |
| `Dispatcher.SinkDispatcher.CheckpointAdvance` | crates/ai-store-core/src/dispatcher.rs:167-182 | works exactly if there is no backend or it stores the value; memory and stored value then both follow, and otherwise neither moves |
| `Dispatcher.SinkDispatcher.CheckpointReset` | crates/ai-store-core/src/dispatcher.rs:192-200 | memory forgets the key; the stored value becomes zero exactly if the backend stores it |
| `Dispatcher.SinkDispatcher.Offer` | crates/ai-store-core/src/dispatcher.rs:270-294 | one call unless the checkpoint, as read, covers the event; memory and stored value move exactly if the call succeeded, the event is the next one and it can be stored; a refused call is reported |
| `Dispatcher.SinkDispatcher.DispatchCommit` | crates/ai-store-core/src/dispatcher.rs:254-296 | every accepting sink is called with the event or already covers it, in registration order and at most once each, nobody else is called; each checkpoint, in memory and stored, stays as read unless its call succeeded on the next event; exactly the refused calls are reported, in order; no other key moves |
| `Store.Store.ReadEvents` | crates/ai-store-core/src/facade/read.rs:91-98 | the backend's rows, upcasted one by one |
| `Store.Store.ReadByMeta` | crates/ai-store-core/src/upcasting_backend.rs:108-128 | the matches found on the stored events, then upcasted |
| `Store.Store.StateAt` | crates/ai-store-core/src/facade/read.rs:38-81 | the imperative read returns the reference answer whatever the cache holds: replay of the upcasted history, `UnknownStream`, `SeqOutOfRange` past the head, `SeqCompacted` below the boundary |
| `Store.Store.State` | crates/ai-store-core/src/facade/read.rs:20-26 | replay of everything, `Null` for an unknown stream |
| `Store.Store.HeadIsLive` | crates/ai-store-core/src/facade/read.rs:167-175 | reading one row at the head decides whether the last event of the upcasted history is a tombstone, except after compaction at the head |
| `Store.Store.StreamsLive` | crates/ai-store-core/src/facade/read.rs:164-178 | exactly the streams with events whose last one, as read, is not a tombstone, each once |
| `Store.Store.ReadAssumed` | crates/ai-store-core/src/facade/write.rs:200-226 | the state a write takes as current, with the remapped errors of `append_if_head` |
| `Store.Store.AssumedIsCurrent` | crates/ai-store-core/src/facade/write.rs:200-226 | a conditional write that will find its head has read the true head state |
| `Store.Store.AheadOfHead` | crates/ai-store-core/src/facade/write.rs:200-226 | a conditional write ahead of the head, or on an unknown stream, is told where the head is |
| `Store.Store.Admit` | crates/ai-store-core/src/facade/write.rs:232-249 | with no gate nobody looks; else `PatchRejected` exactly if the patch does not apply, and accepted exactly if every gate accepts the states before and after it, in that order |
| `Store.Store.AppendRow` | crates/ai-store-core/src/facade/write.rs:260-273 | in all three modes the stream grows by exactly one event or nothing changes, and every cached state stays right |
| `Store.Store.NextState` | crates/ai-store-core/src/facade/write.rs:286-321 | the state handed downstream is the one `state_at` gives at the new coordinate, upcasted or not |
| `Store.Store.CacheNext` | crates/ai-store-core/src/facade/write.rs:276-335 | an entry on the stride only, then automatic pruning; every entry stays right |
| `Store.Store.AfterCommit` | crates/ai-store-core/src/facade/write.rs:276-355 | cache and sinks follow the event with its true state, or the call fails for a named reason |
| `Store.Store.AppendAndFollow` | crates/ai-store-core/src/facade/write.rs:260-358 | from the backend append to the end of the critical section |
| `Store.Store.WriteEventLocked` | crates/ai-store-core/src/facade/write.rs:192-358 | on the true before-state: `PatchRejected` if and only if there are gates and the patch does not apply, `SchemaRejected` if and only if some gate rejects the states before and after, a conflict ahead of the head, and then nothing changes; otherwise the stream grows by exactly this event if the backend takes it, and on success cache, sinks, checkpoints and failure reports have followed with the true state after it |
| `Store.Store.RevertWithMeta` | crates/ai-store-core/src/facade/write.rs:408-434 | one event longer, `revert_to` wins in the metadata, its stored patch takes the old head state to the old `state_at(to)`; the new head state is where the patch as read takes the old one, so the target where nothing is upcasted, and the stream is listed live again; every earlier reachable state is unchanged; errors change nothing; it succeeds in growing wherever the gates accept such a revert |
| `Store.Store.AppendDiff` | crates/ai-store-core/src/facade/write.rs:418-433 | the diff stored is one from the head state to the target, and the new head state is where it takes the old one as read |
| `Store.GrowthKeeps` | crates/ai-store-core/src/facade/write.rs:360-373 | an append leaves every coordinate's answer as it was |
| `Store.RevertedState` | crates/ai-store-core/src/facade/write.rs:408-434 | appended, a patch from the head state to a target makes the target the head state if and only if it still does so as read through the chain |
| `Store.Store.Delete` | crates/ai-store-core/src/facade/write.rs:456-463 | a tombstone event with an empty patch; head state and listing are those of the tombstone as read, so with no chain the state stays and the stream is no longer listed live |
| `Store.Store.PruneCache` | crates/ai-store-core/src/facade/write.rs:480-486 | exactly the latest entries stay and every answer is still right |
| `Store.Store.PlanCompaction` | crates/ai-store-sqlite/src/maintenance.rs:116-150 | the checks and reads before the transaction: head, true snapshot state, the anchor's own timestamp, all as read through the chain |
| `Store.Store.Maintain` | crates/ai-store-sqlite/src/maintenance.rs:162-233 | the transaction: rows and cache change together, and every later answer stays right if and only if the chain leaves the snapshot as it is |
| `Store.Store.CompactStream` | crates/ai-store-sqlite/src/maintenance.rs:110-240 | succeeds exactly on a reachable non-zero coordinate; history and head unchanged, every coordinate from the boundary on has the answer it had, every one below is `SeqCompacted`, the boundary never goes down, other streams untouched; the store stays right, upcasters or not, if and only if the chain leaves the snapshot as it is |
| `Store.SameAbove` | crates/ai-store-sqlite/src/maintenance.rs:110-240 | two logs of one history answer alike from the higher boundary on |
| `Lifecycle.OwedAreRows` | crates/ai-store-core/src/facade/lifecycle.rs:242-251 | what is past a checkpoint is consecutive, ends at the head, and after its first row is the history's own events, also on a compacted log |
| `Lifecycle.BatchIs` | crates/ai-store-core/src/facade/lifecycle.rs:242-251 | each 32-event read is the next slice of what is owed |
| `Lifecycle.DeliverOne` | crates/ai-store-core/src/facade/lifecycle.rs:251-333 | the state handed over is the true one, carried or bootstrapped; a patch failure is kept to the stream only with a running state, a failing bootstrap aborts; the checkpoint moves only after a call that succeeded; the failing cases change nothing |
| `Lifecycle.DeliverRow` | crates/ai-store-core/src/facade/lifecycle.rs:251-333 | one row keeps the running state true, or halts the stream with one failure and every later row skipped; it aborts if and only if it is the first and has no state |
| `Lifecycle.FailureAccounted` | crates/ai-store-core/src/facade/lifecycle.rs:269-276 | `head - seq` never underflows, and applied + failed + skipped is what was owed |
| `Lifecycle.DeliverBatch` | crates/ai-store-core/src/facade/lifecycle.rs:251-335 | a batch delivered in order leaves the drive going after its last row, halted at the row that failed, or given up, which happens if and only if it starts the drive and its first row has no state |
| `Lifecycle.DriveForward` | crates/ai-store-core/src/facade/lifecycle.rs:242-336 | the batches of 32 end with the stream done: all owed rows delivered and the checkpoint at the head, or halted and accounted for, or given up at the first row |
| `Lifecycle.CatchUpStream` | crates/ai-store-core/src/facade/lifecycle.rs:221-337 | the calls are the first owed rows, each once, in order, each with `state_at` of its coordinate; with no failure all of them and the checkpoint at the head, with one the checkpoint at the last row delivered and every row accounted for; it is an error if and only if the first owed row has no state |
| `Lifecycle.CatchUpInner` | crates/ai-store-core/src/facade/lifecycle.rs:202-340 | every accepted stream driven, failures kept to their stream, applied + failed + skipped the total owed, failed the number of failure entries, each entry's cause real, every call a true state; given up if and only if a leg it began has no state at its first row |
| `Lifecycle.GivenUpExactly` | crates/ai-store-core/src/facade/lifecycle.rs:202-340 | a call is given up if and only if one of the legs it began is lost |
| `Lifecycle.LostIs` | crates/ai-store-core/src/facade/lifecycle.rs:242-292 | a leg is lost if and only if its checkpoint is below the head, not below the boundary, and the next coordinate has no state |
| `Lifecycle.GivenUpFromZero` | crates/ai-store-core/src/facade/lifecycle.rs:202-340 | from checkpoints at zero a call is given up if and only if the first event of some accepted, uncompacted stream does not apply |
| `Lifecycle.GivenUpLeavesRest` | crates/ai-store-core/src/facade/lifecycle.rs:202-340 | in a call that is given up, the streams before the lost one were dealt with, and those after it got no call and kept their checkpoints |
| `Lifecycle.BadFirstEvent` | crates/ai-store-core/src/facade/lifecycle.rs:76-81 | the input: an ungated store, a stream whose first event does not apply, and a healthy one; attaching a sink fails, and the healthy stream, listed second, gets no call |
| `Lifecycle.CatchUp` | crates/ai-store-core/src/facade/lifecycle.rs:164-178 | the first call for a sink that starts empty is a rebuild, later ones are not; a success marks the id |
| `Lifecycle.Rebuild` | crates/ai-store-core/src/facade/lifecycle.rs:183-190 | catch-up from reset checkpoints, which also counts as the first, with what each reset came to |
| `Lifecycle.AttachSink` | crates/ai-store-core/src/facade/lifecycle.rs:76-81 | refused ids change nothing; otherwise registered and caught up, and registered even if the catch-up is given up |
| `Lifecycle.HealthyCatchUp` | crates/ai-store-core/src/facade/lifecycle.rs:202-340 | when no call is refused, the backend stores checkpoints and every history replays, everything owed is applied, nothing fails or is skipped, every checkpoint is at the head |
| `Lifecycle.ResetStartsAtZero` | crates/ai-store-core/src/dispatcher.rs:192-200 | after a reset a drive begins at zero, or at the old stored checkpoint exactly if the zero was not stored and the old row is there and read |
| `Lifecycle.DriveFromZeroIsWhole` | crates/ai-store-core/src/facade/lifecycle.rs:180-190 | every row of a stream driven from zero without a failure was handed over successfully with its true state, whatever the checkpoints said before |
| `Lifecycle.RebuildIsWhole` | crates/ai-store-core/src/facade/lifecycle.rs:180-190 | a rebuild whose resets were stored and that reports no failure on a stream handed over every row of it with its true state, whatever memory and backend held before |
| `SharedLog.GatesSawWhatWasCommitted` | crates/ai-store-core/src/facade/write.rs:192-274 | in every interleaving of every kind of writer, event n+1 was accepted by the gates on exactly replay(1..n) and replay(1..n+1), and the log is contiguous |
| `SharedLog.PostconditionAlwaysHolds` | crates/ai-store-core/src/facade/write.rs:232-249 | so a postcondition demanded by a gate holds at every coordinate and every prefix replays |
| `Progress.WriteStep` | crates/ai-store-core/src/facade/write.rs:232-274 | a write with its answer, in any reachable state: `PatchRejected`, `SchemaRejected` and `HeadConflict` each exactly under its condition, and otherwise the history is exactly one event longer |
| `Progress.WriteStepFails` | crates/ai-store-core/src/facade/write.rs:260-274 | a failing append changes nothing; one whose answer is lost has appended and is reported as failed |
| `Progress.WriteEnds` | crates/ai-store-core/src/facade/write.rs:192-358 | from every reachable state a write left alone, its lock free and its head as expected, is refused by the gates on the true head state or ends with the stream one event longer, the state cached on the stride and the lock free |
| `Progress.WriteAheadEnds` | crates/ai-store-core/src/facade/write.rs:200-226 | a conditional write ahead of the head, left alone, ends with `HeadConflict` naming the head |
| `Progress.GatedRunCommits` | crates/ai-store-core/src/facade/write.rs:232-274 | a gated store whose gates accept everything has a run that commits |
| `Progress.LastSteps` | crates/ai-store-core/src/facade/write.rs:311-335 | the last step of a write or compaction does its work or nothing, and frees what it held; a lost answer is reported as a failure |
| `Progress.CrashFrees` | crates/ai-store-core/src/facade/write.rs:192-198 | a crash keeps log and cache and frees every lock, so the next process may write |
| `SharedLog.FinishedReadIsRight` | crates/ai-store-core/src/facade/read.rs:39-80 | a read whose coordinate is not below the final boundary is right, whatever appends, cache writes, evictions and compactions land between its four backend reads |
| `Progress.ReadStepFails` | crates/ai-store-core/src/facade/read.rs:39-80 | a failing read ends its task with nothing held and nothing changed |
| `Progress.GetEnds` | crates/ai-store-core/src/facade/read.rs:38-81 | from every reachable state a read left alone ends with what the history gives at its coordinate, or with that error |
| `SharedLog.OvertakenReadIsStale` | crates/ai-store-core/src/facade/read.rs:51-80 | a read overtaken by a compaction above its coordinate answers with the state of its base, right if and only if that is the state at its coordinate |
| `StaleRead.StaleReadHappens` | crates/ai-store-core/src/facade/read.rs:51-80 | it happens: two appends, a read of 1, a compaction to 2 between its boundary check and its rows; the read answers `Null`, without an error |
| `SharedLog.ReachableStateAt` | crates/ai-store-core/src/facade/read.rs:38-81 | in every reachable state an undisturbed read gives the reference answer |
| `SharedLog.RunGrows` | crates/ai-store-sqlite/src/maintenance.rs:110-240 | over any continuation the history only grows and the boundary never goes down |
| `SharedLog.AnswersNeverChange` | crates/ai-store-sqlite/src/maintenance.rs:110-240 | what a coordinate answers it answers forever, until a compaction above it makes it `SeqCompacted` |
| `Progress.CompactEnds` | crates/ai-store-sqlite/src/maintenance.rs:110-240 | from every reachable state a compaction left alone to a reachable coordinate replaces the prefix by the snapshot of its state, keeps the history and drops the cache below |
| `SharedLog.CacheNeverLies` | crates/ai-store-core/src/facade/write.rs:311-335 | every cached state in every reachable state is the replay to its coordinate |
| `Progress.EvictKeeps` | crates/ai-store-core/src/facade/write.rs:480-486 | pruning leaves exactly the entries kept and the log alone |
| `SharedLog.RevertRestores` | crates/ai-store-core/src/facade/write.rs:408-434 | a revert's event restores its target's state, under concurrent writers, caches and compactions, and also when the target is an earlier head |
| `Progress.RevertEnds` | crates/ai-store-core/src/facade/write.rs:408-434 | from every reachable state a revert left alone whose diff the gates accept has its target's state at the head |
| `Progress.GatedRevertCommits` | crates/ai-store-core/src/facade/write.rs:408-434 | after 1 and 2 a gated store has a run that reverts to 1 |
| `Handover.HandoversAreTrue` | crates/ai-store-core/src/facade/lifecycle.rs:229-336 | every state a catch-up hands over is the replay to its coordinate, with appends, compactions, evictions and crashes between any two of its steps, unless its bootstrap read was overtaken |
| `Handover.AllHandoversAreTrue` | crates/ai-store-core/src/facade/lifecycle.rs:229-336 | in a run without such an overtaking all of them are |
| `HandoverEnds.FeedEnds` | crates/ai-store-core/src/facade/lifecycle.rs:229-336 | from every reachable state a catch-up left alone on a history that replays hands over every coordinate past its checkpoint, each once, in order, with its true state |
| `HandoverEnds.FeedStops` | crates/ai-store-core/src/facade/lifecycle.rs:229-336 | a failing read or a refused call ends the catch-up of the stream with nothing further handed over |
| `Handover.LiveHandoverIsTrue` | crates/ai-store-core/src/facade/write.rs:286-355 | the state a writer holds for its live dispatch is the true one at its coordinate, in every interleaving |
| `Delivery.WatermarkMeansDelivered` | crates/ai-store-core/src/dispatcher.rs:137-200 | a checkpoint held in memory, on disk or by a task under way means each of events 1..w was committed to that sink, in every interleaving with resets, failures and restarts |
| `Delivery.AttachLosesNothing` | crates/ai-store-core/src/facade/lifecycle.rs:37-81 | after an attach every event committed before, during or after was delivered, or its failure reported, or its append is still under way |
| `Delivery.AttachDeliversEverything` | crates/ai-store-core/src/facade/lifecycle.rs:37-81 | with every call succeeding, once attach and appends have returned every event was delivered |
| `Arrival.AppendArrives` | crates/ai-store-core/src/dispatcher.rs:254-296 | from every reachable state an append left alone, with calls that work, has its event at every registered sink that accepts it |
| `Arrival.OneDispatch` | crates/ai-store-core/src/dispatcher.rs:270-294 | a sink whose checkpoint is just before the event gets it, and the checkpoint is stored and then remembered |
| `Arrival.CatchUpArrives` | crates/ai-store-core/src/facade/lifecycle.rs:164-340 | a catch-up or rebuild left alone, with calls that work, returns with no failure, has marked its sink, and the sink has every event of every stream it accepts |
| `Arrival.AttachArrives` | crates/ai-store-core/src/facade/lifecycle.rs:76-81 | so does attaching a sink that is not registered |
| `Arrival.CursorIsCheckpoint` | crates/ai-store-core/src/dispatcher.rs:137-158 | the cursor of a stream's drive is its checkpoint, in memory or else stored |
| `Arrival.ResetIsZero` | crates/ai-store-core/src/dispatcher.rs:192-200 | a rebuild's drive starts from zero, in memory and stored |
| `Arrival.OneEvent` | crates/ai-store-core/src/facade/lifecycle.rs:294-312 | one event of a batch is delivered, its checkpoint stored, and then remembered |
| `Arrival.UnknownIsMarked` | crates/ai-store-core/src/facade/lifecycle.rs:164-178 | a catch-up for an id nobody has registered ends at once and marks it |
| `Arrival.CrashKeepsDisk` | crates/ai-store-core/src/dispatcher.rs:44-66 | a restart keeps logs and stored checkpoints and nothing that was in memory |
| `Sql.ParseExtends` | crates/ai-store-sqlite/src/query.rs:288-315 | a text that parses alone parses alike, renumbered, in any context that does not continue it |
| `Sql.WholeIsGood` | crates/ai-store-sqlite/src/query.rs:298-308 | so a well-formed raw fragment may be spliced in parentheses |
| `Sql.Kleene` | crates/ai-store-sqlite/src/query.rs:257-280 | AND is the lesser, OR the greater and NOT the mirror image in the order false, unknown, true |
| `Query.CompiledFilterMeans` | crates/ai-store-sqlite/src/query.rs:221-282 | the emitted text of a filter of any depth parses completely, uses each parameter, and evaluates in three-valued logic to the filter's own meaning |
| `Query.BuildGood` | crates/ai-store-sqlite/src/query.rs:221-282 | each kind of filter emits text that binds at its own level of precedence |
| `Query.FieldIsPath` | crates/ai-store-sqlite/src/query.rs:181-195 | the field paths that pass are exactly names of letters, digits and underscores with single dots between them |
| `Assembly.CompiledWhereMeans` | crates/ai-store-sqlite/src/query.rs:288-315 | filter, raw fragment and live constraint mean their conjunction |
| `Assembly.OrderTermIs` | crates/ai-store-sqlite/src/query.rs:355-369 | the compiled sort key is the column or the member of the state the query names, the time of the last event by default |
| `Assembly.DirectionIs` | crates/ai-store-sqlite/src/query.rs:355-369 | the compiled direction is the query's, newest first by default |
| `Assembly.KeyEvals` | crates/ai-store-sqlite/src/query.rs:334-349 | the cursor fragment means past the key in the direction asked for, above it going up and below it going down, or on it and past the stream |
| `Assembly.CompiledQueryMeans` | crates/ai-store-sqlite/src/read_model.rs:253-275 | unless a bare OR stands under a cursor, the assembled text means filter and raw and live and cursor, LIMIT and OFFSET bound after all of it |
| `Assembly.BareOrUnderCursor` | crates/ai-store-sqlite/src/query.rs:271-280 | the bare OR under a cursor selects a wrong row if and only if it satisfies an earlier disjunct and is not past the cursor |
| `Assembly.BareOrMisreads` | crates/ai-store-sqlite/src/query.rs:271-280 | such a row: it satisfies the first disjunct, is the cursor's own row, and is selected again |
| `Builder.ParamList.Push` | crates/ai-store-sqlite/src/query.rs:213-217 | the parameter list grows at its end |
| `Builder.BuildCompare` | crates/ai-store-sqlite/src/query.rs:206-217 | range text and its two parameters, or a refused field |
| `Builder.BuildFilter` | crates/ai-store-sqlite/src/query.rs:221-282 | emits exactly the specified text and appends exactly its parameters, or refuses exactly on an invalid field |
| `Builder.BuildIn` | crates/ai-store-sqlite/src/query.rs:240-244 | a parenthesised chain of equalities joined by OR, one a candidate in their order, each with its own parameters; refused exactly if the field is invalid |
| `Builder.BuildList` | crates/ai-store-sqlite/src/query.rs:261-280 | the parts of an And or an Or, each in its own parentheses, joined by the operator, their parameters in the same order; refused exactly if some part has an invalid field |
| `Builder.BuildWhere` | crates/ai-store-sqlite/src/query.rs:288-315 | the WHERE body with parameters in placeholder order |
| `Builder.ApplyKeyset` | crates/ai-store-sqlite/src/query.rs:321-350 | the cursor appended in place, its value bound twice; refused exactly on an invalid order field |
| `Builder.BuildQuery` | crates/ai-store-sqlite/src/read_model.rs:253-275 | the compiler returns the text whose meaning is proved, with every parameter in order and the sort key and direction the query asks for; it is refused exactly on an invalid field of the filter or the order |
| `Pages.CursorSelects` | crates/ai-store-sqlite/src/query.rs:321-350 | for keys that are not null the cursor is true of exactly the rows strictly later in the listing, the smaller first going up and the greater first going down, and never unknown |
| `Pages.OrderLawsHold` | crates/ai-store-sqlite/src/query.rs:321-350 | numbers before texts and texts by character satisfy the laws asked of the comparison |
| `Pages.CursorSelectsPast` | crates/ai-store-sqlite/src/query.rs:321-350 | with null keys too: the cursor selects a row if and only if neither key is null and the row is past it |
| `Pages.PageIsSlice` | crates/ai-store-sqlite/src/query.rs:321-388 | a page of distinct keys is the next slice of the listing, whatever SQLite does with ties |
| `Pages.WalkVisitsAll` | crates/ai-store-sqlite/src/query.rs:321-388 | walking pages of distinct keys visits every matching row exactly once, in order, and ends |
| `Pages.LostAfterPage` | crates/ai-store-sqlite/src/query.rs:321-387 | for any page and the cursor of its last row, a row left is not selected afterwards if and only if a key is null, or it ties with the last row and is not after it by stream |
| `Pages.RepeatedAfterPage` | crates/ai-store-sqlite/src/query.rs:321-387 | a row of the page is selected again if and only if it ties with the last row and is after it by stream |
| `Pages.NextIsRest` | crates/ai-store-sqlite/src/query.rs:321-387 | the next page is asked for exactly the rows left if and only if the page breaks its last tie by stream |
| `Pages.CleanWalkIsWhole` | crates/ai-store-sqlite/src/query.rs:321-387 | a walk whose pages all do visits every matching row, each once, ties or not |
| `Pages.TieMayLoseARow` | crates/ai-store-sqlite/src/query.rs:372-387 | the input: any two rows with one key admit a page after which the cursor never selects the other |
| `ReadModel.SqliteReadModel.Commit` | crates/ai-store-sqlite/src/read_model.rs:391-424 | the guarded upsert |
| `ReadModel.RowIsNewest` | crates/ai-store-sqlite/src/read_model.rs:384-424 | for any order, duplicates and stale redeliveries, the row is the delivery with the greatest coordinate |
| `ReadModel.OrderDoesNotMatter` | crates/ai-store-sqlite/src/read_model.rs:384-424 | two runs over the same deliveries end in the same table |
| `ReadModel.RowIsHead` | crates/ai-store-sqlite/src/read_model.rs:391-424 | once the head was delivered the row is `Store::state`, and live exactly where `streams_live` lists it, unless the stream was compacted at its head since |
| `ReadModel.RebuiltModelIsStore` | crates/ai-store-core/src/facade/lifecycle.rs:180-190 | after a rebuild whose resets were stored and that had no failure the table has exactly the accepted streams with events, compacted or not, each with the store's state and live flag |
| `Combined.CombinedFileSink.Commit` | crates/ai-store-fileproj/src/combined.rs:136-162 | fold, render, write unless the hash is unchanged; a failed write keeps the entry |
| `Combined.CommitWrites` | crates/ai-store-fileproj/src/combined.rs:136-162 | a commit that returns Ok leaves the rendering in the file if and only if no different body collides |
| `Combined.StatesAreAppends` | crates/ai-store-core/src/facade/write.rs:260-274 | every append is in its stream whatever became of its commit, in order, and nothing else is |
| `Combined.RestartForgets` | crates/ai-store-fileproj/src/combined.rs:128-134 | a new process finds streams, stored checkpoints and file as left and has forgotten the rest |
| `Combined.FileIsHeads` | crates/ai-store-fileproj/src/combined.rs:136-162 | since a catch-up without a failure that skipped no stream not yet held, the map is every stream's head state after every append, and the file is its rendering unless the last commit failed |
| `Combined.CatchUpIsRight` | crates/ai-store-fileproj/src/combined.rs:136-162 | after a catch-up with no failure the map is every head state if and only if every stream started below its head or was held already; the file then is its rendering |
| `Combined.SkippedMeans` | crates/ai-store-core/src/dispatcher.rs:192-200 | in a process's first catch-up a stream is skipped if and only if its stored checkpoint is at the head, the zero was not stored and the old row is read back |
| `Combined.GoodCatchUp` | crates/ai-store-core/src/facade/lifecycle.rs:164-178 | where every call works, a first catch-up reports no failure and covers every stream, and so does each after a covering one |
| `Combined.FileFollows` | crates/ai-store-core/src/facade/lifecycle.rs:164-178 | whatever happened in this and earlier processes, after a catch-up that reports no failure and covers every stream the file is right, and stays right after each append whose commit works |
| `Combined.LostReset` | crates/ai-store-core/src/dispatcher.rs:192-200 | the input: a reset that is not stored lets the first catch-up report no failure and a stream drop out of the file |

## Left out

- `Lifecycle.CatchUpInner`: no append lands during the call, and the backend's reads work; with an append, a batch may hold events past the head read earlier. `Delivery` covers that interleaving for delivery and watermarks, `Handover` for the states, neither for the counts.
- `Handover.HandoversAreTrue`: one catch-up of one stream at a time, without upcasters.
- `Combined.FileFollows`: one call at a time, and different bodies hash differently; `Combined.CommitWrites` gives the exact condition for one commit.
- `Pages.WalkVisitsAll`: an unchanging table with distinct non-null keys; ties are `Pages.CleanWalkIsWhole`.
- `Pages.CleanWalkIsWhole`: an unchanging table and keys that are not null; rows with a null key are never selected past a cursor (`Pages.LostAfterPage`).
- `Delivery.WatermarkMeansDelivered`: uncompacted logs; a compacted prefix is delivered as one snapshot.
- `Json.Diff`: which of the possible patches json_patch::diff produces is left open.
- JSON arrays, booleans, fractions, and the patch operations `move`, `copy` and `test`.
- SQL is modelled from tokens on; the characters and SQLite's own value coercions in `json_extract` are an abstract comparison.
- `LIMIT` and `OFFSET` as 64-bit casts, and coordinates as 64-bit integers: unbounded here.
- The SQLite `read_by_meta`, which filters inside SQL; only the default paging loop is modelled.
- Labels, `seq_at_time`, timestamps other than as data, `materialize_to_sink`, `KindGate`, `StoreBuilder`, error classification: one-branch or pass-through code.
- Threads, runtime, connections, pragmas, migrations and the append-only triggers: a backend call is one atomic step that may fail.
- The blocking facade crate, which only wraps the asynchronous one.
- `FileProjection`, archive names and the atomic file write: the combined file is one cell, written or not.
