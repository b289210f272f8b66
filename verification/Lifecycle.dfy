/**
 * Catch-up, rebuild and attach: one sink is driven forward on every stream it
 * accepts, from its checkpoint to the head, with one running state per stream
 * and failures kept to the stream they happen on.
 */
module Lifecycle {
  import opened Wrappers
  import opened Json
  import opened Events
  import opened Upcasting
  import opened Reads
  import opened Backends
  import opened Dispatcher
  import opened Store

  datatype Cause = PatchApply | CommitFailed | CheckpointLost

  datatype Failure = Failure(stream: StreamId, sink: SinkId, cause: Cause)

  datatype Report = Report(applied: nat, skipped: nat, failed: nat, failures: seq<Failure>)

  const EMPTY := Report(0, 0, 0, [])

  // ---- what a sink is owed ------------------------------------------------------------

  /** The events of a log past checkpoint `start`, as read. */
  function Owed(chain: seq<Upcaster>, log: seq<Event>, start: nat): seq<Event> {
    UpcastAll(chain, From(log, start + 1))
  }

  /**
   * Consecutive rows ending at the head; all but the first, which may be a
   * snapshot, are the history's own events.
   */
  ghost predicate Rows(rows: seq<Event>, seen: seq<Event>, start: nat) {
    && |rows| <= |seen| && (rows == [] <==> |seen| <= start)
    && (forall i :: 0 <= i < |rows| ==> start < rows[i].seqNo && rows[i].seqNo == |seen| - |rows| + 1 + i)
    && forall i :: 0 < i < |rows| ==> rows[i] == seen[rows[i].seqNo - 1]
  }

  lemma RawRows(log: seq<Event>, history: seq<Event>, boundary: nat, start: nat)
    requires Holds(log, history, boundary)
    ensures Rows(From(log, start + 1), history, start)
    ensures forall e :: e in From(log, start + 1) ==> boundary <= e.seqNo
  {
    hide Holds, Replay, From;
    var first := if boundary == 0 then 1 else boundary;
    HoldsNumbered(log, history, boundary);
    FromNumbered(log, first, start + 1);
    var skip := Min(Monus(start + 1, first), |log|);
    if log != [] {
      forall i | 0 <= i < |log|
        ensures log[i].seqNo == first + i && (boundary == 0 || i > 0 ==>
                log[i] == history[first + i - 1]) && |log| == |history| + 1 - first
      {
        LogRow(log, history, boundary, first, i);
      }
    }
    assert From(log, start + 1) == log[skip..];
  }

  lemma OwedAreRows(chain: seq<Upcaster>, log: seq<Event>, history: seq<Event>, boundary: nat, start: nat)
    requires HoldsSeen(chain, log, history, boundary) && KeepsSeq(chain)
    ensures Rows(Owed(chain, log, start), UpcastAll(chain, history), start)
    ensures forall e :: e in Owed(chain, log, start) ==> 1 <= e.seqNo <= |history| && boundary <= e.seqNo
  {
    hide Holds, Shaped, Replay;
    ShapedNumbered(log, history, boundary);
    UpcastFrom(chain, log, if boundary == 0 then 1 else boundary, start + 1);
    RawRows(UpcastAll(chain, log), UpcastAll(chain, history), boundary, start);
  }

  lemma Reachable(log: seq<Event>, history: seq<Event>, boundary: nat, seen: seq<Event>, at: nat)
    requires Shaped(log, history, boundary) && |seen| == |history| && 1 <= at <= |seen| && boundary <= at
    ensures Answer(log, seen, at) == Truth(seen, at)
  {
    hide Shaped, Replay;
    ShapedNumbered(log, history, boundary);
  }

  /** The checkpoint after `done` of the rows. */
  ghost function CursorAt(rows: seq<Event>, start: nat, done: nat): nat
    requires done <= |rows|
  {
    if done == 0 then start else rows[done - 1].seqNo
  }

  lemma BatchIs(chain: seq<Upcaster>, log: seq<Event>, history: seq<Event>, boundary: nat, start: nat, done: nat)
    requires Shaped(log, history, boundary) && KeepsSeq(chain)
    requires done <= |Owed(chain, log, start)|
    ensures var rows := Owed(chain, log, start);
            UpcastAll(chain, Read(log, CursorAt(rows, start, done) + 1,
                CATCH_UP_BATCH)) == rows[done..Min(done + CATCH_UP_BATCH, |rows|)]
  {
    hide Shaped, Replay;
    ShapedNumbered(log, history, boundary);
    var raw, rows := From(log, start + 1), Owed(chain, log, start);
    assert CursorAt(rows, start, done) == CursorAt(raw, start, done);
    Resumed(log, if boundary == 0 then 1 else boundary, start, done);
    UpcastSlice(chain, raw, done, Min(done + CATCH_UP_BATCH, |rows|));
  }

  lemma Resumed(log: seq<Event>, first: nat, start: nat, done: nat)
    requires Numbered(log, first) && done <= |From(log, start + 1)|
    ensures From(log, CursorAt(From(log, start + 1), start, done) + 1) == From(log, start + 1)[done..]
  {
    FromNumbered(log, first, start + 1);
    FromNumbered(log, first, CursorAt(From(log, start + 1), start, done) + 1);
  }

  /** The sink was handed this row, with the state the history has there. */
  ghost predicate Right(call: Call, key: Key, row: Event, seen: seq<Event>) {
    && call.key == key && call.event == row && call.seqNo == row.seqNo
    && 1 <= row.seqNo <= |seen| && Truth(seen, row.seqNo) == Ok(call.state)
  }

  /** The report of one stream: every owed row is applied, failed or skipped. */
  ghost predicate Accounted(before: Report, after: Report, key: Key, owed: nat) {
    && after.applied + after.failed + after.skipped == before.applied + before.failed + before.skipped + owed
    && (|| after == before.(applied := before.applied + owed)
        || (&& after.failed == before.failed + 1 && after.skipped >= before.skipped
            && before.applied <= after.applied < before.applied + owed
            && |after.failures| == |before.failures| + 1
            && after.failures == before.failures + [Failure(key.stream, key.sink, after.failures[|before.failures|].cause)]))
  }

  // ---- one event ----------------------------------------------------------------------

  datatype Outcome = Delivered(state: Json) | Stuck(cause: Cause) | Aborted(error: Error)

  method DeliverOne(store: Store, key: Key, row: Event, running: Option<Json>) returns (o: Outcome)
    requires store.Valid() && 1 <= row.seqNo <= |store.Seen(key.stream)|
    requires store.Reference(key.stream, row.seqNo) == Truth(store.Seen(key.stream), row.seqNo)
    requires running.Some? ==> Truth(store.Seen(key.stream), row.seqNo - 1) == Ok(running.value)
                               && row == store.Seen(key.stream)[row.seqNo - 1]
    modifies store.dispatcher`checkpoints, store.dispatcher`stored, store.dispatcher`calls
    ensures store.Valid()
    ensures var d := store.dispatcher;
            var truth := Truth(store.Seen(key.stream), row.seqNo);
            match o
            case Aborted(error) => running.None? && truth == Err(error) && Quiet(d)
            case Stuck(PatchApply) => running.Some? && truth.Err? && Quiet(d)
            case Stuck(cause) =>
              && truth.Ok? && d.calls == old(d.calls) + [Call(key, row.seqNo, truth.value, row, cause == CheckpointLost)]
              && (cause == CheckpointLost ==> !d.Backend().Persists(key, row.seqNo))
              && d.checkpoints == old(d.checkpoints) && d.stored == old(d.stored)
            case Delivered(state) =>
              && d.Backend().Persists(key, row.seqNo)
              && truth == Ok(state) && d.calls == old(d.calls) + [Call(key, row.seqNo, state, row, true)]
              && d.checkpoints == old(d.checkpoints)[key := row.seqNo]
              && d.stored == if d.durable then old(d.stored)[key := row.seqNo] else old(d.stored)
  {
    hide HoldsSeen, Shaped, Replay, CacheOk;
    TruthStep(store.Seen(key.stream), row.seqNo - 1);
    var state: Json;
    match running {
      case Some(before) =>
        match Apply(before, row.patch) {
          case None => return Stuck(PatchApply);
          case Some(next) => state := next;
        }
      case None =>
        var r := store.StateAt(key.stream, row.seqNo);
        if r.Err? { return Aborted(r.error); }
        state := r.value;
    }
    var ok := store.dispatcher.Commit(key, row.seqNo, state, row);
    if !ok { return Stuck(CommitFailed); }
    var advanced := store.dispatcher.CheckpointAdvance(key, row.seqNo);
    if !advanced { return Stuck(CheckpointLost); }
    return Delivered(state);
  }

  twostate predicate Quiet(d: SinkDispatcher)
    reads d
  {
    d.calls == old(d.calls) && d.checkpoints == old(d.checkpoints) && d.stored == old(d.stored)
  }

  // ---- one stream ---------------------------------------------------------------------

  /** One stream's drive: what is owed, by which history, from which checkpoint, report and calls on. */
  datatype Drive = Drive(key: Key, rows: seq<Event>, seen: seq<Event>, start: nat, base: Report, before: seq<Call>)

  /** Where the drive stands. */
  datatype Turn = Turn(cursor: nat, running: Option<Json>, report: Report, halted: bool)

  /** The drive is about this store as it is. */
  ghost predicate OnTrack(store: Store, v: Drive)
    reads store.events, store.cache, store.dispatcher
  {
    && store.Valid() && v.seen == store.Seen(v.key.stream) && Rows(v.rows, v.seen, v.start)
    && forall e :: e in v.rows ==> 1 <= e.seqNo <= |v.seen| && store.Reference(v.key.stream, e.seqNo) == Truth(v.seen, e.seqNo)
  }

  /** The history has no state at the first of the rows. */
  ghost predicate NoState(rows: seq<Event>, seen: seq<Event>) {
    rows != [] && rows[0].seqNo <= |seen| && Truth(seen, rows[0].seqNo).Err?
  }

  /** The calls since the drive began are the first of the rows, each once and in order. */
  ghost predicate Handed(v: Drive, calls: seq<Call>) {
    && v.before <= calls && |calls| <= |v.before| + |v.rows|
    && forall i :: 0 <= i < |calls| - |v.before| ==> Right(calls[|v.before| + i], v.key, v.rows[i], v.seen)
  }

  /** The first `done` of those calls succeeded. */
  predicate Acked(v: Drive, calls: seq<Call>, done: nat) {
    |v.before| + done <= |calls| && forall i :: |v.before| <= i < |v.before| + done ==> calls[i].ok
  }

  /** `done` rows are delivered, and the running state is the true state after them. */
  ghost predicate Going(v: Drive, d: SinkDispatcher, turn: Turn, done: nat)
    reads d
  {
    && done <= |v.rows| && !turn.halted && turn.report == v.base.(applied := v.base.applied + done)
    && turn.cursor == CursorAt(v.rows, v.start, done)
    && (if done == 0 then turn.running == None
        else turn.cursor <= |v.seen| && turn.running.Some? && Truth(v.seen, turn.cursor) == Ok(turn.running.value))
    && Handed(v, d.calls) && |d.calls| == |v.before| + done && Acked(v, d.calls, done) && (done > 0 ==>
         !NoState(v.rows, v.seen))
    && v.key in d.checkpoints && d.checkpoints[v.key] == turn.cursor
  }

  /** The drive stopped at the row after `done`. */
  ghost predicate Halted(v: Drive, d: SinkDispatcher, turn: Turn, done: nat)
    reads d
  {
    && turn.halted && done < |v.rows| && Accounted(v.base, turn.report, v.key, |v.rows|)
    && turn.report.applied == v.base.applied + done && |turn.report.failures| == |v.base.failures| + 1
    && turn.cursor == CursorAt(v.rows, v.start, done)
    && Handed(v, d.calls) && |d.calls| <= |v.before| + done + 1 && Acked(v, d.calls, done)
    && Excused(v, d, done, turn.report.failures[|v.base.failures|].cause) && !NoState(v.rows, v.seen)
    && v.key in d.checkpoints && d.checkpoints[v.key] == turn.cursor
  }

  /**
   * The named cause is what stopped the drive: the sink refused the row, its checkpoint
   * was lost, or the history has no state there.
   */
  ghost predicate Excused(v: Drive, d: SinkDispatcher, done: nat, cause: Cause)
    requires done < |v.rows|
    reads d
  {
    match cause
    case CommitFailed => |d.calls| == |v.before| + done + 1 && !d.calls[|v.before| + done].ok
    case CheckpointLost => !d.Backend().Persists(v.key, v.rows[done].seqNo)
    case PatchApply => v.rows[done].seqNo <= |v.seen| && Truth(v.seen, v.rows[done].seqNo).Err?
  }

  /** Nothing is touched outside this key. */
  twostate predicate Elsewhere(d: SinkDispatcher, key: Key)
    reads d
  {
    && old(d.calls) <= d.calls
    && d.checkpoints - {key} == old(d.checkpoints) - {key} && d.stored - {key} == old(d.stored) - {key}
  }

  /** A failure at the row after `done` leaves every later row skipped. */
  lemma FailureAccounted(v: Drive, report: Report, done: nat, cause: Cause)
    requires Rows(v.rows, v.seen, v.start) && done < |v.rows| && report == v.base.(applied := v.base.applied + done)
    ensures v.rows[done].seqNo <= |v.seen|
    ensures Accounted(v.base, report.(failed := report.failed + 1, failures := report.failures + [Failure(v.key.stream,
            v.key.sink, cause)],
                                      skipped := report.skipped + |v.seen| - v.rows[done].seqNo), v.key, |v.rows|)
  {
  }

  lemma OneMore(v: Drive, calls: seq<Call>, ok: bool, state: Json, done: nat)
    requires Handed(v, calls) && Acked(v, calls, done) && |calls| == |v.before| + done && done < |v.rows|
    requires 1 <= v.rows[done].seqNo <= |v.seen| && Truth(v.seen, v.rows[done].seqNo) == Ok(state)
    ensures var more := calls + [Call(v.key, v.rows[done].seqNo, state, v.rows[done], ok)];
            Handed(v, more) && Acked(v, more, done) && (ok ==> Acked(v, more, done + 1))
  {
    hide Truth;
  }

  lemma Following(v: Drive, done: nat)
    requires Rows(v.rows, v.seen, v.start) && done < |v.rows|
    ensures done > 0 ==>
              CursorAt(v.rows, v.start, done) == v.rows[done].seqNo - 1 && v.rows[done] == v.seen[v.rows[done].seqNo - 1]
    ensures CursorAt(v.rows, v.start, done + 1) == v.rows[done].seqNo
  {
  }

  method DeliverRow(store: Store, key: Key, head: nat, row: Event, turn: Turn, ghost v: Drive,
        ghost done: nat) returns (r: Result<Turn>)
    requires OnTrack(store, v) && key == v.key && head == |v.seen| && done < |v.rows| && row == v.rows[done]
    requires Going(v, store.dispatcher, turn, done)
    modifies store.dispatcher`checkpoints, store.dispatcher`stored, store.dispatcher`calls
    ensures OnTrack(store, v) && Elsewhere(store.dispatcher, v.key)
    ensures r.Err? ==> done == 0 && Quiet(store.dispatcher) && row.seqNo <= |v.seen| && Truth(v.seen, row.seqNo) == Err(r.error)
    ensures r.Err? <==> done == 0 && NoState(v.rows, v.seen)
    ensures r.Ok? ==> if r.value.halted then Halted(v, store.dispatcher, r.value, done)
                      else Going(v, store.dispatcher, r.value, done + 1)
  {
    hide HoldsSeen, Shaped, Replay, CacheOk, Truth, Right, Answer, Rows, Accounted, Handed, Acked, CursorAt, KeepsSeq, Owed,
         UpcastAll;
    assert row in v.rows;
    Following(v, done);
    ghost var calls := store.dispatcher.calls;
    var outcome := DeliverOne(store, key, row, turn.running);
    match outcome {
      case Aborted(error) => return Err(error);
      case Stuck(cause) =>
        FailureAccounted(v, turn.report, done, cause);
        if cause != PatchApply { OneMore(v, calls, cause == CheckpointLost, Truth(v.seen, row.seqNo).value, done); }
        var report := turn.report.(failed := turn.report.failed + 1,
                                   failures := turn.report.failures + [Failure(key.stream, key.sink, cause)],
                                   skipped := turn.report.skipped + head - row.seqNo);
        return Ok(turn.(halted := true, report := report));
      case Delivered(state) =>
        OneMore(v, calls, true, state, done);
        return Ok(Turn(row.seqNo, Some(state), turn.report.(applied := turn.report.applied + 1), false));
    }
  }

  /** A stream the sink is driven on, and the checkpoint it was found at. */
  datatype Leg = Leg(stream: StreamId, start: nat)

  /**
   * The checkpoint a drive starts from: as it is read, after a reset from the
   * backend only, where a zero that could not be stored leaves the old row.
   */
  ghost predicate StartsAt(b: Backing, reset: bool, o: Marks, sink: SinkId, leg: Leg) {
    var key := Key(sink, leg.stream);
    leg.start == if !reset then CheckpointOf(b, o.checkpoints, o.stored, key)
                 else if !b.Zeroes(key) && b.Loads(key) && key in o.stored then o.stored[key] else 0
  }

  function Max(a: nat, b: nat): nat { if a <= b then b else a }

  /**
   * How one stream ends. What was handed over is always the first of the owed
   * rows, each once, in order and with its true state. With no failure that is
   * all of them, and the checkpoint is at the head (or beyond, where it began).
   * With a failure the checkpoint is at the last row delivered, and all rows
   * are accounted for. The drive is abandoned exactly where the history has no
   * state at its first row.
   */
  ghost predicate StreamDone(v: Drive, d: SinkDispatcher, r: Result<Report>)
    reads d
  {
    && Handed(v, d.calls)
    && match r
       case Err(error) => Abandoned(v, d, error)
       case Ok(after) =>
         && Accounted(v.base, after, v.key, |v.rows|) && !NoState(v.rows, v.seen)
         && (if after.failures == v.base.failures
             then |d.calls| == |v.before| + |v.rows| && Acked(v, d.calls, |v.rows|) && At(d, v.key, Max(v.start, |v.seen|))
             else
               var done := after.applied - v.base.applied;
               && 0 <= done < |v.rows| && At(d, v.key, CursorAt(v.rows, v.start, done))
               && Acked(v, d.calls, done) && Excused(v, d, done, after.failures[|v.base.failures|].cause))
  }

  ghost predicate At(d: SinkDispatcher, key: Key, cursor: nat)
    reads d
  {
    key in d.checkpoints && d.checkpoints[key] == cursor
  }

  ghost function DriveOf(store: Store, key: Key, start: nat, report: Report, before: seq<Call>): Drive
    reads store.events
  {
    Drive(key, Owed(store.upcasters, store.events.Log(key.stream), start), store.Seen(key.stream), start, report, before)
  }

  lemma Starts(store: Store, v: Drive)
    requires store.Valid() && v == DriveOf(store, v.key, v.start, v.base, store.dispatcher.calls)
    requires At(store.dispatcher, v.key, v.start)
    ensures OnTrack(store, v) && Going(v, store.dispatcher, Turn(v.start, None, v.base, false), 0)
  {
    hide HoldsSeen, Shaped, Replay, CacheOk, Truth, Rows, KeepsSeq, Owed, Answer;
    var log, history, boundary := store.events.Log(v.key.stream), store.events.History(v.key.stream),
        store.events.BoundaryOf(v.key.stream);
    assert HoldsSeen(store.upcasters, log, history, boundary);
    OwedAreRows(store.upcasters, log, history, boundary, v.start);
    forall e | e in v.rows
      ensures 1 <= e.seqNo <= |v.seen| && store.Reference(v.key.stream, e.seqNo) == Truth(v.seen, e.seqNo)
    {
      Reachable(log, history, boundary, v.seen, e.seqNo);
    }
  }

  lemma Ends(v: Drive, done: nat)
    requires Rows(v.rows, v.seen, v.start) && done <= |v.rows|
    ensures CursorAt(v.rows, v.start, done) >= |v.seen| <==> done == |v.rows|
    ensures done == |v.rows| ==> CursorAt(v.rows, v.start, done) == Max(v.start, |v.seen|)
  {
  }

  lemma DoneWell(v: Drive, d: SinkDispatcher, turn: Turn, done: nat)
    requires Going(v, d, turn, done) && done == |v.rows| && turn.cursor == Max(v.start, |v.seen|)
    ensures StreamDone(v, d, Ok(turn.report))
  {
  }

  lemma DoneHalted(v: Drive, d: SinkDispatcher, turn: Turn, done: nat)
    requires Halted(v, d, turn, done)
    ensures StreamDone(v, d, Ok(turn.report))
  {
  }

  lemma DoneAborted(v: Drive, d: SinkDispatcher, error: Error)
    requires Abandoned(v, d, error)
    ensures StreamDone(v, d, Err(error))
  {
  }

  method CatchUpStream(store: Store, key: Key, reset: bool, report: Report) returns (r: Result<Report>, ghost leg: Leg)
    requires store.Valid()
    modifies store.dispatcher`checkpoints, store.dispatcher`stored, store.dispatcher`calls
    ensures store.Valid() && Elsewhere(store.dispatcher, key) && leg.stream == key.stream
    ensures store.Seen(key.stream) == [] ==> r == Ok(report) && store.dispatcher.calls == old(store.dispatcher.calls)
    ensures store.Seen(key.stream) != [] ==>
              && StartsAt(store.dispatcher.Backend(), reset, old(store.dispatcher.Now()), key.sink, leg)
              && StreamDone(DriveOf(store, key, leg.start, report, old(store.dispatcher.calls)), store.dispatcher, r)
              && (r.Err? <==> Lost(store, leg))
  {
    hide HoldsSeen, Shaped, Replay, CacheOk, Truth, Right, Answer, Rows, Accounted, Handed, KeepsSeq, Owed, CursorAt, Numbered,
         StreamDone, NoState, UpcastAll;
    var d := store.dispatcher;
    leg := Leg(key.stream, 0);
    if reset { d.CheckpointReset(key); }
    ShapedNumbered(store.events.Log(key.stream), store.events.History(key.stream), store.events.BoundaryOf(key.stream));
    var head := Head(store.events.Log(key.stream));
    if head.None? { return Ok(report), leg; }
    var cursor := d.CheckpointGet(key);
    leg := leg.(start := cursor);
    ghost var v := DriveOf(store, key, cursor, report, d.calls);
    Starts(store, v);
    r := DriveForward(store, key, head.value, cursor, report, v);
    AbandonedIsLost(v, d, r);
  }

  /** The first row this leg begins with has no state. */
  ghost predicate Lost(store: Store, leg: Leg)
    reads store.events
  {
    NoState(Owed(store.upcasters, store.events.Log(leg.stream), leg.start), store.Seen(leg.stream))
  }

  lemma AbandonedIsLost(v: Drive, d: SinkDispatcher, r: Result<Report>)
    requires StreamDone(v, d, r)
    ensures r.Err? <==> NoState(v.rows, v.seen)
  {
  }

  /** The batch loop. */
  method DriveForward(store: Store, key: Key, head: nat, cursor: nat, report: Report,
        ghost v: Drive) returns (r: Result<Report>)
    requires OnTrack(store, v) && v == DriveOf(store, key, cursor, report, store.dispatcher.calls) && head == |v.seen|
    requires Going(v, store.dispatcher, Turn(cursor, None, report, false), 0)
    modifies store.dispatcher`checkpoints, store.dispatcher`stored, store.dispatcher`calls
    ensures store.Valid() && Elsewhere(store.dispatcher, key) && StreamDone(v, store.dispatcher, r)
  {
    hide HoldsSeen, Shaped, Replay, CacheOk, Truth, Right, Answer, Rows, Accounted, Handed, KeepsSeq, Owed, CursorAt, Numbered,
         StreamDone, NoState;
    ghost var done := 0;
    var turn := Turn(cursor, None, report, false);
    while turn.cursor < head && !turn.halted
      invariant OnTrack(store, v) && Elsewhere(store.dispatcher, key)
      invariant if turn.halted then Halted(v, store.dispatcher, turn, done) else Going(v, store.dispatcher, turn, done)
      decreases |v.rows| - done, !turn.halted
    {
      BatchIs(store.upcasters, store.events.Log(key.stream), store.events.History(key.stream),
          store.events.BoundaryOf(key.stream), cursor, done);
      Ends(v, done);
      var batch := store.ReadEvents(key.stream, turn.cursor + 1, CATCH_UP_BATCH);
      if batch == [] { break; }
      var next, now := DeliverBatch(store, key, head, batch, turn, v, done);
      done := now;
      if next.Err? {
        DoneAborted(v, store.dispatcher, next.error);
        return Err(next.error);
      }
      turn := next.value;
    }
    if turn.halted {
      DoneHalted(v, store.dispatcher, turn, done);
    } else {
      Ends(v, done);
      DoneWell(v, store.dispatcher, turn, done);
    }
    return Ok(turn.report);
  }

  method DeliverBatch(store: Store, key: Key, head: nat, batch: seq<Event>, from: Turn, ghost v: Drive, ghost done: nat)
    returns (r: Result<Turn>, ghost now: nat)
    requires OnTrack(store, v) && key == v.key && head == |v.seen| && Going(v, store.dispatcher, from, done)
    requires done + |batch| <= |v.rows| && batch == v.rows[done..done + |batch|] && batch != []
    modifies store.dispatcher`checkpoints, store.dispatcher`stored, store.dispatcher`calls
    ensures OnTrack(store, v) && Elsewhere(store.dispatcher, key)
    ensures r.Err? ==> Abandoned(v, store.dispatcher, r.error)
    ensures r.Ok? && r.value.halted ==> done <= now && Halted(v, store.dispatcher, r.value, now)
    ensures r.Ok? && !r.value.halted ==> now == done + |batch| && Going(v, store.dispatcher, r.value, now)
  {
    hide HoldsSeen, Shaped, Replay, CacheOk, Truth, Right, Answer, Rows, Accounted, Handed, KeepsSeq, CursorAt, OnTrack,
         Abandoned, NoState;
    var turn := from;
    now := done;
    for i := 0 to |batch|
      invariant OnTrack(store, v) && Elsewhere(store.dispatcher, key)
      invariant now == done + i && Going(v, store.dispatcher, turn, now)
    {
      assert batch[i] == v.rows[now];
      NothingYet(v, store.dispatcher, turn, now);
      var next := DeliverRow(store, key, head, batch[i], turn, v, now);
      if next.Err? {
        NowAbandoned(store, v, batch[i], next.error);
        return Err(next.error), now;
      }
      turn := next.value;
      if turn.halted { return Ok(turn), now; }
      now := now + 1;
    }
    return Ok(turn), now;
  }

  /** No call was made, and the first row has no state. */
  ghost predicate Abandoned(v: Drive, d: SinkDispatcher, error: Error)
    reads d
  {
    d.calls == v.before && v.rows != [] && v.rows[0].seqNo <= |v.seen| && Truth(v.seen, v.rows[0].seqNo) == Err(error)
  }

  lemma NothingYet(v: Drive, d: SinkDispatcher, turn: Turn, done: nat)
    requires Going(v, d, turn, done)
    ensures done == 0 ==> d.calls == v.before
  {
  }

  lemma NowAbandoned(store: Store, v: Drive, row: Event, error: Error)
    requires OnTrack(store, v) && store.dispatcher.calls == v.before && v.rows != [] && row == v.rows[0]
    requires row.seqNo <= |v.seen| && Truth(v.seen, row.seqNo) == Err(error)
    ensures Abandoned(v, store.dispatcher, error)
  {
  }

  // ---- every stream -------------------------------------------------------------------

  /** The call was made since, with this row and the true state after it, and succeeded. */
  ghost predicate Got(calls: seq<Call>, since: nat, key: Key, row: Event, seen: seq<Event>) {
    exists i :: since <= i < |calls| && Right(calls[i], key, row, seen) && calls[i].ok
  }

  /**
   * The sink got every row up to its checkpoint, and unless a failure is
   * reported for the stream the checkpoint is at the head.
   */
  ghost predicate Driven(rows: seq<Event>, seen: seq<Event>, key: Key, start: nat,
                         calls: seq<Call>, checkpoints: map<Key, nat>, since: nat, failures: seq<Failure>) {
    && key in checkpoints && start <= checkpoints[key]
    && (forall row :: row in rows && row.seqNo <= checkpoints[key] ==> Got(calls, since, key, row, seen))
    && ((forall f :: f in failures ==> f.stream != key.stream) ==> checkpoints[key] == Max(start, |seen|))
  }

  lemma DrivenNow(v: Drive, d: SinkDispatcher, after: Report, since: nat)
    requires StreamDone(v, d, Ok(after)) && Rows(v.rows, v.seen, v.start) && since <= |v.before|
    ensures Driven(v.rows, v.seen, v.key, v.start, d.calls, d.checkpoints, since, after.failures)
  {
    hide Truth, Right;
    var done := if after.failures == v.base.failures then |v.rows| else after.applied - v.base.applied;
    forall row | row in v.rows && row.seqNo <= d.checkpoints[v.key] ensures Got(d.calls, since, v.key, row, v.seen) {
      var i :| 0 <= i < |v.rows| && v.rows[i] == row;
      assert i < done;
      assert Right(d.calls[|v.before| + i], v.key, v.rows[i], v.seen);
    }
    if after.failures != v.base.failures {
      assert after.failures[|v.base.failures|].stream == v.key.stream;
      assert after.failures[|v.base.failures|] in after.failures;
    }
  }

  lemma DrivenStays(rows: seq<Event>, seen: seq<Event>, key: Key, start: nat,
                    calls: seq<Call>, checkpoints: map<Key, nat>, since: nat, failures: seq<Failure>,
                    more: seq<Call>, later: map<Key, nat>, now: seq<Failure>)
    requires Driven(rows, seen, key, start, calls, checkpoints, since, failures)
    requires calls <= more && key in later && later[key] == checkpoints[key] && failures <= now
    ensures Driven(rows, seen, key, start, more, later, since, now)
  {
    hide Right;
    forall row | row in rows && row.seqNo <= later[key] ensures Got(more, since, key, row, seen) {
      var i :| since <= i < |calls| && Right(calls[i], key, row, seen) && calls[i].ok;
      assert more[i] == calls[i];
    }
    assert forall f :: f in failures ==> f in now;
  }

  ghost function TotalOwed(store: Store, legs: seq<Leg>): nat
    reads store.events
  {
    if legs == [] then 0
    else
      var leg := legs[|legs| - 1];
      TotalOwed(store, legs[..|legs| - 1]) + |Owed(store.upcasters, store.events.Log(leg.stream), leg.start)|
  }

  /** The legs are the accepted streams of `streams` that have events, each once. */
  ghost predicate LegsOf(store: Store, sink: SinkInfo, streams: seq<StreamId>, legs: seq<Leg>)
    reads store.events
  {
    && (forall i, j :: 0 <= i < j < |legs| ==> legs[i].stream != legs[j].stream)
    && (forall i :: 0 <= i < |legs| ==>
              legs[i].stream in streams && sink.accepts(legs[i].stream) && store.Seen(legs[i].stream) != [])
    && forall s :: s in streams && sink.accepts(s) && store.Seen(s) != [] ==> exists i :: 0 <= i < |legs| && legs[i].stream == s
  }

  ghost predicate LegDriven(store: Store, m: Marks, key: Key, start: nat, since: nat, failures: seq<Failure>)
    reads store.events
  {
    Driven(Owed(store.upcasters, store.events.Log(key.stream), start), store.Seen(key.stream), key, start, m.calls,
        m.checkpoints, since, failures)
  }

  /** The failure is the sink's, on a stream it accepts, and its cause is real. */
  ghost predicate Real(store: Store, sink: SinkInfo, calls: seq<Call>, since: nat, f: Failure)
    reads store.events, store.dispatcher`keeper
  {
    && f.sink == sink.id && sink.accepts(f.stream)
    && match f.cause
       case CommitFailed => exists i :: since <= i < |calls| && calls[i].key == Key(sink.id, f.stream) && !calls[i].ok
       case CheckpointLost => exists n :: !store.dispatcher.Backend().Persists(Key(sink.id, f.stream), n)
       case PatchApply => exists n :: 1 <= n <= |store.Seen(f.stream)| && Truth(store.Seen(f.stream), n).Err?
  }

  /** Every reported failure is real. */
  ghost predicate Blamed(store: Store, sink: SinkInfo, calls: seq<Call>, since: nat, failures: seq<Failure>)
    reads store.events, store.dispatcher`keeper
  {
    forall f :: f in failures ==> Real(store, sink, calls, since, f)
  }

  lemma RealStays(store: Store, sink: SinkInfo, calls: seq<Call>, more: seq<Call>, since: nat, f: Failure)
    requires Real(store, sink, calls, since, f) && calls <= more
    ensures Real(store, sink, more, since, f)
  {
    if f.cause == CommitFailed {
      var i :| since <= i < |calls| && calls[i].key == Key(sink.id, f.stream) && !calls[i].ok;
      assert more[i] == calls[i];
    }
  }

  lemma RealIsOutside(store: Store, sink: SinkInfo, calls: seq<Call>, since: nat, f: Failure)
    requires Real(store, sink, calls, since, f)
    ensures || (exists n :: !store.dispatcher.Backend().Persists(Key(sink.id, f.stream), n))
            || (exists i :: since <= i < |calls| && !calls[i].ok)
            || exists s, n :: sink.accepts(s) && 1 <= n <= |store.Seen(s)| && Truth(store.Seen(s), n).Err?
  {
  }

  lemma RealFound(store: Store, sink: SinkInfo, v: Drive, after: Report, since: nat)
    requires StreamDone(v, store.dispatcher, Ok(after)) && after.failures != v.base.failures && since <= |v.before|
    requires Rows(v.rows, v.seen, v.start) && v.seen == store.Seen(v.key.stream) && v.key.sink == sink.id &&
             sink.accepts(v.key.stream)
    ensures |after.failures| == |v.base.failures| + 1 && v.base.failures <= after.failures
    ensures Real(store, sink, store.dispatcher.calls, since, after.failures[|v.base.failures|])
  {
    hide Truth;
    var done := after.applied - v.base.applied;
    assert 1 <= v.rows[done].seqNo;
    if after.failures[|v.base.failures|].cause == CommitFailed {
      assert Right(store.dispatcher.calls[|v.before| + done], v.key, v.rows[done], v.seen);
    }
  }

  lemma BlameGrows(store: Store, sink: SinkInfo, v: Drive, after: Report, since: nat)
    requires StreamDone(v, store.dispatcher, Ok(after)) && since <= |v.before|
             && Blamed(store, sink, v.before, since, v.base.failures)
    requires Rows(v.rows, v.seen, v.start) && v.seen == store.Seen(v.key.stream) && v.key.sink == sink.id &&
             sink.accepts(v.key.stream)
    ensures Blamed(store, sink, store.dispatcher.calls, since, after.failures)
  {
    hide Real, Truth, Right, Accounted;
    var calls := store.dispatcher.calls;
    if after.failures != v.base.failures { RealFound(store, sink, v, after, since); }
    forall f | f in after.failures ensures Real(store, sink, calls, since, f) {
      if f in v.base.failures { RealStays(store, sink, v.before, calls, since, f); }
    }
  }

  /** Every leg is driven, and the report accounts for every row owed on any of them. */
  ghost predicate LegsDone(store: Store, sink: SinkInfo, m: Marks, legs: seq<Leg>, since: nat, report: Report)
    reads store.events, store.dispatcher`keeper
  {
    && report.applied + report.failed + report.skipped == TotalOwed(store, legs) && report.failed == |report.failures|
    && (report.failures == [] ==> report.skipped == 0) && Blamed(store, sink, m.calls, since, report.failures)
    && forall i :: 0 <= i < |legs| ==> LegDriven(store, m, Key(sink.id, legs[i].stream), legs[i].start, since, report.failures)
  }

  ghost predicate CallTrue(store: Store, sink: SinkInfo, call: Call)
    reads store.events
  {
    && call.key.sink == sink.id && sink.accepts(call.key.stream)
    && call.event.seqNo == call.seqNo && call.event in UpcastAll(store.upcasters, store.events.Log(call.key.stream))
    && 1 <= call.seqNo <= |store.Seen(call.key.stream)| && Truth(store.Seen(call.key.stream), call.seqNo) == Ok(call.state)
  }

  /** Every call made since is to this sink, on a stream it accepts, with that stream's true state. */
  ghost predicate CallsTrue(store: Store, sink: SinkInfo, before: seq<Call>, calls: seq<Call>)
    reads store.events
  {
    before <= calls && forall i :: |before| <= i < |calls| ==> CallTrue(store, sink, calls[i])
  }

  /** What is kept for this key is what was kept when the call began. */
  ghost predicate Fresh(m: Marks, o: Marks, key: Key) {
    && (key in m.checkpoints <==> key in o.checkpoints) && (key in m.checkpoints ==> m.checkpoints[key] == o.checkpoints[key])
    && (key in m.stored <==> key in o.stored) && (key in m.stored ==> m.stored[key] == o.stored[key])
  }

  /** The calls made since are on these streams. */
  predicate OnlyOn(before: seq<Call>, calls: seq<Call>, streams: seq<StreamId>) {
    forall i :: |before| <= i < |calls| ==> calls[i].key.stream in streams
  }

  /** Each leg began where the call found its checkpoint, at a row that has a state. */
  ghost predicate Begun(store: Store, sink: SinkInfo, reset: bool, o: Marks, legs: seq<Leg>)
    reads store.events, store.dispatcher`keeper
  {
    forall i :: 0 <= i < |legs| ==> StartsAt(store.dispatcher.Backend(), reset, o, sink.id, legs[i]) && !Lost(store, legs[i])
  }

  /** The `visited` streams are dealt with. */
  ghost predicate Dealt(store: Store, sink: SinkInfo, reset: bool, o: Marks, m: Marks, visited: seq<StreamId>,
        legs: seq<Leg>, report: Report)
    reads store.events, store.dispatcher`keeper
  {
    && CallsTrue(store, sink, o.calls, m.calls) && OnlyOn(o.calls, m.calls, visited)
    && LegsOf(store, sink, visited, legs) && Begun(store, sink, reset, o, legs)
    && LegsDone(store, sink, m, legs, |o.calls|, report)
  }

  /** No other stream is touched. */
  ghost predicate Rest(sink: SinkInfo, o: Marks, m: Marks, visited: seq<StreamId>) {
    forall s :: s !in visited ==> Fresh(m, o, Key(sink.id, s))
  }

  ghost predicate Underway(store: Store, sink: SinkInfo, reset: bool, o: Marks, m: Marks, visited: seq<StreamId>,
        legs: seq<Leg>, report: Report)
    reads store.events, store.dispatcher`keeper
  {
    Dealt(store, sink, reset, o, m, visited, legs, report) && Rest(sink, o, m, visited)
  }

  /**
   * Given up at `leg`, whose first row has no state, before any call on its
   * stream: the `visited` streams are dealt with, and those to come untouched.
   */
  ghost predicate Stopped(store: Store, sink: SinkInfo, reset: bool, o: Marks, m: Marks, visited: seq<StreamId>,
        legs: seq<Leg>, report: Report,
                          leg: Leg, error: Error)
    reads store.events, store.dispatcher`keeper
  {
    && Dealt(store, sink, reset, o, m, visited, legs, report) && Rest(sink, o, m, visited + [leg.stream])
    && leg.stream !in visited && sink.accepts(leg.stream) && StartsAt(store.dispatcher.Backend(), reset, o, sink.id, leg)
    && Lost(store, leg)
    && Truth(store.Seen(leg.stream), Owed(store.upcasters, store.events.Log(leg.stream), leg.start)[0].seqNo) == Err(error)
  }

  /** A later moment that differs only in one key, and in calls made since. */
  predicate Beside(m: Marks, later: Marks, key: Key) {
    && m.calls <= later.calls
    && m.checkpoints - {key} == later.checkpoints - {key} && m.stored - {key} == later.stored - {key}
  }

  lemma LegStays(store: Store, m: Marks, later: Marks, key: Key, leg: Key, start: nat, since: nat, failures: seq<Failure>,
        now: seq<Failure>)
    requires LegDriven(store, m, leg, start, since, failures) && Beside(m, later, key) && leg != key && failures <= now
    ensures LegDriven(store, later, leg, start, since, now)
  {
    hide Truth, Owed, Got;
    OtherKey(m.checkpoints, later.checkpoints, key, leg);
    DrivenStays(Owed(store.upcasters, store.events.Log(leg.stream), start), store.Seen(leg.stream), leg, start,
                m.calls, m.checkpoints, since, failures, later.calls, later.checkpoints, now);
  }

  lemma OwedInLog(chain: seq<Upcaster>, log: seq<Event>, start: nat, i: nat)
    requires i < |Owed(chain, log, start)|
    ensures Owed(chain, log, start)[i] in UpcastAll(chain, log)
  {
    FromIn(log, start + 1, i);
    var n :| 0 <= n < |log| && log[n] == From(log, start + 1)[i];
    assert UpcastAll(chain, log)[n] == Owed(chain, log, start)[i];
  }

  lemma {:induction false} FromIn(log: seq<Event>, from: nat, i: nat)
    requires i < |From(log, from)|
    ensures From(log, from)[i] in log
  {
    if log[0].seqNo < from {
      FromIn(log[1..], from, i);
    } else if i > 0 {
      FromIn(log[1..], from, i - 1);
    }
  }

  /** What holds of every stream but one still holds after that one is driven. */
  lemma Undisturbed(store: Store, sink: SinkInfo, reset: bool, o: Marks, m: Marks, later: Marks, visited: seq<StreamId>,
                    legs: seq<Leg>, report: Report, key: Key, now: seq<Failure>)
    requires Underway(store, sink, reset, o, m, visited, legs, report) && key.stream !in visited && key.sink == sink.id
    requires Beside(m, later, key) && report.failures <= now
    ensures forall i :: 0 <= i < |legs| ==> LegDriven(store, later, Key(sink.id, legs[i].stream), legs[i].start, |o.calls|, now)
    ensures Rest(sink, o, later, visited + [key.stream])
  {
    hide CallsTrue, LegDriven, Truth, Begun;
    forall i | 0 <= i < |legs| ensures LegDriven(store, later, Key(sink.id, legs[i].stream), legs[i].start, |o.calls|, now) {
      LegStays(store, m, later, key, Key(sink.id, legs[i].stream), legs[i].start, |o.calls|, report.failures, now);
    }
    forall s | s !in visited + [key.stream] ensures Fresh(later, o, Key(sink.id, s)) {
      assert s !in visited && s != key.stream;
      OtherKey(m.checkpoints, later.checkpoints, key, Key(sink.id, s));
      OtherKey(m.stored, later.stored, key, Key(sink.id, s));
    }
  }

  lemma CallsStayTrue(store: Store, sink: SinkInfo, before: seq<Call>, v: Drive, calls: seq<Call>)
    requires CallsTrue(store, sink, before, v.before) && Handed(v, calls)
             && v == DriveOf(store, v.key, v.start, v.base, v.before)
    requires v.key.sink == sink.id && sink.accepts(v.key.stream)
    ensures CallsTrue(store, sink, before, calls)
  {
    hide Truth;
    forall i | |before| <= i < |calls| ensures CallTrue(store, sink, calls[i]) {
      if i < |v.before| {
        assert calls[i] == v.before[i];
      } else {
        assert Right(calls[|v.before| + (i - |v.before|)], v.key, v.rows[i - |v.before|], v.seen);
        OwedInLog(store.upcasters, store.events.Log(v.key.stream), v.start, i - |v.before|);
      }
    }
  }

  lemma LegCounted(store: Store, legs: seq<Leg>, leg: Leg)
    ensures TotalOwed(store, legs + [leg]) ==
            TotalOwed(store, legs) + |Owed(store.upcasters, store.events.Log(leg.stream), leg.start)|
  {
    assert (legs + [leg])[..|legs|] == legs;
  }

  lemma LegListed(store: Store, sink: SinkInfo, visited: seq<StreamId>, legs: seq<Leg>, leg: Leg)
    requires LegsOf(store, sink, visited, legs) && leg.stream !in visited && sink.accepts(leg.stream) &&
             store.Seen(leg.stream) != []
    ensures LegsOf(store, sink, visited + [leg.stream], legs + [leg])
  {
    var longer, stream := legs + [leg], leg.stream;
    forall s | s in visited + [stream] && sink.accepts(s) && store.Seen(s) != []
      ensures exists i :: 0 <= i < |longer| && longer[i].stream == s
    {
      if s == stream {
        assert longer[|legs|].stream == s;
      } else {
        var i :| 0 <= i < |legs| && legs[i].stream == s;
        assert longer[i].stream == s;
      }
    }
  }

  /** A driven stream joins the legs. */
  lemma LegJoins(store: Store, sink: SinkInfo, reset: bool, o: Marks, m: Marks, visited: seq<StreamId>, legs: seq<Leg>,
                 leg: Leg, v: Drive, after: Report)
    requires Underway(store, sink, reset, o, m, visited, legs, v.base) && v == DriveOf(store, v.key, leg.start, v.base, m.calls)
    requires v.key == Key(sink.id, leg.stream) && leg.stream !in visited && sink.accepts(leg.stream) && v.seen != []
    requires Beside(m, store.dispatcher.Now(), v.key) && Rows(v.rows, v.seen, v.start)
    requires StartsAt(store.dispatcher.Backend(), reset, m, sink.id, leg) && StreamDone(v, store.dispatcher, Ok(after))
    ensures Underway(store, sink, reset, o, store.dispatcher.Now(), visited + [leg.stream], legs + [leg], after)
  {
    hide Owed, Driven, TotalOwed, CallsTrue, Right, Rows, Truth, Handed, Acked, LegsOf, At, CursorAt, Excused, Blamed,
         StartsAt, Fresh, NoState, OnlyOn, Rest;
    CallsStayTrue(store, sink, o.calls, v, store.dispatcher.calls);
    LegListed(store, sink, visited, legs, leg);
    CallsLonger(store, sink, o.calls, m.calls);
    DrivenNow(v, store.dispatcher, after, |o.calls|);
    BlameGrows(store, sink, v, after, |o.calls|);
    LegCounted(store, legs, leg);
    Undisturbed(store, sink, reset, o, m, store.dispatcher.Now(), visited, legs, v.base, v.key, after.failures);
    SameStart(store.dispatcher.Backend(), reset, o, m, visited, sink, leg);
    OnlyOnOneMore(v, o.calls, visited, store.dispatcher.calls);
  }

  lemma SameStart(b: Backing, reset: bool, o: Marks, m: Marks, visited: seq<StreamId>, sink: SinkInfo, leg: Leg)
    requires StartsAt(b, reset, m, sink.id, leg) && Rest(sink, o, m, visited) && leg.stream !in visited
    ensures StartsAt(b, reset, o, sink.id, leg)
  {
    assert Fresh(m, o, Key(sink.id, leg.stream));
  }

  lemma OnlyOnOneMore(v: Drive, before: seq<Call>, visited: seq<StreamId>, calls: seq<Call>)
    requires OnlyOn(before, v.before, visited) && Handed(v, calls) && |before| <= |v.before|
    ensures OnlyOn(before, calls, visited + [v.key.stream])
  {
    hide Truth;
    forall i | |before| <= i < |calls| ensures calls[i].key.stream in visited + [v.key.stream] {
      if i < |v.before| {
        assert calls[i] == v.before[i];
      } else {
        assert Right(calls[|v.before| + (i - |v.before|)], v.key, v.rows[i - |v.before|], v.seen);
      }
    }
  }

  /** A stream whose drive is abandoned stops the call. */
  lemma LegStops(store: Store, sink: SinkInfo, reset: bool, o: Marks, m: Marks, visited: seq<StreamId>, legs: seq<Leg>,
                 leg: Leg, v: Drive, error: Error)
    requires Underway(store, sink, reset, o, m, visited, legs, v.base) && v == DriveOf(store, v.key, leg.start, v.base, m.calls)
    requires v.key == Key(sink.id, leg.stream) && leg.stream !in visited && sink.accepts(leg.stream)
    requires Beside(m, store.dispatcher.Now(), v.key) && Abandoned(v, store.dispatcher, error)
    requires StartsAt(store.dispatcher.Backend(), reset, m, sink.id, leg)
    ensures Stopped(store, sink, reset, o, store.dispatcher.Now(), visited, legs, v.base, leg, error)
  {
    hide Owed, TotalOwed, CallsTrue, Truth, LegsOf, Blamed, StartsAt, OnlyOn, Rest, Begun, LegDriven;
    Undisturbed(store, sink, reset, o, m, store.dispatcher.Now(), visited, legs, v.base, v.key, v.base.failures);
    SameStart(store.dispatcher.Backend(), reset, o, m, visited, sink, leg);
  }

  lemma CallsLonger(store: Store, sink: SinkInfo, before: seq<Call>, calls: seq<Call>)
    requires CallsTrue(store, sink, before, calls)
    ensures |before| <= |calls|
  {
  }

  /** A stream that is not accepted, or has no events, is passed over. */
  lemma Passed(store: Store, sink: SinkInfo, reset: bool, o: Marks, m: Marks, later: Marks, visited: seq<StreamId>,
        legs: seq<Leg>, report: Report, stream: StreamId)
    requires Underway(store, sink, reset, o, m, visited, legs, report) && stream !in visited
    requires !sink.accepts(stream) || store.Seen(stream) == []
    requires Beside(m, later, Key(sink.id, stream)) && later.calls == m.calls
    ensures Underway(store, sink, reset, o, later, visited + [stream], legs, report)
  {
    hide Truth, Begun, Rest, LegDriven, CallTrue, TotalOwed, Blamed;
    Undisturbed(store, sink, reset, o, m, later, visited, legs, report, Key(sink.id, stream), report.failures);
  }

  method CatchUpLeg(store: Store, sink: SinkInfo, stream: StreamId, reset: bool, report: Report,
                    ghost o: Marks, ghost visited: seq<StreamId>, ghost legs: seq<Leg>)
    returns (r: Result<Report>, ghost leg: Leg)
    requires store.Valid() && sink.accepts(stream) && stream !in visited
    requires Underway(store, sink, reset, o, store.dispatcher.Now(), visited, legs, report)
    modifies store.dispatcher`checkpoints, store.dispatcher`stored, store.dispatcher`calls
    ensures store.Valid() && leg.stream == stream && (r.Err? ==> store.Seen(stream) != [])
    ensures r.Ok? ==> Underway(store, sink, reset, o, store.dispatcher.Now(), visited + [stream],
                               if store.Seen(stream) == [] then legs else legs + [leg], r.value)
    ensures r.Err? ==> Stopped(store, sink, reset, o, store.dispatcher.Now(), visited, legs, report, leg, r.error)
  {
    hide HoldsSeen, Shaped, Replay, CacheOk, Truth, Answer, Owed, KeepsSeq, Right, Rows, Handed, Accounted, Excused, At,
         StartsAt, Underway, Stopped, Lost;
    var key := Key(sink.id, stream);
    ghost var m := store.dispatcher.Now();
    r, leg := CatchUpStream(store, key, reset, report);
    if store.Seen(stream) == [] {
      Passed(store, sink, reset, o, m, store.dispatcher.Now(), visited, legs, report, stream);
    } else {
      ghost var v := DriveOf(store, key, leg.start, report, m.calls);
      OwedAreRows(store.upcasters, store.events.Log(stream), store.events.History(stream), store.events.BoundaryOf(stream),
          leg.start);
      if r.Err? {
        LegStops(store, sink, reset, o, m, visited, legs, leg, v, r.error);
      } else {
        LegJoins(store, sink, reset, o, m, visited, legs, leg, v, r.value);
      }
    }
  }

  lemma NothingOwed(store: Store, sink: SinkInfo, reset: bool, o: Marks)
    ensures Underway(store, sink, reset, o, o, [], [], EMPTY)
  {
  }

  lemma Fresher(streams: seq<StreamId>, i: nat)
    requires i < |streams| && forall i, j :: 0 <= i < j < |streams| ==> streams[i] != streams[j]
    ensures streams[i] !in streams[..i]
  {
  }

  /** What a catch-up call went through: the streams as listed, the legs it began, and its report when it ended. */
  datatype Course = Course(streams: seq<StreamId>, legs: seq<Leg>, report: Report)

  /**
   * What a catch-up call has done. Every stream with events is listed, once.
   * If it was not given up, every accepted one is dealt with. If it was, that
   * was at the last leg begun: the streams listed before it are dealt with,
   * and those listed after it are untouched.
   */
  ghost predicate CaughtUp(store: Store, sink: SinkInfo, reset: bool, o: Marks, u: Course, r: Result<Report>)
    reads store.events, store.dispatcher
  {
    && (forall s :: store.Seen(s) != [] ==> s in u.streams) && (forall i, j :: 0 <= i < j < |u.streams| ==>
         u.streams[i] != u.streams[j])
    && match r
       case Ok(report) => u.report == report && Dealt(store, sink, reset, o, store.dispatcher.Now(), u.streams, u.legs, report)
       case Err(error) =>
         && u.legs != []
         && exists i :: GivenUpAt(store, sink, reset, o, store.dispatcher.Now(), u, i, error)
  }

  ghost predicate GivenUpAt(store: Store, sink: SinkInfo, reset: bool, o: Marks, m: Marks, u: Course, i: int, error: Error)
    requires u.legs != []
    reads store.events, store.dispatcher`keeper
  {
    var last := u.legs[|u.legs| - 1];
    && 0 <= i < |u.streams| && u.streams[i] == last.stream
    && Stopped(store, sink, reset, o, m, u.streams[..i], u.legs[..|u.legs| - 1], u.report, last, error)
  }

  lemma AllListed(store: Store, streams: seq<StreamId>)
    requires store.Valid() && forall s :: s in streams <==> s in store.events.logs
    ensures forall s :: store.Seen(s) != [] ==> s in streams
  {
    hide Replay, CacheOk, Truth, Numbered;
    forall s | store.Seen(s) != [] ensures s in streams {
      assert Shaped(store.events.Log(s), store.events.History(s), store.events.BoundaryOf(s));
    }
  }

  /**
   * Every stream in turn. A stream that fails is reported and left; the others
   * are still driven. The whole call is given up where a stream's history has
   * no state at the very row its drive would begin with.
   */
  method CatchUpInner(store: Store, sinkId: SinkId, reset: bool) returns (r: Result<Report>, ghost u: Course)
    requires store.Valid()
    modifies store.dispatcher`checkpoints, store.dispatcher`stored, store.dispatcher`calls
    ensures store.Valid()
    ensures match Lookup(store.dispatcher.sinks, sinkId)
            case None => r == Ok(EMPTY) && u.legs == [] && Quiet(store.dispatcher)
            case Some(sink) => CaughtUp(store, sink, reset, old(store.dispatcher.Now()), u, r)
    ensures r.Err? <==> exists i :: 0 <= i < |u.legs| && Lost(store, u.legs[i])
  {
    hide HoldsSeen, Shaped, Replay, CacheOk, Truth, KeepsSeq, Dealt, Rest, Lookup, Stopped, Lost;
    u := Course([], [], EMPTY);
    var found := store.dispatcher.FindSink(sinkId);
    if found.None? { return Ok(EMPTY), u; }
    ghost var o := store.dispatcher.Now();
    NothingOwed(store, found.value, reset, o);
    var streams := store.events.Streams();
    AllListed(store, streams);
    u := u.(streams := streams);
    var report := EMPTY;
    for i := 0 to |streams|
      invariant store.Valid() && Underway(store, found.value, reset, o, store.dispatcher.Now(), streams[..i], u.legs, report)
      invariant u.streams == streams && u.report == report
    {
      Fresher(streams, i);
      assert streams[..i + 1] == streams[..i] + [streams[i]];
      if found.value.accepts(streams[i]) {
        var next, leg := CatchUpLeg(store, found.value, streams[i], reset, report, o, streams[..i], u.legs);
        if next.Err? {
          assert (u.legs + [leg])[..|u.legs|] == u.legs;
          u := u.(legs := u.legs + [leg]);
          assert GivenUpAt(store, found.value, reset, o, store.dispatcher.Now(), u, i, next.error);
          GivenUpExactly(store, found.value, reset, o, u, Err(next.error));
          return Err(next.error), u;
        }
        report := next.value;
        u := u.(legs := if store.Seen(streams[i]) == [] then u.legs else u.legs + [leg], report := report);
      } else {
        Passed(store, found.value, reset, o, store.dispatcher.Now(), store.dispatcher.Now(), streams[..i], u.legs, report,
            streams[i]);
      }
    }
    assert streams[..|streams|] == streams;
    GivenUpExactly(store, found.value, reset, o, u, Ok(report));
    return Ok(report), u;
  }

  /** The call is given up if and only if it began a leg whose first row has no state. */
  lemma GivenUpExactly(store: Store, sink: SinkInfo, reset: bool, o: Marks, u: Course, r: Result<Report>)
    requires CaughtUp(store, sink, reset, o, u, r)
    ensures r.Err? <==> exists i :: 0 <= i < |u.legs| && Lost(store, u.legs[i])
  {
    hide Lost, CallsTrue, LegsOf, LegsDone, StartsAt, Rest, Truth, Owed;
    if r.Err? {
      var i :| GivenUpAt(store, sink, reset, o, store.dispatcher.Now(), u, i, r.error);
      assert Lost(store, u.legs[|u.legs| - 1]);
    }
  }

  /**
   * A leg is lost exactly where its checkpoint lies below the head, not below the
   * boundary, and the next coordinate has no state.
   */
  lemma LostIs(store: Store, leg: Leg)
    requires store.Valid()
    ensures Lost(store, leg) <==>
              && store.events.BoundaryOf(leg.stream) <= leg.start < |store.Seen(leg.stream)|
              && Truth(store.Seen(leg.stream), leg.start + 1).Err?
  {
    hide Replay, CacheOk, KeepsSeq, Owed;
    var log, history, boundary := store.events.Log(leg.stream), store.events.History(leg.stream),
        store.events.BoundaryOf(leg.stream);
    assert HoldsSeen(store.upcasters, log, history, boundary);
    OwedAreRows(store.upcasters, log, history, boundary, leg.start);
    OwedCount(store.upcasters, log, history, boundary, leg.start);
  }

  lemma OwedCount(chain: seq<Upcaster>, log: seq<Event>, history: seq<Event>, boundary: nat, start: nat)
    requires Shaped(log, history, boundary)
    ensures |Owed(chain, log, start)| ==
            if start >= |history| then 0 else if start < boundary then |history| + 1 - boundary else |history| - start
  {
    hide Replay;
    ShapedNumbered(log, history, boundary);
    FromNumbered(log, if boundary == 0 then 1 else boundary, start + 1);
  }

  /**
   * A catch-up whose drives all begin at zero is given up if and only if some
   * accepted, uncompacted stream's very first event does not apply.
   */
  lemma GivenUpFromZero(store: Store, sink: SinkInfo, reset: bool, o: Marks, u: Course, r: Result<Report>)
    requires store.Valid() && CaughtUp(store, sink, reset, o, u, r)
    requires forall i :: 0 <= i < |u.legs| ==> u.legs[i].start == 0
    ensures r.Err? <==>
              exists s :: sink.accepts(s) && store.Seen(s) != [] && store.events.BoundaryOf(s) == 0
                  && Truth(store.Seen(s), 1).Err?
  {
    hide Lost, CallsTrue, LegsDone, StartsAt, Rest, Truth, Owed, HoldsSeen, CacheOk, KeepsSeq, OnlyOn, UpcastAll, Begun;
    GivenUpExactly(store, sink, reset, o, u, r);
    forall i | 0 <= i < |u.legs| ensures Lost(store, u.legs[i]) <==>
        store.events.BoundaryOf(u.legs[i].stream) == 0 && store.Seen(u.legs[i].stream) != [] &&
            Truth(store.Seen(u.legs[i].stream), 1).Err?
    {
      LostIs(store, u.legs[i]);
    }
    if r.Err? {
      var i :| GivenUpAt(store, sink, reset, o, store.dispatcher.Now(), u, i, r.error);
      var last := u.legs[|u.legs| - 1];
      assert Lost(store, last) && sink.accepts(last.stream);
    } else if s :| sink.accepts(s) && store.Seen(s) != [] && store.events.BoundaryOf(s) == 0 && Truth(store.Seen(s), 1).Err? {
      var i := LegOf(store, sink, reset, o, u, r.value, s);
    }
  }

  /** A store without gates, the first event of "a" does not apply, and "b" is healthy. */
  ghost predicate BadFirst(store: Store)
    reads store.events
  {
    && store.gates == [] && store.upcasters == []
    && |store.Seen("a")| == 1 && Truth(store.Seen("a"), 1).Err?
    && |store.Seen("b")| == 1 && Truth(store.Seen("b"), 1) == Ok(Number(1))
    && store.events.BoundaryOf("a") == 0
  }

  method WriteBadFirst() returns (store: Store)
    ensures store.Valid() && BadFirst(store) && fresh(store.dispatcher)
    ensures store.dispatcher.sinks == [] && store.dispatcher.calls == [] && store.dispatcher.checkpoints == map[] &&
            !store.dispatcher.durable
  {
    hide HoldsSeen, Shaped, Replay, CacheOk, KeepsSeq, Truth;
    NoChain([]);
    store := new Store([], [], 0, None, false, map[], Keeper(_ => true, (_, _) => true, _ => true));
    WriteFirst(store, "a", [Remove(["x"])]);
    WriteFirst(store, "b", [Add([], Number(1))]);
    assert Apply(Null, [Remove(["x"])]) == None;
    assert [Add([], Number(1))][1..] == [];
    assert Apply(Null, [Add([], Number(1))]) == Some(Number(1));
  }

  /** One event on an empty stream of a store with no gates, sinks or cache. */
  method WriteFirst(store: Store, stream: StreamId, patch: Patch)
    requires store.Valid() && store.gates == [] && store.upcasters == [] && store.stride == 0 && store.dispatcher.sinks == []
    requires store.events.History(stream) == []
    modifies store.events, store.cache, store.dispatcher
    ensures store.Valid() && store.dispatcher.sinks == [] && store.dispatcher.calls == old(store.dispatcher.calls)
    ensures store.dispatcher.checkpoints == old(store.dispatcher.checkpoints)
    ensures forall s :: s != stream ==> store.events.History(s) == old(store.events.History(s))
    ensures store.events.boundaries == old(store.events.boundaries) && |store.events.History(stream)| == 1
    ensures Truth(store.Seen(stream), 1) == match Apply(Null,
            patch) case None => Err(PatchFailed(1)) case Some(state) => Ok(state)
  {
    hide HoldsSeen, Shaped, Replay, CacheOk, KeepsSeq, Truth;
    Nothing(store.Seen(stream));
    var r := store.WriteEventLocked(stream, "edit", patch, Null, Append, 0, Luck(true, true, true));
    var event := Event(1, "edit", patch, Null, 0);
    assert store.events.History(stream) == [event];
    NoChain([event]);
    OneEvent(event);
  }

  lemma OneEvent(e: Event)
    ensures Truth([e], 1) == match Apply(Null, e.patch) case None => Err(PatchFailed(e.seqNo)) case Some(state) => Ok(state)
  {
    assert [e][..1] == [e] && [e][..0] == [];
    assert Replay(Null, []) == Ok(Null);
  }

  /**
   * The isolation that fails, on that input: attaching a sink that wants both
   * streams returns an error, and where "a" is listed first, "b" never reaches
   * the sink.
   */
  method BadFirstEvent() returns (store: Store, r: Result<()>, ghost u: Course)
    ensures store.Valid() && BadFirst(store) && |store.dispatcher.sinks| == 1 && store.dispatcher.sinks[0].accepts("b")
    ensures r.Err? && "b" in u.streams && (u.streams[0] == "a" ==> store.dispatcher.calls == [])
  {
    hide CaughtUp, Truth, HoldsSeen, CacheOk, KeepsSeq, Lookup;
    store := WriteBadFirst();
    var sink := SinkInfo("s", (s: StreamId) => true, false);
    ghost var report;
    ghost var o := store.dispatcher.Now();
    r, report, u := AttachSink(store, sink);
    BadFirstGivesUp(store, sink, o, u, report);
  }

  lemma BadFirstGivesUp(store: Store, sink: SinkInfo, o: Marks, u: Course, r: Result<Report>)
    requires store.Valid() && BadFirst(store) && CaughtUp(store, sink, false, o, u, r) && sink.accepts("a")
    requires o.calls == [] && o.checkpoints == map[] && !store.dispatcher.durable
    ensures r.Err? && "b" in u.streams && (u.streams[0] == "a" ==> store.dispatcher.calls == [])
  {
    hide Truth, HoldsSeen, CacheOk, KeepsSeq, LegsDone, Lost, Rest, LegsOf, CallsTrue, Owed, UpcastAll;
    forall leg: Leg | leg.stream == "a" && leg.start == 0 ensures Lost(store, leg) {
      LostIs(store, leg);
    }
    var m := store.dispatcher.Now();
    DealtNotLost(store, sink, false, o, m, u.streams, u.legs, u.report, "a");
    if r.Err? {
      var i :| GivenUpAt(store, sink, false, o, m, u, i, r.error);
      DealtNotLost(store, sink, false, o, m, u.streams[..i], u.legs[..|u.legs| - 1], u.report, "a");
      assert |m.calls| > 0 ==> m.calls[0].key.stream in u.streams[..i];
      assert i > 0 ==> u.streams[..i][0] == u.streams[0];
    }
  }

  lemma DealtNotLost(store: Store, sink: SinkInfo, reset: bool, o: Marks, m: Marks, visited: seq<StreamId>, legs: seq<Leg>,
        report: Report,
                     stream: StreamId)
    requires sink.accepts(stream) && store.Seen(stream) != []
    ensures Dealt(store, sink, reset, o, m, visited, legs, report) && stream in visited ==>
              exists leg: Leg :: leg.stream == stream
                  && StartsAt(store.dispatcher.Backend(), reset, o, sink.id, leg) && !Lost(store, leg)
  {
    hide CallsTrue, LegsDone, OnlyOn, Lost, StartsAt;
    if Dealt(store, sink, reset, o, m, visited, legs, report) && stream in visited {
      var i :| 0 <= i < |legs| && legs[i].stream == stream;
      assert legs[i].stream == stream && StartsAt(store.dispatcher.Backend(), reset, o, sink.id, legs[i])
             && !Lost(store, legs[i]);
    }
  }

  /**
   * What a given-up call leaves: the streams listed before are dealt with, and one
   * listed after had no call and keeps its checkpoint.
   */
  lemma GivenUpLeavesRest(store: Store, sink: SinkInfo, reset: bool, o: Marks, u: Course, error: Error, i: nat, j: nat)
    requires CaughtUp(store, sink, reset, o, u, Err(error)) && i < j < |u.streams| &&
             u.streams[i] == u.legs[|u.legs| - 1].stream
    ensures Dealt(store, sink, reset, o, store.dispatcher.Now(), u.streams[..i], u.legs[..|u.legs| - 1], u.report)
    ensures Fresh(store.dispatcher.Now(), o, Key(sink.id, u.streams[j]))
    ensures forall n :: |o.calls| <= n < |store.dispatcher.calls| ==> store.dispatcher.calls[n].key.stream != u.streams[j]
  {
    hide Lost, CallsTrue, LegsOf, LegsDone, StartsAt, Fresh, Truth, Owed, Begun;
    var k :| GivenUpAt(store, sink, reset, o, store.dispatcher.Now(), u, k, error);
    assert k == i;
    assert u.streams[j] !in u.streams[..i] + [u.streams[i]];
  }

  /**
   * Catch-up; the first one in a process for a sink that starts empty is a
   * rebuild. The mark is set for an id that is not registered, too, so such a
   * sink registered later is not rebuilt.
   */
  method CatchUp(store: Store, sinkId: SinkId) returns (r: Result<Report>, ghost u: Course)
    requires store.Valid()
    modifies store.dispatcher`checkpoints, store.dispatcher`stored, store.dispatcher`calls, store.dispatcher`rebuilt
    ensures store.Valid()
    ensures match Lookup(store.dispatcher.sinks, sinkId)
            case None => r == Ok(EMPTY) && u.legs == [] && Quiet(store.dispatcher)
            case Some(sink) =>
              CaughtUp(store, sink, sink.requiresRebuild && sinkId !in old(store.dispatcher.rebuilt),
                       old(store.dispatcher.Now()), u, r)
    ensures store.dispatcher.rebuilt ==
            if r.Ok? then old(store.dispatcher.rebuilt) + {sinkId} else old(store.dispatcher.rebuilt)
  {
    hide CaughtUp, Lookup, HoldsSeen, CacheOk, KeepsSeq;
    var found := store.dispatcher.FindSink(sinkId);
    var reset := found.Some? && found.value.requiresRebuild && sinkId !in store.dispatcher.rebuilt;
    r, u := CatchUpInner(store, sinkId, reset);
    if r.Ok? { MarkRebuilt(store, sinkId, reset, old(store.dispatcher.Now()), u, r); }
  }

  method MarkRebuilt(store: Store, sinkId: SinkId, ghost reset: bool, ghost o: Marks, ghost u: Course, ghost r: Result<Report>)
    requires store.Valid()
    modifies store.dispatcher`rebuilt
    ensures store.Valid() && store.dispatcher.rebuilt == old(store.dispatcher.rebuilt) + {sinkId}
    ensures forall sink :: old(CaughtUp(store, sink, reset, o, u, r)) ==> CaughtUp(store, sink, reset, o, u, r)
  {
    hide HoldsSeen, Shaped, CacheOk, KeepsSeq, Dealt, GivenUpAt;
    store.dispatcher.rebuilt := store.dispatcher.rebuilt + {sinkId};
    forall sink | old(CaughtUp(store, sink, reset, o, u, r)) ensures CaughtUp(store, sink, reset, o, u, r) {
      if r.Err? {
        var i :| old(GivenUpAt(store, sink, reset, o, store.dispatcher.Now(), u, i, r.error));
        assert GivenUpAt(store, sink, reset, o, store.dispatcher.Now(), u, i, r.error);
      }
    }
  }

  method Rebuild(store: Store, sinkId: SinkId) returns (r: Result<Report>, ghost u: Course)
    requires store.Valid()
    modifies store.dispatcher`checkpoints, store.dispatcher`stored, store.dispatcher`calls, store.dispatcher`rebuilt
    ensures store.Valid()
    ensures match Lookup(store.dispatcher.sinks, sinkId)
            case None => r == Ok(EMPTY) && u.legs == [] && Quiet(store.dispatcher)
            case Some(sink) => CaughtUp(store, sink, true, old(store.dispatcher.Now()), u, r)
    ensures store.dispatcher.rebuilt ==
            if r.Ok? then old(store.dispatcher.rebuilt) + {sinkId} else old(store.dispatcher.rebuilt)
  {
    hide CaughtUp, Lookup, HoldsSeen, CacheOk, KeepsSeq;
    r, u := CatchUpInner(store, sinkId, true);
    if r.Ok? { MarkRebuilt(store, sinkId, true, old(store.dispatcher.Now()), u, r); }
  }

  /** Register first, then catch up. A sink whose catch-up is given up stays registered. */
  method AttachSink(store: Store, sink: SinkInfo) returns (r: Result<()>, ghost report: Result<Report>, ghost u: Course)
    requires store.Valid()
    modifies store.dispatcher`sinks, store.dispatcher`checkpoints, store.dispatcher`stored, store.dispatcher`calls,
             store.dispatcher`rebuilt
    ensures store.Valid()
    ensures var d := store.dispatcher;
            if Lookup(old(d.sinks), sink.id).Some? then r == Err(SinkAlreadyAttached) && d.sinks == old(d.sinks) && Quiet(d)
            else
              && d.sinks == old(d.sinks) + [sink]
              && CaughtUp(store, sink, sink.requiresRebuild && sink.id !in old(d.rebuilt), old(d.Now()), u, report)
              && r == match report case Ok(_) => Ok(()) case Err(error) => Err(error)
  {
    hide CaughtUp, HoldsSeen, CacheOk, KeepsSeq;
    report, u := Ok(EMPTY), Course([], [], EMPTY);
    LookupLast(store.dispatcher.sinks, sink);
    r := store.dispatcher.Attach(sink);
    if r.Ok? {
      var caught, driven := CatchUp(store, sink.id);
      report, u := caught, driven;
      if caught.Err? { r := Err(caught.error); }
    }
  }

  lemma {:induction false} LookupLast(sinks: seq<SinkInfo>, sink: SinkInfo)
    ensures Lookup(sinks, sink.id).None? ==> Lookup(sinks + [sink], sink.id) == Some(sink)
    decreases |sinks|
  {
    if sinks != [] {
      LookupLast(sinks[1..], sink);
      assert (sinks + [sink])[1..] == sinks[1..] + [sink];
    }
  }

  // ---- what a report means ------------------------------------------------------------

  /**
   * With no call refused, no checkpoint write reported lost, and every history
   * replayable, catch-up applies every owed row and leaves every checkpoint at
   * or past the head.
   */
  lemma HealthyCatchUp(store: Store, sink: SinkInfo, reset: bool, o: Marks, u: Course, r: Result<Report>)
    requires CaughtUp(store, sink, reset, o, u, r)
    requires forall s, n :: store.dispatcher.Backend().Persists(Key(sink.id, s), n)
    requires forall i :: |o.calls| <= i < |store.dispatcher.calls| ==> store.dispatcher.calls[i].ok
    requires forall s, n :: sink.accepts(s) && 1 <= n <= |store.Seen(s)| ==> Truth(store.Seen(s), n).Ok?
    ensures r == Ok(Report(TotalOwed(store, u.legs), 0, 0, []))
    ensures forall i :: 0 <= i < |u.legs| ==>
              At(store.dispatcher, Key(sink.id, u.legs[i].stream), Max(u.legs[i].start, |store.Seen(u.legs[i].stream)|))
  {
    hide Truth, Owed, CallTrue, Real, Begun, Stopped;
    NotGivenUp(store, sink, reset, o, u, r);
    if u.report.failures != [] {
      RealIsOutside(store, sink, store.dispatcher.calls, |o.calls|, u.report.failures[0]);
    }
    forall i | 0 <= i < |u.legs|
      ensures At(store.dispatcher, Key(sink.id, u.legs[i].stream), Max(u.legs[i].start, |store.Seen(u.legs[i].stream)|))
    {
      assert LegDriven(store, store.dispatcher.Now(), Key(sink.id, u.legs[i].stream), u.legs[i].start, |o.calls|,
             u.report.failures);
    }
  }

  lemma NotGivenUp(store: Store, sink: SinkInfo, reset: bool, o: Marks, u: Course, r: Result<Report>)
    requires CaughtUp(store, sink, reset, o, u, r)
    requires forall s, n :: sink.accepts(s) && 1 <= n <= |store.Seen(s)| ==> Truth(store.Seen(s), n).Ok?
    ensures r.Ok?
  {
  }

  /** After a reset a drive begins at zero, unless the zero was not stored and the backend kept a row. */
  lemma ResetStartsAtZero(store: Store, sink: SinkInfo, o: Marks, u: Course, report: Report, i: nat)
    requires CaughtUp(store, sink, true, o, u, Ok(report)) && i < |u.legs|
    ensures u.legs[i].start ==
            var b, key := store.dispatcher.Backend(), Key(sink.id, u.legs[i].stream);
            if !b.Zeroes(key) && b.Loads(key) && key in o.stored then o.stored[key] else 0
  {
    hide CallsTrue, LegsDone, LegsOf, OnlyOn, Lost;
  }

  lemma LegOf(store: Store, sink: SinkInfo, reset: bool, o: Marks, u: Course, report: Report,
        stream: StreamId) returns (i: nat)
    requires CaughtUp(store, sink, reset, o, u, Ok(report)) && sink.accepts(stream) && store.Seen(stream) != []
    ensures i < |u.legs| && u.legs[i].stream == stream
  {
    hide CallsTrue, LegsDone, Begun, OnlyOn;
    i :| 0 <= i < |u.legs| && u.legs[i].stream == stream;
  }

  /** A stream driven from zero without a failure was handed over whole. */
  lemma DriveFromZeroIsWhole(store: Store, sink: SinkInfo, reset: bool, o: Marks, u: Course, report: Report, i: nat, n: nat)
    requires store.Valid() && CaughtUp(store, sink, reset, o, u, Ok(report)) && i < |u.legs| && u.legs[i].start == 0
    requires (forall f :: f in report.failures ==> f.stream != u.legs[i].stream) && n < |store.events.Log(u.legs[i].stream)|
    ensures var stream := u.legs[i].stream;
            Got(store.dispatcher.calls, |o.calls|, Key(sink.id, stream), Upcast(store.upcasters,
                store.events.Log(stream)[n]), store.Seen(stream))
  {
    hide Truth, Got, Replay, CallsTrue, CacheOk, Owed, HoldsSeen, KeepsSeq, Numbered, TotalOwed, Blamed, Begun, LegsOf, OnlyOn;
    var stream := u.legs[i].stream;
    var log, history, boundary := store.events.Log(stream), store.events.History(stream), store.events.BoundaryOf(stream);
    assert HoldsSeen(store.upcasters, log, history, boundary);
    OwedFromZero(store.upcasters, log, history, boundary);
    OwedAreRows(store.upcasters, log, history, boundary, 0);
    var rows := Owed(store.upcasters, log, 0);
    assert LegDriven(store, store.dispatcher.Now(), Key(sink.id, stream), 0, |o.calls|, report.failures);
    assert rows[n] in rows;
  }

  /**
   * Rebuild: with its resets stored and no failure on a stream, every row of
   * that stream was handed over with its true state, whatever checkpoints
   * memory and backend held before.
   */
  lemma RebuildIsWhole(store: Store, sink: SinkInfo, o: Marks, u: Course, report: Report, stream: StreamId, n: nat)
    requires store.Valid() && CaughtUp(store, sink, true, o, u, Ok(report)) && sink.accepts(stream)
    requires store.dispatcher.Backend().Zeroes(Key(sink.id, stream))
    requires (forall f :: f in report.failures ==> f.stream != stream) && n < |store.events.Log(stream)|
    ensures Got(store.dispatcher.calls, |o.calls|, Key(sink.id, stream), Upcast(store.upcasters,
            store.events.Log(stream)[n]), store.Seen(stream))
  {
    hide Truth, Got, CaughtUp, CacheOk, Owed, HoldsSeen, KeepsSeq, Replay;
    OwedFromZero(store.upcasters, store.events.Log(stream), store.events.History(stream), store.events.BoundaryOf(stream));
    var i := LegOf(store, sink, true, o, u, report, stream);
    ResetStartsAtZero(store, sink, o, u, report, i);
    DriveFromZeroIsWhole(store, sink, true, o, u, report, i, n);
  }

  lemma OwedFromZero(chain: seq<Upcaster>, log: seq<Event>, history: seq<Event>, boundary: nat)
    requires Shaped(log, history, boundary)
    ensures Owed(chain, log, 0) == UpcastAll(chain, log) && (log != [] <==> history != [])
  {
    hide Replay;
    ShapedNumbered(log, history, boundary);
    FromNumbered(log, if boundary == 0 then 1 else boundary, 1);
  }
}
