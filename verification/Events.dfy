/**
 * The event log of one stream, the reference meaning of a log, and the two
 * ways a log is read: by cache-nearest replay, and after a compaction has
 * replaced its prefix by a snapshot event.
 */
module Events {
  import opened Wrappers
  import opened Json

  const REVERT_KIND := "reverted"
  const SNAPSHOT_KIND := "compacted"
  const TOMBSTONE_KIND := "tombstoned"

  const CATCH_UP_BATCH: nat := 32

  type StreamId = string

  type SinkId = string

  /** What a checkpoint is kept for. */
  datatype Key = Key(sink: SinkId, stream: StreamId)

  datatype Event = Event(seqNo: nat, kind: string, patch: Patch, meta: Json, at: int)

  datatype NewEvent = NewEvent(kind: string, patch: Patch, meta: Json)

  datatype Committed = Committed(seqNo: nat, at: int)

  datatype Error =
    | UnknownStream
    | SeqOutOfRange(head: Option<nat>, requested: nat)
    | SeqCompacted(boundary: nat, requested: nat)
    | HeadConflict(expected: nat, actual: Option<nat>)
    | PatchFailed(seqNo: nat)
    | PatchRejected
    | SchemaRejected
    | SinkAlreadyAttached
    | InvalidFieldPath
    | InvalidRange
    | BackendFailed

  datatype Result<+T> = Ok(value: T) | Err(error: Error)

  /** One event applied to a state that may already have failed. */
  function Next(state: Result<Json>, event: Event): Result<Json> {
    match state
    case Err(_) => state
    case Ok(doc) =>
      match Apply(doc, event.patch)
      case None => Err(PatchFailed(event.seqNo))
      case Some(next) => Ok(next)
  }

  /** The reference semantics: patches applied in order, stopping at the first that fails. */
  function Replay(base: Json, events: seq<Event>): Result<Json> {
    if events == [] then Ok(base)
    else Next(Replay(base, events[..|events| - 1]), events[|events| - 1])
  }

  /** The patches of the first events take the base through these states, one event each, in order. */
  ghost predicate Through(base: Json, events: seq<Event>, states: seq<Json>) {
    && 1 <= |states| <= |events| + 1 && states[0] == base
    && forall i :: 0 <= i < |states| - 1 ==> Apply(states[i], events[i].patch) == Some(states[i + 1])
  }

  method ReplayFrom(base: Json, events: seq<Event>) returns (r: Result<Json>)
    ensures r == Replay(base, events)
    ensures exists states :: Through(base, events, states) &&
              if |states| == |events| + 1 then r == Ok(states[|events|])
              else Apply(states[|states| - 1], events[|states| - 1].patch) == None
                   && r == Err(PatchFailed(events[|states| - 1].seqNo))
  {
    var state := base;
    ghost var states := [base];
    for i := 0 to |events|
      invariant Replay(base, events[..i]) == Ok(state)
      invariant Through(base, events, states) && |states| == i + 1 && states[i] == state
    {
      assert events[..i + 1][..i] == events[..i];
      match Apply(state, events[i].patch) {
        case None =>
          ReplaySplit(base, events, i + 1);
          ReplayErr(base, events, i + 1);
          return Err(PatchFailed(events[i].seqNo));
        case Some(next) =>
          state := next;
          states := states + [next];
      }
    }
    assert events[..|events|] == events;
    return Ok(state);
  }

  lemma {:induction false} ReplaySplit(base: Json, events: seq<Event>, n: nat)
    requires n <= |events|
    ensures Replay(base, events) ==
            match Replay(base, events[..n]) case Err(e) => Err(e) case Ok(mid) => Replay(mid, events[n..])
    decreases |events|
  {
    if n == |events| {
      assert events[..n] == events;
    } else {
      var last := |events| - 1;
      ReplaySplit(base, events[..last], n);
      assert events[..last][..n] == events[..n];
      assert events[n..][..|events[n..]| - 1] == events[..last][n..];
    }
  }

  lemma ReplayErr(base: Json, events: seq<Event>, n: nat)
    requires n <= |events| && Replay(base, events[..n]).Err?
    ensures Replay(base, events) == Replay(base, events[..n])
  {
    ReplaySplit(base, events, n);
  }

  // ---- one stream's rows -------------------------------------------------

  ghost predicate Numbered(log: seq<Event>, first: nat) {
    forall i :: 0 <= i < |log| ==> log[i].seqNo == first + i
  }

  function Head(log: seq<Event>): Option<nat> {
    if log == [] then None else Some(log[|log| - 1].seqNo)
  }

  /** Rows with `seqNo >= from`, in log order. */
  function From(log: seq<Event>, from: nat): seq<Event> {
    if log == [] then []
    else if log[0].seqNo >= from then [log[0]] + From(log[1..], from)
    else From(log[1..], from)
  }

  function Read(log: seq<Event>, from: nat, limit: nat): seq<Event> {
    var rows := From(log, from);
    if |rows| <= limit then rows else rows[..limit]
  }

  /** The longest prefix of rows at or below `at`. */
  function UpTo(events: seq<Event>, at: nat): seq<Event> {
    if events == [] || events[0].seqNo > at then []
    else [events[0]] + UpTo(events[1..], at)
  }

  /** The stream is compacted iff its earliest row is of the snapshot kind. */
  function Boundary(log: seq<Event>): Option<nat> {
    if log != [] && log[0].kind == SNAPSHOT_KIND then Some(log[0].seqNo) else None
  }

  /** A log that begins with a revert or a tombstone is not taken for a compacted one. */
  lemma OnlySnapshotsBound(log: seq<Event>)
    requires log != [] && (log[0].kind == REVERT_KIND || log[0].kind == TOMBSTONE_KIND)
    ensures Boundary(log) == None
  {
  }

  /** `a - b`, never below zero. */
  function Monus(a: nat, b: nat): nat { if a <= b then 0 else a - b }

  function Min(a: nat, b: nat): nat { if a <= b then a else b }

  lemma {:induction false} FromNumbered(log: seq<Event>, first: nat, from: nat)
    requires Numbered(log, first)
    ensures From(log, from) == log[Min(Monus(from, first), |log|)..]
    decreases |log|
  {
    if log != [] {
      FromNumbered(log[1..], first + 1, from);
    }
  }

  lemma {:induction false} UpToNumbered(events: seq<Event>, first: nat, at: nat)
    requires Numbered(events, first)
    ensures UpTo(events, at) == events[..Min(Monus(at + 1, first), |events|)]
    decreases |events|
  {
    if events != [] && events[0].seqNo <= at {
      UpToNumbered(events[1..], first + 1, at);
      assert events[..Min(Monus(at + 1, first), |events|)]
          == [events[0]] + events[1..][..Min(Monus(at + 1, first + 1), |events[1..]|)];
    }
  }

  // ---- the meaning of a stream -------------------------------------------

  /** State after the first `n` events of a complete history. */
  ghost function Truth(history: seq<Event>, n: nat): Result<Json>
    requires n <= |history|
  {
    Replay(Null, history[..n])
  }

  lemma TruthStep(history: seq<Event>, n: nat)
    requires n < |history|
    ensures Truth(history, n + 1) == Next(Truth(history, n), history[n])
  {
    assert history[..n + 1][..n] == history[..n];
  }

  lemma TruthPrefix(history: seq<Event>, more: seq<Event>, n: nat)
    requires n <= |history|
    ensures Truth(history + more, n) == Truth(history, n)
  {
    assert (history + more)[..n] == history[..n];
  }

  function Snapshot(boundary: nat, state: Json, at: int): Event {
    Event(boundary, SNAPSHOT_KIND, [Add([], state)], Object(map["compacted_at_seq" := Number(boundary)]), at)
  }

  /**
   * The rows of `log` are those of `history`, with the events up to `boundary`
   * replaced by one snapshot row (`boundary == 0`: never compacted).
   */
  ghost predicate Shaped(log: seq<Event>, history: seq<Event>, boundary: nat) {
    && Numbered(history, 1)
    && boundary <= |history|
    && if boundary == 0 then log == history else
         && log != [] && log[0].seqNo == boundary && log[0].kind == SNAPSHOT_KIND
         && log[1..] == history[boundary..]
  }

  /** And the snapshot is the state the history has at the boundary. */
  ghost predicate Holds(log: seq<Event>, history: seq<Event>, boundary: nat) {
    && Shaped(log, history, boundary)
    && (boundary > 0 ==>
          && Truth(history, boundary).Ok?
          && log[0] == Snapshot(boundary, Truth(history, boundary).value, history[boundary - 1].at))
  }

  lemma ShapedNumbered(log: seq<Event>, history: seq<Event>, boundary: nat)
    requires Shaped(log, history, boundary)
    ensures boundary <= |history| && Numbered(log, if boundary == 0 then 1 else boundary)
    ensures |log| == if boundary == 0 then |history| else |history| - boundary + 1
    ensures Head(log) == if history == [] then None else Some(|history|)
    ensures boundary > 0 ==> Boundary(log) == Some(boundary)
    ensures boundary == 0 && Boundary(log).Some? ==> Boundary(log) == Some(1)
  {
    if boundary > 0 {
      assert log == [log[0]] + history[boundary..];
    }
  }

  lemma ShapedAppend(log: seq<Event>, history: seq<Event>, boundary: nat, e: Event)
    requires Shaped(log, history, boundary) && e.seqNo == |history| + 1
    ensures Shaped(log + [e], history + [e], boundary)
  {
    if boundary > 0 {
      assert (history + [e])[boundary..] == history[boundary..] + [e];
      assert (log + [e])[1..] == log[1..] + [e];
    }
  }

  lemma ShapedAfter(log: seq<Event>, history: seq<Event>, boundary: nat, upTo: nat, state: Json, at: int)
    requires Shaped(log, history, boundary) && 1 <= upTo <= |history| && boundary <= upTo
    ensures Shaped([Snapshot(upTo, state, at)] + From(log, upTo + 1), history, upTo)
  {
    hide Replay;
    ShapedNumbered(log, history, boundary);
    var first := if boundary == 0 then 1 else boundary;
    FromNumbered(log, first, upTo + 1);
    if boundary > 0 {
      var rest := history[boundary..];
      assert log == [log[0]] + rest;
      assert log[upTo + 1 - first..] == rest[upTo - boundary..];
    }
  }

  lemma HoldsNumbered(log: seq<Event>, history: seq<Event>, boundary: nat)
    requires Holds(log, history, boundary)
    ensures boundary <= |history| && Numbered(log, if boundary == 0 then 1 else boundary)
    ensures |log| == if boundary == 0 then |history| else |history| - boundary + 1
    ensures Head(log) == if history == [] then None else Some(|history|)
    ensures boundary > 0 ==> Boundary(log) == Some(boundary)
    ensures boundary == 0 && Boundary(log).Some? ==> Boundary(log) == Some(1)
  {
    hide Replay;
    ShapedNumbered(log, history, boundary);
  }

  lemma HoldsAppend(log: seq<Event>, history: seq<Event>, boundary: nat, e: Event)
    requires Holds(log, history, boundary) && e.seqNo == |history| + 1
    ensures Holds(log + [e], history + [e], boundary)
  {
    ShapedAppend(log, history, boundary, e);
    if boundary > 0 {
      TruthPrefix(history, [e], boundary);
    }
  }

  /** What is left of the rows after a compaction to `upTo`. */
  lemma RowsAfter(log: seq<Event>, history: seq<Event>, boundary: nat, upTo: nat)
    requires Holds(log, history, boundary) && 1 <= upTo <= |history| && boundary <= upTo && Truth(history, upTo).Ok?
    ensures Holds([Snapshot(upTo, Truth(history, upTo).value, history[upTo - 1].at)] + From(log, upTo + 1), history, upTo)
  {
    hide Replay;
    ShapedAfter(log, history, boundary, upTo, Truth(history, upTo).value, history[upTo - 1].at);
  }

  /** Every row but a snapshot is the history's own event. */
  lemma LogRow(log: seq<Event>, history: seq<Event>, boundary: nat, first: nat, i: nat)
    requires Holds(log, history, boundary) && first == (if boundary == 0 then 1 else boundary) && i < |log|
    ensures log[i].seqNo == first + i && |log| == |history| + 1 - first
    ensures boundary == 0 || i > 0 ==> log[i] == history[first + i - 1]
  {
    hide Replay;
    HoldsNumbered(log, history, boundary);
  }

  lemma FirstRow(log: seq<Event>, history: seq<Event>, boundary: nat)
    requires Holds(log, history, boundary) && boundary > 0
    ensures log != [] && Truth(history, boundary).Ok?
    ensures log[0] == Snapshot(boundary, Truth(history, boundary).value, history[boundary - 1].at)
  {
  }

  /** The row a compaction takes its timestamp from is there, with the time its event was given. */
  lemma AnchorTime(log: seq<Event>, history: seq<Event>, boundary: nat, at: nat)
    requires Holds(log, history, boundary) && 1 <= at <= |history| && boundary <= at
    ensures Read(log, at, 1) != [] && Read(log, at, 1)[0].at == history[at - 1].at
  {
    hide Replay, From, Head, Boundary;
    HoldsNumbered(log, history, boundary);
    FromNumbered(log, if boundary == 0 then 1 else boundary, at);
  }

  /** The rows a replay from `from` up to `at` uses. */
  lemma RowsUsed(log: seq<Event>, first: nat, from: nat, at: nat)
    requires Numbered(log, first) && from <= at && first <= at < first + |log|
    ensures UpTo(Read(log, from, at - from + 1), at) == log[Monus(from, first)..at - first + 1]
  {
    FromNumbered(log, first, from);
    var skip := Monus(from, first);
    assert From(log, from) == log[skip..];
    var rows := Read(log, from, at - from + 1);
    assert Numbered(rows, first + skip);
    UpToNumbered(rows, first + skip, at);
    var n := at - first + 1 - skip;
    assert rows[..n] == log[skip..at - first + 1];
  }

  /** A snapshot replays to its own state from any base whatsoever. */
  lemma ReplaySnapshot(base: Json, boundary: nat, state: Json, at: int, rest: seq<Event>)
    ensures Replay(base, [Snapshot(boundary, state, at)] + rest) == Replay(state, rest)
  {
    var snapshot := Snapshot(boundary, state, at);
    var events := [snapshot] + rest;
    ReplaySplit(base, events, 1);
    assert events[..1] == [snapshot] && events[1..] == rest;
    assert [snapshot][..0] == [];
    assert snapshot.patch[1..] == [];
    assert Apply(base, snapshot.patch) == Some(state);
  }

  lemma TruthFrom(history: seq<Event>, start: nat, at: nat)
    requires start <= at <= |history| && Truth(history, start).Ok?
    ensures Truth(history, at) == Replay(Truth(history, start).value, history[start..at])
  {
    ReplaySplit(Null, history[..at], start);
    assert history[..at][..start] == history[..start];
    assert history[..at][start..] == history[start..at];
  }

  lemma RowsHeld(log: seq<Event>, history: seq<Event>, boundary: nat, from: nat, at: nat)
    requires Holds(log, history, boundary)
    requires 1 <= from <= at <= |history| && boundary <= at
    ensures UpTo(Read(log, from, at - from + 1), at) ==
            if from > boundary then history[from - 1..at] else [log[0]] + history[boundary..at]
  {
    HoldsNumbered(log, history, boundary);
    if boundary == 0 {
      RowsUsed(log, 1, from, at);
    } else {
      RowsUsed(log, boundary, from, at);
      SliceShifted(log, history, boundary, Monus(from, boundary), at);
    }
  }

  lemma SliceShifted(log: seq<Event>, history: seq<Event>, boundary: nat, skip: nat, at: nat)
    requires 0 < boundary <= at <= |history| && |log| == |history| - boundary + 1
    requires log[1..] == history[boundary..] && skip <= at - boundary + 1
    ensures log[skip..at - boundary + 1] ==
            if skip > 0 then history[boundary + skip - 1..at] else [log[0]] + history[boundary..at]
  {
    assert log == [log[0]] + history[boundary..];
  }

  /**
   * Reading a log forward from a correct state below `at` gives the correct
   * state at `at`, even when the base lies below the boundary, as long as
   * `at` itself does not: the snapshot overwrites whatever it is applied to.
   */
  lemma ReadTail(log: seq<Event>, history: seq<Event>, boundary: nat, base: Json, from: nat, at: nat)
    requires Holds(log, history, boundary)
    requires 1 <= from <= at <= |history| && boundary <= at
    requires Truth(history, from - 1) == Ok(base)
    ensures Replay(base, UpTo(Read(log, from, at - from + 1), at)) == Truth(history, at)
  {
    RowsHeld(log, history, boundary, from, at);
    if from > boundary {
      TruthFrom(history, from - 1, at);
    } else {
      TruthFrom(history, boundary, at);
      ReplaySnapshot(base, boundary, Truth(history, boundary).value, history[boundary - 1].at, history[boundary..at]);
    }
  }

  /** Below the boundary the same read applies nothing and returns its stale base. */
  lemma ReadTailBelow(log: seq<Event>, history: seq<Event>, boundary: nat, base: Json, from: nat, at: nat)
    requires Holds(log, history, boundary)
    requires 1 <= from <= at < boundary
    ensures Replay(base, UpTo(Read(log, from, at - from + 1), at)) == Ok(base)
  {
    HoldsNumbered(log, history, boundary);
    FromNumbered(log, boundary, from);
  }
}
