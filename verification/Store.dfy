/**
 * The Store facade for one process: reads, the write critical section, revert
 * and delete, compaction, catch-up. Each method is one whole call; what
 * happens between the steps of concurrent calls is the matter of `SharedLog`
 * and `Delivery`.
 */
module Store {
  import opened Wrappers
  import opened Json
  import opened Events
  import opened Upcasting
  import opened Reads
  import opened Backends
  import opened Dispatcher

  datatype GateCtx = GateCtx(stream: StreamId, kind: string, patch: Patch, current: Json, next: Json)

  type Gate = GateCtx -> bool

  datatype WriteMode = Append | Import | IfHead(expected: nat)

  /** Which backend calls of one write work. */
  datatype Luck = Luck(append: bool, reread: bool, put: bool)

  /** A failed head check of `append_if_head` is reported as a conflict. */
  function Remapped(expected: nat, r: Result<Json>): Result<Json> {
    match r
    case Ok(_) => r
    case Err(SeqOutOfRange(head, _)) => Err(HeadConflict(expected, head))
    case Err(UnknownStream) => Err(HeadConflict(expected, None))
    case Err(_) => r
  }

  class Store {
    const events: EventBackend
    const cache: CacheBackend
    const dispatcher: SinkDispatcher
    const gates: seq<Gate>
    const upcasters: seq<Upcaster>
    const stride: nat
    const keepLatest: Option<nat>

    constructor (gates: seq<Gate>, upcasters: seq<Upcaster>, stride: nat, keepLatest: Option<nat>,
                 durable: bool, stored: map<Key, nat>, keeper: Keeper)
      requires KeepsSeq(upcasters)
      ensures Valid() && fresh(events) && fresh(cache) && fresh(dispatcher)
      ensures forall s: StreamId :: events.History(s) == [] && events.BoundaryOf(s) == 0
      ensures dispatcher.sinks == [] && dispatcher.calls == [] && dispatcher.checkpoints == map[]
      ensures dispatcher.stored == stored && dispatcher.durable == durable && dispatcher.keeper == keeper
      ensures this.gates == gates && this.upcasters == upcasters && this.stride == stride && this.keepLatest == keepLatest
    {
      this.gates, this.upcasters, this.stride, this.keepLatest := gates, upcasters, stride, keepLatest;
      events := new EventBackend();
      cache := new CacheBackend();
      dispatcher := new SinkDispatcher(durable, stored, keeper);
      new;
      HoldsUncompacted(upcasters, []);
    }

    /** The stream's complete history as every reader sees it: upcasted. */
    ghost function Seen(stream: StreamId): seq<Event>
      reads events
    {
      UpcastAll(upcasters, events.History(stream))
    }

    ghost predicate Valid()
      reads events, cache, dispatcher
    {
      && events.Valid() && dispatcher.Valid() && KeepsSeq(upcasters)
      && (forall s: StreamId :: HoldsSeen(upcasters, events.Log(s), events.History(s), events.BoundaryOf(s)))
      && forall s: StreamId :: CacheOk(cache.Of(s), Seen(s))
    }

    /** What `state_at` must answer, said by the reference semantics alone. */
    ghost function Reference(stream: StreamId, at: nat): Result<Json>
      reads events
    {
      Answer(events.Log(stream), Seen(stream), at)
    }

    // ---- reading --------------------------------------------------------------------

    /** The upcasting decorator's `read`. */
    method ReadEvents(stream: StreamId, from: nat, limit: nat) returns (r: seq<Event>)
      ensures r == UpcastAll(upcasters, Read(events.Log(stream), from, limit))
    {
      var rows := Read(events.Log(stream), from, limit);
      r := [];
      for i := 0 to |rows|
        invariant r == UpcastAll(upcasters, rows[..i])
      {
        var e := UpcastOne(upcasters, rows[i]);
        r := r + [e];
      }
      assert rows[..|rows|] == rows;
    }

    /** The decorator's `read_by_meta`: the predicate sees the stored event, the caller the upcasted one. */
    method ReadByMeta(stream: StreamId, field: string, value: Json, from: nat, limit: nat) returns (r: seq<Event>)
      requires Valid()
      ensures r == UpcastAll(upcasters, FirstMatches(events.Log(stream), field, value, from, limit))
    {
      var rows := events.ReadByMeta(stream, field, value, from, limit);
      r := [];
      for i := 0 to |rows|
        invariant r == UpcastAll(upcasters, rows[..i])
      {
        var e := UpcastOne(upcasters, rows[i]);
        r := r + [e];
      }
      assert rows[..|rows|] == rows;
    }

    method StateAt(stream: StreamId, at: nat) returns (r: Result<Json>)
      requires Valid()
      ensures r == Reference(stream, at)
      ensures Seen(stream) == [] ==> r == Err(UnknownStream)
      ensures Seen(stream) != [] && at > |Seen(stream)| ==> r == Err(SeqOutOfRange(Some(|Seen(stream)|), at))
      ensures at < events.BoundaryOf(stream) ==> r == Err(SeqCompacted(events.BoundaryOf(stream), at))
      ensures 1 <= at <= |Seen(stream)| && events.BoundaryOf(stream) <= at ==> r == Truth(Seen(stream), at)
    {
      hide HoldsSeen, Shaped, Replay, CacheOk, Numbered;
      ShapedNumbered(events.Log(stream), events.History(stream), events.BoundaryOf(stream));
      ghost var log, history := events.Log(stream), events.History(stream);
      assert HoldsSeen(upcasters, log, history, events.BoundaryOf(stream));
      assert CacheOk(cache.Of(stream), UpcastAll(upcasters, history));
      StateAtIsTruth(upcasters, log, cache.Of(stream), history, events.BoundaryOf(stream), at);
      var head := Head(events.Log(stream));
      if head.None? { return Err(UnknownStream); }
      if at > head.value { return Err(SeqOutOfRange(head, at)); }
      var boundary := Boundary(events.Log(stream));
      if boundary.Some? && at < boundary.value { return Err(SeqCompacted(boundary.value, at)); }
      var (from, base) := Base(cache.Of(stream), at);
      if from > at { return Ok(base); }
      var rows := ReadEvents(stream, from, at - from + 1);
      r := ReplayFrom(base, UpTo(rows, at));
    }

    ghost function Current(stream: StreamId): Result<Json>
      reads events
    {
      Truth(Seen(stream), |Seen(stream)|)
    }

    method State(stream: StreamId) returns (r: Result<Json>)
      requires Valid()
      ensures r == Current(stream)
    {
      hide Replay, CacheOk;
      ShapedNumbered(events.Log(stream), events.History(stream), events.BoundaryOf(stream));
      var head := Head(events.Log(stream));
      if head.None? {
        Nothing(Seen(stream));
        return Ok(Null);
      }
      r := StateAt(stream, head.value);
    }

    /**
     * Streams whose most recent event, as read, is not a tombstone. A stream
     * compacted at its head counts as live: the snapshot took the tombstone's place.
     */
    method StreamsLive() returns (out: seq<StreamId>)
      requires Valid()
      ensures forall s: StreamId :: s in out <==> ListedLive(s)
      ensures forall i, j :: 0 <= i < j < |out| ==> out[i] != out[j]
    {
      hide HoldsSeen, Shaped, CacheOk, Replay;
      var all := events.Streams();
      out := [];
      for i := 0 to |all|
        invariant forall s :: s in out <==> s in all[..i] && ListedLive(s)
        invariant forall i, j :: 0 <= i < j < |out| ==> out[i] != out[j]
      {
        assert all[i] !in all[..i];
        var listed := HeadIsLive(all[i]);
        if listed {
          out := out + [all[i]];
        }
      }
      forall s: StreamId | ListedLive(s) ensures s in all {
        ShapedRows(events.Log(s), events.History(s), events.BoundaryOf(s));
      }
    }

    method HeadIsLive(stream: StreamId) returns (listed: bool)
      requires Valid()
      ensures listed == ListedLive(stream)
    {
      hide Replay, CacheOk;
      LastRow(events.Log(stream), events.History(stream), events.BoundaryOf(stream), upcasters);
      var head := Head(events.Log(stream));
      if head.None? { return false; }
      var rows := ReadEvents(stream, head.value, 1);
      return !(rows != [] && rows[0].kind == TOMBSTONE_KIND);
    }

    ghost predicate ListedLive(stream: StreamId)
      reads events
    {
      Seen(stream) != [] && (Live(Seen(stream)) || events.BoundaryOf(stream) == |Seen(stream)|)
    }

    // ---- writing ----------------------------------------------------------------------

    /** The state a write takes as current: the head state, or the state at the coordinate the caller expects. */
    ghost function Assumed(stream: StreamId, mode: WriteMode): Result<Json>
      reads events
    {
      match mode
      case IfHead(expected) => if expected == 0 then Ok(Null) else Remapped(expected, Reference(stream, expected))
      case _ => Current(stream)
    }

    method ReadAssumed(stream: StreamId, mode: WriteMode) returns (r: Result<Json>)
      requires Valid()
      ensures r == Assumed(stream, mode)
    {
      hide HoldsSeen, Shaped, CacheOk, Replay;
      match mode {
        case IfHead(expected) =>
          if expected == 0 { return Ok(Null); }
          var state := StateAt(stream, expected);
          r := Remapped(expected, state);
        case _ => r := State(stream);
      }
    }

    /** With no gate nobody looks at the patch; else each is shown the states before and after it. */
    method Admit(stream: StreamId, kind: string, patch: Patch, current: Json) returns (r: Result<Option<Json>>)
      ensures gates == [] ==> r == Ok(None)
      ensures gates != [] && Apply(current, patch).None? ==> r == Err(PatchRejected)
      ensures gates != [] && Apply(current, patch).Some? ==>
                var next := Apply(current, patch).value;
                && (r == Ok(Some(next)) <==>
                      forall i :: 0 <= i < |gates| ==>
                        gates[i](GateCtx(stream := stream, kind := kind, patch := patch, current := current, next := next)))
                && (r == Ok(Some(next)) || r == Err(SchemaRejected))
    {
      if gates == [] { return Ok(None); }
      match Apply(current, patch) {
        case None => return Err(PatchRejected);
        case Some(next) =>
          for i := 0 to |gates|
            invariant forall j :: 0 <= j < i ==> gates[j](GateCtx(stream, kind, patch, current, next))
          {
            if !gates[i](GateCtx(stream, kind, patch, current, next)) { return Err(SchemaRejected); }
          }
          return Ok(Some(next));
      }
    }

    /** Nothing at all has changed. */
    twostate predicate Untouched()
      reads events, cache, dispatcher
    {
      && events.logs == old(events.logs) && events.histories == old(events.histories) &&
           events.boundaries == old(events.boundaries)
      && cache.entries == old(cache.entries)
      && dispatcher.calls == old(dispatcher.calls) && dispatcher.checkpoints == old(dispatcher.checkpoints)
      && dispatcher.stored == old(dispatcher.stored) && dispatcher.sinks == old(dispatcher.sinks)
    }

    /** The stream grew by exactly this event. */
    twostate predicate Grew(stream: StreamId, event: Event)
      reads events
    {
      && events.logs == old(events.logs)[stream := old(events.Log(stream)) + [event]]
      && events.histories == old(events.histories)[stream := old(events.History(stream)) + [event]]
      && events.boundaries == old(events.boundaries)
    }

    /** The backend append, in the mode asked for. */
    method AppendRow(stream: StreamId, rec: NewEvent, mode: WriteMode, time: int, works: bool) returns (r: Result<Committed>)
      requires Valid()
      modifies events
      ensures Valid()
      ensures var n := |old(events.History(stream))|;
              if works && (mode.IfHead? ==> mode.expected == n)
              then r == Ok(Committed(n + 1, time)) && Grew(stream, Event(n + 1, rec.kind, rec.patch, rec.meta, time))
              else r.Err? && (works ==> r == Err(HeadConflict(mode.expected, Head(old(events.Log(stream)))))) && (!works ==>
                  r == Err(BackendFailed))
                   && events.logs == old(events.logs) && events.histories == old(events.histories) &&
                        events.boundaries == old(events.boundaries)
    {
      hide HoldsSeen, Shaped, Replay, CacheOk;
      if mode.IfHead? {
        r := events.AppendIfHead(stream, rec, mode.expected, time, works);
      } else {
        r := events.Append(stream, rec, time, works);
      }
      if r.Ok? {
        SeenAppend(upcasters, old(events.Log(stream)), old(events.History(stream)), old(events.BoundaryOf(stream)),
            Event(r.value.seqNo, rec.kind, rec.patch, rec.meta, time));
      }
      forall s: StreamId ensures HoldsSeen(upcasters, events.Log(s), events.History(s), events.BoundaryOf(s)) {
        assert old(HoldsSeen(upcasters, events.Log(s), events.History(s), events.BoundaryOf(s)));
      }
      CachesKept();
    }

    /** A longer history leaves every cached state right. */
    twostate lemma CachesKept()
      requires old(Valid()) && cache.entries == old(cache.entries) && events.Valid() &&
               dispatcher.sinks == old(dispatcher.sinks)
      requires forall s: StreamId :: old(events.History(s)) <= events.History(s)
      requires forall s: StreamId :: HoldsSeen(upcasters, events.Log(s), events.History(s), events.BoundaryOf(s))
      ensures Valid()
    {
      hide HoldsSeen, Shaped, Replay;
      forall s: StreamId ensures CacheOk(cache.Of(s), Seen(s)) {
        assert old(CacheOk(cache.Of(s), Seen(s)));
        CacheLonger(cache.Of(s), old(Seen(s)), Seen(s));
      }
    }

    /** The entry a write on the stride leaves in the cache, and what automatic pruning makes of it. */
    ghost predicate CacheAfter(before: Cache, after: Cache, at: nat, next: Json) {
      if stride == 0 || at % stride != 0 then after == before
      else if keepLatest.None? then after == before[at := next]
      else PrunedTo(before[at := next], after, keepLatest.value)
    }

    method CacheNext(stream: StreamId, at: nat, next: Json, works: bool) returns (ok: bool)
      requires Valid() && 1 <= at <= |Seen(stream)| && Truth(Seen(stream), at) == Ok(next)
      modifies cache
      ensures Valid()
      ensures forall s :: s != stream ==> cache.Of(s) == old(cache.Of(s))
      ensures ok ==> CacheAfter(old(cache.Of(stream)), cache.Of(stream), at, next)
      ensures !ok ==> cache.entries == old(cache.entries) && !works
    {
      hide HoldsSeen, Shaped, Replay, CacheOk, Truth;
      if stride == 0 || at % stride != 0 { return true; }
      ok := cache.Put(stream, at, next, works);
      EntriesOk(old(cache.Of(stream)), cache.Of(stream), Seen(stream), at, next);
      label put:
      if ok && keepLatest.Some? {
        cache.Prune(stream, keepLatest.value);
        EntriesOk(old@put(cache.Of(stream)), cache.Of(stream), Seen(stream), at, next);
      }
      forall s: StreamId ensures CacheOk(cache.Of(s), Seen(s)) {
        assert old(CacheOk(cache.Of(s), Seen(s)));
      }
    }

    /** What `state_at` will reconstruct at the new coordinate, from what is in hand. */
    method NextState(stream: StreamId, event: Event, current: Json, admitted: Option<Json>, reread: bool)
      returns (r: Result<(Json, Event)>)
      requires Valid() && events.History(stream) != [] && event == events.History(stream)[|events.History(stream)| - 1]
      requires events.BoundaryOf(stream) < |events.History(stream)|
      requires Truth(Seen(stream), |Seen(stream)| - 1) == Ok(current)
      requires admitted.Some? ==> Apply(current, event.patch) == admitted
      ensures r.Ok? ==> Truth(Seen(stream), |Seen(stream)|) == Ok(r.value.0) && r.value.1 == Upcast(upcasters, event)
      ensures r.Err? ==> !reread || Truth(Seen(stream), |Seen(stream)|).Err?
      ensures r.Err? ==> r.error == BackendFailed || r.error == PatchRejected
    {
      hide HoldsSeen, Shaped, Replay, CacheOk;
      var n := |events.Log(stream)|;
      ghost var seen := Seen(stream);
      TruthStep(seen, |seen| - 1);
      HeadRow(events.Log(stream), events.History(stream), events.BoundaryOf(stream));
      if upcasters != [] {
        if !reread { return Err(BackendFailed); }
        var rows := ReadEvents(stream, event.seqNo, 1);
        match Apply(current, rows[0].patch) {
          case None => return Err(PatchRejected);
          case Some(next) => return Ok((next, rows[0]));
        }
      }
      NoChain(events.History(stream));
      if admitted.Some? { return Ok((admitted.value, event)); }
      match Apply(current, event.patch) {
        case None => return Err(PatchRejected);
        case Some(next) => return Ok((next, event));
      }
    }

    /** Nothing downstream wants the state at this coordinate, so nobody computes it. */
    ghost predicate Idle(at: nat)
      reads dispatcher
    {
      (stride == 0 || at % stride != 0) && dispatcher.sinks == []
    }

    /** Everything a write does after its event is in the log. */
    method AfterCommit(stream: StreamId, event: Event, current: Json, admitted: Option<Json>,
          luck: Luck) returns (r: Result<()>)
      requires Valid() && events.History(stream) != [] && event == events.History(stream)[|events.History(stream)| - 1]
      requires events.BoundaryOf(stream) < |events.History(stream)|
      requires Truth(Seen(stream), |Seen(stream)| - 1) == Ok(current)
      requires admitted.Some? ==> Apply(current, event.patch) == admitted
      modifies cache, dispatcher
      ensures Valid() && dispatcher.sinks == old(dispatcher.sinks)
      ensures forall s :: s != stream ==> cache.Of(s) == old(cache.Of(s))
      ensures r.Ok? ==> Followed(stream, event, old(cache.Of(stream)), old(dispatcher.Now()))
      ensures dispatcher.keeper == old(dispatcher.keeper) && (r.Err? ==> dispatcher.Now() == old(dispatcher.Now()))
      ensures r.Err? ==> !luck.reread || !luck.put || Truth(Seen(stream), |Seen(stream)|).Err?
      ensures r.Err? ==> r.error == BackendFailed || r.error == PatchRejected
      ensures Idle(event.seqNo) ==> r.Ok? && dispatcher.checkpoints == old(dispatcher.checkpoints)
    {
      hide HoldsSeen, Shaped, Replay, CacheOk, KeepsSeq, Settled, Refused, CheckpointOf, Serves, InTurn;
      var at := event.seqNo;
      assert at == |Seen(stream)| by { HeadRow(events.Log(stream), events.History(stream), events.BoundaryOf(stream)); }
      var hit := stride > 0 && at % stride == 0;
      var hasSinks := dispatcher.sinks != [];
      if !hit && !hasSinks { return Ok(()); }
      var next := NextState(stream, event, current, admitted, luck.reread);
      if next.Err? { return Err(next.error); }
      var cached := CacheNext(stream, at, next.value.0, luck.put);
      if !cached { return Err(BackendFailed); }
      if hasSinks {
        if upcasters == [] && !luck.reread { return Err(BackendFailed); }
        ghost var turns := dispatcher.DispatchCommit(stream, at, next.value.0, next.value.1);
      }
      return Ok(());
    }

    /** Cache and sinks have followed the new event, with the state `state_at` gives for it. */
    ghost predicate Followed(stream: StreamId, event: Event, before: Cache, o: Marks)
      reads events, cache, dispatcher
    {
      var n := |Seen(stream)|;
      && (if stride > 0 && n % stride == 0
          then Truth(Seen(stream), n).Ok? && CacheAfter(before, cache.Of(stream), n, Truth(Seen(stream), n).value)
          else cache.Of(stream) == before)
      && (if dispatcher.sinks == [] then dispatcher.Now() == o
          else
            && Truth(Seen(stream), n).Ok? && o.calls <= dispatcher.calls
            && (forall i :: |o.calls| <= i < |dispatcher.calls| ==>
                  dispatcher.Proper(dispatcher.calls[i], stream, n, Truth(Seen(stream), n).value, Upcast(upcasters, event)))
            && (forall s :: s in dispatcher.sinks && s.accepts(stream) ==>
                  && dispatcher.Offered(Key(s.id, stream), n, |o.calls|)
                  && Settled(dispatcher.Backend(), o, dispatcher.Now(), dispatcher.calls[|o.calls|..], Key(s.id, stream), n))
            && dispatcher.notices == o.notices + Refused(dispatcher.calls[|o.calls|..]))
    }

    /** The backend takes the row: it works, and the head is the one expected. */
    ghost predicate Takes(stream: StreamId, mode: WriteMode, luck: Luck)
      reads events
    {
      luck.append && (mode.IfHead? ==> mode.expected == |events.History(stream)|)
    }

    /**
     * The write critical section. It is refused with the error of the read, with
     * `PatchRejected` if and only if there are gates and the patch does not apply,
     * and with `SchemaRejected` if and only if some gate rejects the states before
     * and after it; then nothing changes. Otherwise it goes on to the append: if
     * the backend takes the row the stream grows by exactly this event, and if
     * the call succeeds, cache and sinks have followed with the true state after it.
     */
    method WriteEventLocked(stream: StreamId, kind: string, patch: Patch, meta: Json, mode: WriteMode, time: int, luck: Luck)
      returns (r: Result<Committed>)
      requires Valid()
      modifies events, cache, dispatcher
      ensures Valid() && dispatcher.sinks == old(dispatcher.sinks)
      ensures old(Assumed(stream, mode)).Err? ==> r == Err(old(Assumed(stream, mode)).error) && Untouched()
      ensures mode.IfHead? && mode.expected > |old(events.History(stream))| ==>
                r == Err(HeadConflict(mode.expected, Head(old(events.Log(stream))))) && Untouched()
      ensures old(Assumed(stream, mode)).Ok? ==>
                var doc := old(Assumed(stream, mode)).value;
                var next := Apply(doc, patch);
                var rejected := gates != [] && next.None?;
                var refused :=
                  && next.Some?
                  && exists i ::
                       && 0 <= i < |gates|
                       && !gates[i](GateCtx(stream := stream, kind := kind, patch := patch, current := doc,
                                            next := next.value));
                && (rejected <==> r == Err(PatchRejected) && Untouched())
                && (refused <==> r == Err(SchemaRejected))
                && (refused ==> Untouched())
                && (!rejected && !refused && !old(Takes(stream, mode, luck)) ==>
                      && Untouched()
                      && r == Err(if luck.append then HeadConflict(mode.expected, Head(old(events.Log(stream))))
                                  else BackendFailed))
                && (!rejected && !refused && old(Takes(stream, mode, luck)) ==>
                      Grew(stream, Event(|old(events.History(stream))| + 1, kind, patch, meta, time)))
      ensures |events.History(stream)| > |old(events.History(stream))| ==>
                var event := Event(|old(events.History(stream))| + 1, kind, patch, meta, time);
                && Grew(stream, event) && old(Takes(stream, mode, luck))
                && old(Assumed(stream, mode)) == old(Current(stream))
                && (r.Ok? ==>
                      && r.value == Committed(event.seqNo, time)
                      && Followed(stream, event, old(cache.Of(stream)), old(dispatcher.Now())))
                && (r.Err? ==> !luck.reread || !luck.put || Current(stream).Err?)
                && (Idle(event.seqNo) ==> r.Ok? && dispatcher.checkpoints == old(dispatcher.checkpoints))
    {
      hide HoldsSeen, Shaped, Replay, CacheOk, Numbered, CacheAfter, Assumed, Reference, Truth, Followed,
           KeepsSeq, UpcastAll, Apply, Boundary, Idle, Seen;
      AheadOfHead(stream, mode);
      var current := ReadAssumed(stream, mode);
      if current.Err? { return Err(current.error); }
      var admitted := Admit(stream, kind, patch, current.value);
      if admitted.Err? { return Err(admitted.error); }
      AssumedIsCurrent(stream, mode);
      r := AppendAndFollow(stream, NewEvent(kind, patch, meta), mode, time, luck, current.value, admitted.value);
    }

    method AppendAndFollow(stream: StreamId, rec: NewEvent, mode: WriteMode, time: int, luck: Luck, current: Json,
          admitted: Option<Json>)
      returns (r: Result<Committed>)
      requires Valid() && (Takes(stream, mode, luck) ==> Current(stream) == Ok(current))
      requires admitted.Some? ==> Apply(current, rec.patch) == admitted
      modifies events, cache, dispatcher
      ensures Valid() && dispatcher.sinks == old(dispatcher.sinks)
      ensures !old(Takes(stream, mode, luck)) ==>
                && Untouched()
                && r == Err(if luck.append then HeadConflict(mode.expected, Head(old(events.Log(stream)))) else BackendFailed)
      ensures old(Takes(stream, mode, luck)) ==>
                var event := Event(|old(events.History(stream))| + 1, rec.kind, rec.patch, rec.meta, time);
                && Grew(stream, event)
                && (r.Ok? ==>
                      && r.value == Committed(event.seqNo, time)
                      && Followed(stream, event, old(cache.Of(stream)), old(dispatcher.Now())))
                && (r.Err? ==> !luck.reread || !luck.put || Current(stream).Err?)
                && (r.Err? ==> r.error == BackendFailed || r.error == PatchRejected)
                && (Idle(event.seqNo) ==> r.Ok? && dispatcher.checkpoints == old(dispatcher.checkpoints))
    {
      hide HoldsSeen, Shaped, Replay, CacheOk, Numbered, CacheAfter, Reference, Followed, Truth, UpcastAll, KeepsSeq, Apply;
      ShapedNumbered(events.Log(stream), events.History(stream), events.BoundaryOf(stream));
      ghost var seen := Seen(stream);
      r := AppendRow(stream, rec, mode, time, luck.append);
      if r.Err? { return; }
      var event := Event(r.value.seqNo, rec.kind, rec.patch, rec.meta, time);
      UpcastMore(upcasters, old(events.History(stream)), event);
      TruthPrefix(seen, [Upcast(upcasters, event)], |seen|);
      var after := AfterCommit(stream, event, current, admitted, luck);
      if after.Err? { r := Err(after.error); }
    }

    /** A head-conditional write that finds the head it expects has read the head state. */
    lemma AssumedIsCurrent(stream: StreamId, mode: WriteMode)
      requires Valid()
      ensures (mode.IfHead? && mode.expected != |events.History(stream)|) || Assumed(stream, mode) == Current(stream)
    {
      hide HoldsSeen, Shaped, CacheOk;
      var seen := Seen(stream);
      ShapedNumbered(events.Log(stream), events.History(stream), events.BoundaryOf(stream));
      if seen == [] {
        Nothing(seen);
      } else {
        OnlyPatchFails(Null, seen[..|seen|]);
      }
    }

    /** A conditional write ahead of the head, or on an unknown stream, is told where the head is. */
    lemma AheadOfHead(stream: StreamId, mode: WriteMode)
      requires Valid()
      ensures mode.IfHead? && mode.expected > |events.History(stream)| ==>
                Assumed(stream, mode) == Err(HeadConflict(mode.expected, Head(events.Log(stream))))
    {
      hide HoldsSeen, Shaped, CacheOk, Replay;
      ShapedNumbered(events.Log(stream), events.History(stream), events.BoundaryOf(stream));
    }

    /** Revert: the diff from the current to the target state, appended as one more event. */
    method RevertWithMeta(stream: StreamId, to: nat, extra: Json, time: int, luck: Luck) returns (r: Result<Committed>)
      requires Valid()
      modifies events, cache, dispatcher
      ensures Valid()
      ensures old(Current(stream)).Err? ==> r == Err(old(Current(stream)).error) && Untouched()
      ensures old(Current(stream)).Ok? && old(Reference(stream, to)).Err? ==>
              r == Err(old(Reference(stream, to)).error) && Untouched()
      ensures Untouched() || Restored(stream, to, extra, time)
      ensures EarlierKept(stream)
      ensures r.Ok? ==> Restored(stream, to, extra, time)
                        && r.value == Committed(|old(events.History(stream))| + 1, time)
      ensures old(Current(stream)).Ok? && old(Reference(stream, to)).Ok? && luck.append &&
              AcceptsRevert(stream, old(Current(stream)).value, old(Reference(stream, to)).value) ==>
              Restored(stream, to, extra, time)
    {
      hide HoldsSeen, Shaped, Replay, CacheOk, Numbered, Truth, Answer;
      var current := State(stream);
      if current.Err? { return Err(current.error); }
      var target := StateAt(stream, to);
      if target.Err? { return Err(target.error); }
      r := AppendDiff(stream, to, current.value, target.value, extra, time, luck);
      forall at: nat | old(Reference(stream, at)).Ok? && Restored(stream, to, extra, time)
        ensures Reference(stream, at) == old(Reference(stream, at))
      {
        GrowthKeeps(old(events.Log(stream)), old(events.History(stream)), old(events.BoundaryOf(stream)), upcasters,
                    events.History(stream)[|old(events.History(stream))|], at);
      }
    }

    /** The second half of a revert: both states are in hand. */
    method AppendDiff(stream: StreamId, to: nat, current: Json, target: Json, extra: Json, time: int,
          luck: Luck) returns (r: Result<Committed>)
      requires Valid() && Current(stream) == Ok(current) && Reference(stream, to) == Ok(target)
      modifies events, cache, dispatcher
      ensures Valid() && (Untouched() || Restored(stream, to, extra, time))
      ensures r.Ok? ==> Restored(stream, to, extra, time)
                        && r.value == Committed(|old(events.History(stream))| + 1, time)
      ensures luck.append && AcceptsRevert(stream, current, target) ==> Restored(stream, to, extra, time)
    {
      hide HoldsSeen, Shaped, Replay, CacheOk, Numbered, CacheAfter, Assumed, Truth, Followed, Apply,
           UpcastAll, Answer, KeepsSeq, Reference;
      var patch := Diff(current, target);
      var fields := if extra.Object? then extra.fields else map[];
      var meta := Object(fields["revert_to" := Number(to)]);
      assert RevertEvent(Event(|events.History(stream)| + 1, REVERT_KIND, patch, meta, time), to, extra, time);
      hide RevertEvent;
      assert events.BoundaryOf(stream) <= |events.History(stream)| by {
        ShapedNumbered(events.Log(stream), events.History(stream), events.BoundaryOf(stream));
      }
      AssumedIsCurrent(stream, Append);
      RevertedState(upcasters, Seen(stream), events.History(stream), Event(|events.History(stream)| + 1, REVERT_KIND, patch,
          meta, time), current, target);
      r := WriteEventLocked(stream, REVERT_KIND, patch, meta, Append, time, luck);
    }

    /** The gates let a revert between these states pass, whatever patch leads from one to the other. */
    ghost predicate AcceptsRevert(stream: StreamId, current: Json, target: Json) {
      forall p: Patch, i :: 0 <= i < |gates| && Apply(current, p) == Some(target) ==>
        gates[i](GateCtx(stream := stream, kind := REVERT_KIND, patch := p, current := current, next := target))
    }

    /** Every coordinate that had a state still has it. */
    twostate predicate EarlierKept(stream: StreamId)
      reads events
    {
      forall at: nat :: old(Reference(stream, at)).Ok? ==> Reference(stream, at) == old(Reference(stream, at))
    }

    /**
     * One event longer, the head state being where the event, as read, takes
     * the old one: the state at `to`, where nothing is upcasted. The stream is
     * listed as live again, unless the chain makes the event a tombstone.
     */
    twostate predicate Restored(stream: StreamId, to: nat, extra: Json, time: int)
      reads events
    {
      && old(Reference(stream, to)).Ok? && |events.History(stream)| == |old(events.History(stream))| + 1
      && var event := events.History(stream)[|old(events.History(stream))|];
      && Grew(stream, event) && event.seqNo == |events.History(stream)| && RevertEvent(event, to, extra, time)
      && old(Current(stream)).Ok? && Apply(old(Current(stream)).value, event.patch) == Some(old(Reference(stream, to)).value)
      && Current(stream) == Next(old(Current(stream)), Upcast(upcasters, event))
      && (ListedLive(stream) <==> Upcast(upcasters, event).kind != TOMBSTONE_KIND)
      && (upcasters == [] ==> Current(stream) == old(Reference(stream, to)) && ListedLive(stream))
    }

    /** Delete: a tombstone with an empty patch through the same write path. */
    method Delete(stream: StreamId, meta: Json, time: int, luck: Luck) returns (r: Result<Committed>)
      requires Valid()
      modifies events, cache, dispatcher
      ensures Valid()
      ensures Untouched() || Grew(stream, Event(|old(events.History(stream))| + 1, TOMBSTONE_KIND, [], meta, time))
      ensures r.Ok? ==>
                && Grew(stream, Event(|old(events.History(stream))| + 1, TOMBSTONE_KIND, [], meta, time))
                && var read := Upcast(upcasters, Event(|old(events.History(stream))| + 1, TOMBSTONE_KIND, [], meta, time));
                && Current(stream) == Next(old(Current(stream)), read) && (ListedLive(stream) <==> read.kind != TOMBSTONE_KIND)
                && (upcasters == [] ==> Current(stream) == old(Current(stream)) && !ListedLive(stream))
    {
      hide HoldsSeen, Shaped, Replay, CacheOk, Numbered, CacheAfter, Assumed, Truth, Followed, UpcastAll, KeepsSeq,
           Answer, Apply;
      assert events.BoundaryOf(stream) <= |events.History(stream)| by {
        ShapedNumbered(events.Log(stream), events.History(stream), events.BoundaryOf(stream));
      }
      AssumedIsCurrent(stream, Append);
      Tombstoned(upcasters, events.History(stream), Event(|events.History(stream)| + 1, TOMBSTONE_KIND, [], meta, time));
      r := WriteEventLocked(stream, TOMBSTONE_KIND, [], meta, Append, time, luck);
    }

    method PruneCache(stream: StreamId, keepLatest: nat)
      requires Valid()
      modifies cache
      ensures Valid() && PrunedTo(old(cache.Of(stream)), cache.Of(stream), keepLatest)
      ensures forall s :: s != stream ==> cache.Of(s) == old(cache.Of(s))
    {
      hide HoldsSeen, Shaped, Replay;
      cache.Prune(stream, keepLatest);
    }

    // ---- compaction ---------------------------------------------------------------------

    /**
     * Compaction: events 1..upTo become one snapshot. History and head stay;
     * every coordinate from `upTo` on answers as before, every one below it is
     * now out of reach.
     */
    method CompactStream(stream: StreamId, upTo: nat, works: bool) returns (r: Result<(nat, nat)>)
      requires Valid()
      modifies events, cache
      ensures events.histories == old(events.histories)
      ensures upTo == 0 ==> r == Err(InvalidRange) && Untouched()
      ensures upTo > 0 && old(Reference(stream, upTo)).Err? ==> r == Err(old(Reference(stream, upTo)).error) && Untouched()
      ensures upTo > 0 && old(Reference(stream, upTo)).Ok? && !works ==> r == Err(BackendFailed) && Untouched()
      ensures r.Ok? <==> upTo > 0 && old(Reference(stream, upTo)).Ok? && works
      ensures Valid() <==> (r.Ok? ==> LeavesAsIs(old(SnapshotAt(stream, upTo))))
      ensures r.Ok? ==> r.value == (upTo, |events.History(stream)|) && Head(events.Log(stream)) == Head(old(events.Log(stream)))
      ensures r.Ok? ==> events.boundaries == old(events.boundaries)[stream := upTo] && old(events.BoundaryOf(stream)) <= upTo
      ensures r.Ok? ==> forall at :: upTo <= at ==> Reference(stream, at) == old(Reference(stream, at))
      ensures r.Ok? ==> forall at :: 0 <= at < upTo ==> Reference(stream, at) == Err(SeqCompacted(upTo, at))
      ensures r.Ok? ==> cache.Of(stream) == map k | k in old(cache.Of(stream)) && k >= upTo :: old(cache.Of(stream))[k]
      ensures forall s :: s != stream ==> events.Log(s) == old(events.Log(s)) && cache.Of(s) == old(cache.Of(s))
    {
      hide Replay, CacheOk, Numbered, HoldsSeen, Shaped, Truth, Answer, Head;
      var plan := PlanCompaction(stream, upTo);
      if plan.Err? { return Err(plan.error); }
      if !works { return Err(BackendFailed); }
      Maintain(stream, upTo, plan.value.1, plan.value.2);
      SameAbove(old(events.Log(stream)), old(events.BoundaryOf(stream)), events.Log(stream), upTo, events.History(stream),
          Seen(stream));
      return Ok((upTo, plan.value.0));
    }

    /** The chain does not rewrite this event. */
    ghost predicate LeavesAsIs(event: Event) {
      Upcast(upcasters, event) == event
    }

    /** The row a compaction to `upTo` puts in the prefix's place: what readers have there, state and time. */
    ghost function SnapshotAt(stream: StreamId, upTo: nat): Event
      requires upTo > 0 && Reference(stream, upTo).Ok?
      reads events
    {
      Snapshot(upTo, Reference(stream, upTo).value, Seen(stream)[upTo - 1].at)
    }

    /** The checks and reads before the transaction: head, snapshot state and anchor time. */
    method PlanCompaction(stream: StreamId, upTo: nat) returns (r: Result<(nat, Json, int)>)
      requires Valid()
      ensures upTo == 0 ==> r == Err(InvalidRange)
      ensures upTo > 0 && Reference(stream, upTo).Err? ==> r == Err(Reference(stream, upTo).error)
      ensures upTo > 0 && Reference(stream, upTo).Ok? ==>
                && 1 <= upTo <= |events.History(stream)| && events.BoundaryOf(stream) <= upTo
                && Truth(Seen(stream), upTo) == Reference(stream, upTo)
                && r == Ok((|events.History(stream)|, Reference(stream, upTo).value, Seen(stream)[upTo - 1].at))
    {
      hide Replay, CacheOk, Numbered, HoldsSeen, Shaped, Truth;
      if upTo == 0 { return Err(InvalidRange); }
      ShapedNumbered(events.Log(stream), events.History(stream), events.BoundaryOf(stream));
      var head := Head(events.Log(stream));
      if head.None? { return Err(UnknownStream); }
      if upTo > head.value { return Err(SeqOutOfRange(head, upTo)); }
      var state := StateAt(stream, upTo);
      if state.Err? { return Err(state.error); }
      var anchor := ReadEvents(stream, upTo, 1);
      AnchorSeen(upcasters, events.Log(stream), events.History(stream), events.BoundaryOf(stream), upTo);
      return Ok((head.value, state.value, anchor[0].at));
    }

    /** The maintenance transaction: snapshot for prefix, and the cache rows below it gone. */
    method Maintain(stream: StreamId, upTo: nat, state: Json, time: int)
      requires Valid() && 1 <= upTo <= |events.History(stream)| && events.BoundaryOf(stream) <= upTo
      requires Truth(Seen(stream), upTo) == Ok(state) && time == Seen(stream)[upTo - 1].at
      modifies events, cache
      ensures Valid() <==> LeavesAsIs(Snapshot(upTo, state, time))
      ensures events.Valid() && events.histories == old(events.histories) &&
              events.boundaries == old(events.boundaries)[stream := upTo]
      ensures events.logs == old(events.logs)[stream := CompactedTo(old(events.Log(stream)), upTo, state, time)]
      ensures cache.entries == old(cache.entries)[stream := map k | k in old(cache.Of(stream)) &&
              k >= upTo :: old(cache.Of(stream))[k]]
    {
      hide Replay, CacheOk, Numbered, HoldsSeen, Shaped, Truth;
      SeenCompacted(upcasters, events.Log(stream), events.History(stream), events.BoundaryOf(stream), upTo, state, time);
      events.ReplacePrefix(stream, upTo, state, time);
      cache.DropBelow(stream, upTo);
      forall s: StreamId ensures CacheOk(cache.Of(s), Seen(s)) {
        assert old(CacheOk(cache.Of(s), Seen(s)));
        if s == stream { EntriesOk(old(cache.Of(stream)), cache.Of(stream), Seen(stream), upTo, state); }
      }
      forall s: StreamId | s != stream
        ensures HoldsSeen(upcasters, events.Log(s), events.History(s), events.BoundaryOf(s))
      {
        assert old(HoldsSeen(upcasters, events.Log(s), events.History(s), events.BoundaryOf(s)));
      }
      assert HoldsSeen(upcasters, events.Log(stream), events.History(stream), events.BoundaryOf(stream)) <==>
             LeavesAsIs(Snapshot(upTo, state, time));
    }
  }

  /** What a revert stores: of its own kind, with `revert_to` winning over the caller's metadata. */
  ghost predicate RevertEvent(event: Event, to: nat, extra: Json, time: int) {
    && event.kind == REVERT_KIND && event.at == time
    && event.meta.Object? && "revert_to" in event.meta.fields && event.meta.fields["revert_to"] == Number(to)
    && (extra.Object? ==> event.meta.fields == extra.fields["revert_to" := Number(to)])
  }

  /** With a higher boundary, the answers change only below it. */
  lemma SameAbove(log: seq<Event>, boundary: nat, later: seq<Event>, upTo: nat, history: seq<Event>, seen: seq<Event>)
    requires Shaped(log, history, boundary) && Shaped(later, history, upTo) && boundary <= upTo && upTo > 0
    requires |seen| == |history|
    ensures Head(later) == Head(log)
    ensures forall at :: upTo <= at ==> Answer(later, seen, at) == Answer(log, seen, at)
    ensures forall at :: 0 <= at < upTo ==> Answer(later, seen, at) == Err(SeqCompacted(upTo, at))
  {
    hide Replay, Numbered, Holds, Truth;
    ShapedNumbered(log, history, boundary);
    ShapedNumbered(later, history, upTo);
  }

  /** Entries kept, entries dropped, and one right entry put leave a right cache. */
  lemma EntriesOk(before: Cache, after: Cache, history: seq<Event>, at: nat, next: Json)
    requires CacheOk(before, history) && 1 <= at <= |history| && Truth(history, at) == Ok(next)
    requires forall k :: k in after ==> (k in before && after[k] == before[k]) || (k == at && after[k] == next)
    ensures CacheOk(after, history)
  {
  }

  lemma GrowthKeeps(log: seq<Event>, history: seq<Event>, boundary: nat, chain: seq<Upcaster>, event: Event, at: nat)
    requires Shaped(log, history, boundary) && Answer(log, UpcastAll(chain, history), at).Ok?
    ensures Answer(log + [event], UpcastAll(chain, history + [event]), at) == Answer(log, UpcastAll(chain, history), at)
  {
    hide Replay;
    ShapedNumbered(log, history, boundary);
    var seen := UpcastAll(chain, history);
    assert UpcastAll(chain, history + [event]) == seen + [Upcast(chain, event)];
    TruthPrefix(seen, [Upcast(chain, event)], at);
  }

  /**
   * An event appended to a stream takes its head state wherever the upcasted patch
   * does; with no chain, where the patch does.
   */
  lemma RevertedState(chain: seq<Upcaster>, seen: seq<Event>, history: seq<Event>, event: Event, current: Json, target: Json)
    requires seen == UpcastAll(chain, history) && Truth(seen, |seen|) == Ok(current)
    requires Apply(current, event.patch) == Some(target)
    ensures var longer := UpcastAll(chain, history + [event]);
            && longer == seen + [Upcast(chain, event)] && Truth(longer, |seen| + 1) == Next(Ok(current), Upcast(chain, event))
            && (Truth(longer, |seen| + 1) == Ok(target) <==> Apply(current, Upcast(chain, event).patch) == Some(target))
            && (chain == [] ==> Truth(longer, |seen| + 1) == Ok(target))
  {
    UpcastMore(chain, history, event);
    TruthPrefix(seen, [Upcast(chain, event)], |seen|);
    TruthStep(seen + [Upcast(chain, event)], |seen|);
  }

  /** An empty patch, appended: as read it acts on the head state as the chain has it; with no chain it keeps it. */
  lemma Tombstoned(chain: seq<Upcaster>, history: seq<Event>, event: Event)
    requires event.patch == []
    ensures var seen, longer := UpcastAll(chain, history), UpcastAll(chain, history + [event]);
            && |longer| == |seen| + 1 && longer[|seen|] == Upcast(chain, event)
            && Truth(longer, |longer|) == Next(Truth(seen, |seen|), Upcast(chain, event))
            && (chain == [] ==> Upcast(chain, event) == event && Truth(longer, |longer|) == Truth(seen, |seen|))
  {
    hide Replay;
    var seen := UpcastAll(chain, history);
    UpcastMore(chain, history, event);
    TruthPrefix(seen, [Upcast(chain, event)], |seen|);
    TruthStep(seen + [Upcast(chain, event)], |seen|);
  }

  lemma ShapedRows(log: seq<Event>, history: seq<Event>, boundary: nat)
    requires Shaped(log, history, boundary)
    ensures log == [] <==> history == []
  {
  }

  lemma {:induction false} OnlyPatchFails(base: Json, events: seq<Event>)
    ensures Replay(base, events).Err? ==> Replay(base, events).error.PatchFailed?
    decreases |events|
  {
    if events != [] {
      OnlyPatchFails(base, events[..|events| - 1]);
    }
  }

  lemma CacheLonger(cache: Cache, history: seq<Event>, longer: seq<Event>)
    requires CacheOk(cache, history) && history <= longer
    ensures CacheOk(cache, longer)
  {
    forall k | k in cache ensures 1 <= k <= |longer| && Truth(longer, k) == Ok(cache[k]) {
      assert longer[..k] == history[..k];
    }
  }

  lemma HeadRow(log: seq<Event>, history: seq<Event>, boundary: nat)
    requires Shaped(log, history, boundary) && history != [] && boundary < |history|
    ensures log != [] && log[|log| - 1] == history[|history| - 1] && history[|history| - 1].seqNo == |history|
    ensures Read(log, |history|, 1) == [history[|history| - 1]]
  {
    ShapedNumbered(log, history, boundary);
    FromNumbered(log, if boundary == 0 then 1 else boundary, |history|);
  }

  lemma LastRow(log: seq<Event>, history: seq<Event>, boundary: nat, chain: seq<Upcaster>)
    requires HoldsSeen(chain, log, history, boundary)
    ensures Head(log) == if history == [] then None else Some(|history|)
    ensures history != [] ==>
              && log != [] && Read(log, |history|, 1) == [log[|log| - 1]]
              && (Upcast(chain, log[|log| - 1]).kind != TOMBSTONE_KIND
                  <==> Live(UpcastAll(chain, history)) || boundary == |history|)
  {
    hide Replay;
    ShapedNumbered(log, history, boundary);
    if history != [] {
      FromNumbered(log, if boundary == 0 then 1 else boundary, |history|);
    }
  }

  lemma Nothing(history: seq<Event>)
    requires history == []
    ensures Truth(history, 0) == Ok(Null)
  {
  }

  /** A stream with events, the last of which is not a tombstone. */
  predicate Live(seen: seq<Event>) {
    seen != [] && seen[|seen| - 1].kind != TOMBSTONE_KIND
  }
}
