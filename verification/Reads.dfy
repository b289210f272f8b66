/** The read path: nearest cached state, then replay of the rows after it. */
module Reads {
  import opened Wrappers
  import opened Json
  import opened Events
  import opened Upcasting

  type Cache = map<nat, Json>

  /** Every cached state is the state the history gives at its coordinate. */
  ghost predicate CacheOk(cache: Cache, history: seq<Event>) {
    forall k :: k in cache ==> 1 <= k <= |history| && Truth(history, k) == Ok(cache[k])
  }

  /** The greatest cached coordinate not above `at`. */
  function Nearest(cache: Cache, at: nat): (r: Option<nat>)
    ensures r.None? ==> forall k :: k in cache ==> k > at
    ensures r.Some? ==> r.value in cache && r.value <= at && forall k :: k in cache && k <= at ==> k <= r.value
  {
    if at in cache then Some(at)
    else if at == 0 then None
    else Nearest(cache, at - 1)
  }

  /** Where replay starts: the first coordinate to read, and the state before it. */
  function Base(cache: Cache, at: nat): (nat, Json) {
    match Nearest(cache, at)
    case None => (1, Null)
    case Some(k) => (k + 1, cache[k])
  }

  /** What `state_at` does once its three range checks have passed. */
  function Rebuild(chain: seq<Upcaster>, log: seq<Event>, cache: Cache, at: nat): Result<Json> {
    var (from, base) := Base(cache, at);
    if from > at then Ok(base)
    else Replay(base, UpTo(UpcastAll(chain, Read(log, from, at - from + 1)), at))
  }

  function StateAt(chain: seq<Upcaster>, log: seq<Event>, cache: Cache, at: nat): Result<Json> {
    match Head(log)
    case None => Err(UnknownStream)
    case Some(head) =>
      if at > head then Err(SeqOutOfRange(Some(head), at))
      else if Boundary(log).Some? && at < Boundary(log).value then Err(SeqCompacted(Boundary(log).value, at))
      else Rebuild(chain, log, cache, at)
  }

  function State(chain: seq<Upcaster>, log: seq<Event>, cache: Cache): Result<Json> {
    match Head(log)
    case None => Ok(Null)
    case Some(head) => StateAt(chain, log, cache, head)
  }

  lemma BaseIsTrue(cache: Cache, history: seq<Event>, at: nat)
    requires CacheOk(cache, history) && at <= |history|
    ensures var (from, base) := Base(cache, at);
            1 <= from <= at + 1 && Truth(history, from - 1) == Ok(base)
  {
  }

  lemma TailUpcasted(chain: seq<Upcaster>, log: seq<Event>, history: seq<Event>, boundary: nat, base: Json, from: nat, at: nat)
    requires HoldsSeen(chain, log, history, boundary) && KeepsSeq(chain)
    requires 1 <= from <= at <= |history| && boundary <= at
    requires Truth(UpcastAll(chain, history), from - 1) == Ok(base)
    ensures Replay(base, UpTo(UpcastAll(chain, Read(log, from, at - from + 1)), at)) == Truth(UpcastAll(chain, history), at)
  {
    hide Holds, Replay;
    ShapedNumbered(log, history, boundary);
    UpcastRead(chain, log, if boundary == 0 then 1 else boundary, from, at - from + 1);
    ReadTail(UpcastAll(chain, log), UpcastAll(chain, history), boundary, base, from, at);
  }

  lemma RebuildIsTruth(chain: seq<Upcaster>, log: seq<Event>, cache: Cache, history: seq<Event>, boundary: nat, at: nat)
    requires HoldsSeen(chain, log, history, boundary) && KeepsSeq(chain)
    requires CacheOk(cache, UpcastAll(chain, history)) && boundary <= at <= |history|
    ensures Rebuild(chain, log, cache, at) == Truth(UpcastAll(chain, history), at)
  {
    BaseIsTrue(cache, UpcastAll(chain, history), at);
    var (from, base) := Base(cache, at);
    if from <= at {
      TailUpcasted(chain, log, history, boundary, base, from, at);
    }
  }

  /** What `state_at` must answer, by the reference semantics and the range checks alone. */
  ghost function Answer(log: seq<Event>, seen: seq<Event>, at: nat): Result<Json> {
    if seen == [] then Err(UnknownStream)
    else if at > |seen| then Err(SeqOutOfRange(Some(|seen|), at))
    else if Boundary(log).Some? && at < Boundary(log).value then Err(SeqCompacted(Boundary(log).value, at))
    else Truth(seen, at)
  }

  /**
   * Cache transparency, with compaction and with upcasting: whatever correct
   * entries the cache happens to hold, `state_at` answers with the replay of
   * the complete upcasted history, failing exactly where that replay fails.
   */
  lemma StateAtIsTruth(chain: seq<Upcaster>, log: seq<Event>, cache: Cache, history: seq<Event>, boundary: nat, at: nat)
    requires HoldsSeen(chain, log, history, boundary) && KeepsSeq(chain)
    requires CacheOk(cache, UpcastAll(chain, history))
    ensures StateAt(chain, log, cache, at) == Answer(log, UpcastAll(chain, history), at)
  {
    hide Holds, Replay, CacheOk;
    ShapedNumbered(log, history, boundary);
    if boundary <= at <= |history| {
      RebuildIsTruth(chain, log, cache, history, boundary, at);
    }
  }

  // ---- compaction behind a chain --------------------------------------------------

  /** A cache a compaction to `upTo` may leave. */
  ghost predicate Left(cache: Cache, seen: seq<Event>, upTo: nat) {
    CacheOk(cache, seen) && forall k :: k in cache ==> upTo <= k
  }

  /**
   * The snapshot is taken through the chain and read back through it. Reads from
   * the new boundary on are right for every cache the compaction leaves if and
   * only if the snapshot, as read, still sets the state it was made from.
   */
  lemma CompactedReadsRight(chain: seq<Upcaster>, log: seq<Event>, history: seq<Event>, boundary: nat, upTo: nat,
                            state: Json, time: int)
    requires HoldsSeen(chain, log, history, boundary) && KeepsSeq(chain)
    requires 1 <= upTo <= |history| && boundary <= upTo && Truth(UpcastAll(chain, history), upTo) == Ok(state)
    ensures (forall cache: Cache, at: nat :: Left(cache, UpcastAll(chain, history), upTo) && upTo <= at <= |history| ==>
               StateAt(chain, CompactedTo(log, upTo, state, time), cache, at) == Truth(UpcastAll(chain, history), at))
            <==> Apply(Null, Upcast(chain, Snapshot(upTo, state, time)).patch) == Some(state)
  {
    hide Replay, StateAt, Truth, HoldsSeen, CompactedTo, Apply;
    var seen, snapshot := UpcastAll(chain, history), Upcast(chain, Snapshot(upTo, state, time));
    forall cache: Cache, at: nat
      | Left(cache, seen, upTo) && upTo <= at <= |history| && Apply(Null, snapshot.patch) == Some(state)
      ensures StateAt(chain, CompactedTo(log, upTo, state, time), cache, at) == Truth(seen, at)
    {
      ReadCompacted(chain, log, history, boundary, upTo, state, time, cache, at);
      FirstThenRest(snapshot, seen[upTo..at]);
      TruthFrom(seen, upTo, at);
    }
    assert Left(map[], seen, upTo);
    ReadCompacted(chain, log, history, boundary, upTo, state, time, map[], upTo);
    FirstThenRest(snapshot, seen[upTo..upTo]);
    assert seen[upTo..upTo] == [] && forall doc :: Replay(doc, []) == Ok(doc) by { EmptyReplay(); }
  }

  lemma EmptyReplay()
    ensures forall doc :: Replay(doc, []) == Ok(doc)
  {
  }

  lemma FirstThenRest(first: Event, rest: seq<Event>)
    ensures Replay(Null, [first] + rest) ==
            var state := Apply(Null, first.patch);
            if state.None? then Err(PatchFailed(first.seqNo)) else Replay(state.value, rest)
  {
    ReplaySplit(Null, [first] + rest, 1);
    assert ([first] + rest)[..1] == [first] && ([first] + rest)[1..] == rest && [first][..0] == [];
  }

  /** A read past a compaction starts from a cached state, or from the snapshot as the chain leaves it. */
  lemma ReadCompacted(chain: seq<Upcaster>, log: seq<Event>, history: seq<Event>, boundary: nat, upTo: nat,
                      state: Json, time: int, cache: Cache, at: nat)
    requires HoldsSeen(chain, log, history, boundary) && KeepsSeq(chain)
    requires 1 <= upTo && boundary <= upTo <= at <= |history| && Left(cache, UpcastAll(chain, history), upTo)
    ensures StateAt(chain, CompactedTo(log, upTo, state, time), cache, at) ==
            if Nearest(cache, at).Some? then Truth(UpcastAll(chain, history), at)
            else Replay(Null, [Upcast(chain, Snapshot(upTo, state, time))] + UpcastAll(chain, history)[upTo..at])
  {
    hide Replay, From, Shaped;
    var seen, kept := UpcastAll(chain, history), CompactedTo(log, upTo, state, time);
    ShapedAfter(log, history, boundary, upTo, state, time);
    ShapedNumbered(kept, history, upTo);
    var (from, base) := Base(cache, at);
    if from <= at {
      RowsCompacted(chain, kept, history, upTo, from, at);
      if from > upTo { TruthFrom(seen, from - 1, at); }
    }
  }

  lemma UpcastTail(chain: seq<Upcaster>, kept: seq<Event>, history: seq<Event>, upTo: nat)
    requires kept != [] && upTo <= |history| && kept[1..] == history[upTo..]
    ensures UpcastAll(chain, kept)[1..] == UpcastAll(chain, history)[upTo..]
  {
    forall i | 0 < i < |kept| ensures kept[i] == history[upTo + i - 1] {
      assert kept[i] == kept[1..][i - 1];
    }
  }

  lemma RowsCompacted(chain: seq<Upcaster>, kept: seq<Event>, history: seq<Event>, upTo: nat, from: nat, at: nat)
    requires Shaped(kept, history, upTo) && KeepsSeq(chain) && 1 <= from <= at <= |history| && 1 <= upTo <= at
    ensures UpTo(UpcastAll(chain, Read(kept, from, at - from + 1)), at) ==
            if from > upTo then UpcastAll(chain, history)[from - 1..at]
            else [Upcast(chain, kept[0])] + UpcastAll(chain, history)[upTo..at]
  {
    hide UpTo, Read, From;
    ShapedNumbered(kept, history, upTo);
    var rows := UpcastAll(chain, kept);
    UpcastRead(chain, kept, upTo, from, at - from + 1);
    RowsUsed(rows, upTo, from, at);
    UpcastTail(chain, kept, history, upTo);
    SliceShifted(rows, UpcastAll(chain, history), upTo, Monus(from, upTo), at);
  }

  /** Scales a number that is set at the root, unless the event is stamped with its version. */
  function TenTimes(e: Event): Event {
    if e.meta.Object? && "_schema_version" in e.meta.fields then e
    else if |e.patch| == 1 && e.patch[0].Add? && e.patch[0].path == [] && e.patch[0].value.Number?
    then e.(patch := [Add([], Number(10 * e.patch[0].value.number))])
    else e
  }

  /**
   * The input: a snapshot carries no version, so a chain that goes by it upcasts
   * the state a second time. Before the compaction `state_at(1)` is 10, after it 100.
   */
  lemma SnapshotUpcastTwice(kind: string, meta: Json, time: int)
    requires kind != SNAPSHOT_KIND && !(meta.Object? && "_schema_version" in meta.fields)
    ensures var first := Event(1, kind, [Add([], Number(1))], meta, time);
            && HoldsSeen([TenTimes], [first], [first], 0) && KeepsSeq([TenTimes])
            && StateAt([TenTimes], [first], map[], 1) == Ok(Number(10))
            && StateAt([TenTimes], CompactedTo([first], 1, Number(10), time), map[], 1) == Ok(Number(100))
  {
    hide StateAt, CompactedTo, Replay, Apply, Holds, TenTimes, Answer, Snapshot;
    var chain, first := [TenTimes], Event(1, kind, [Add([], Number(1))], meta, time);
    OnlyTenTimes();
    TenTimesOf(kind, meta, time);
    HoldsUncompacted(chain, [first]);
    OneEventRead(chain, first, Number(10));
    ReadCompacted(chain, [first], [first], 0, 1, Number(10), time, map[], 1);
    RootSet(TenTimes(Snapshot(1, Number(10), time)), Number(100));
    assert UpcastAll(chain, [first])[1..1] == [];
  }

  lemma OnlyTenTimes()
    ensures forall e: Event :: Upcast([TenTimes], e) == TenTimes(e)
    ensures KeepsSeq([TenTimes])
  {
    forall e: Event ensures Upcast([TenTimes], e) == TenTimes(e) {
      assert [TenTimes][..0] == [];
    }
  }

  lemma TenTimesOf(kind: string, meta: Json, time: int)
    requires !(meta.Object? && "_schema_version" in meta.fields)
    ensures TenTimes(Event(1, kind, [Add([], Number(1))], meta, time)) == Event(1, kind, [Add([], Number(10))], meta, time)
    ensures TenTimes(Snapshot(1, Number(10), time)).patch == [Add([], Number(100))]
  {
    assert Snapshot(1, Number(10), time).meta.fields.Keys == {"compacted_at_seq"};
    assert "_schema_version"[0] != "compacted_at_seq"[0];
  }

  lemma OneEventRead(chain: seq<Upcaster>, first: Event, doc: Json)
    requires KeepsSeq(chain) && first.seqNo == 1 && first.kind != SNAPSHOT_KIND && Upcast(chain, first).patch == [Add([], doc)]
    ensures StateAt(chain, [first], map[], 1) == Ok(doc)
  {
    hide StateAt, Replay, Apply, Holds;
    HoldsUncompacted(chain, [first]);
    var seen := UpcastAll(chain, [first]);
    StateAtIsTruth(chain, [first], map[], [first], 0, 1);
    assert seen[..1] == [Upcast(chain, first)];
    RootSet(Upcast(chain, first), doc);
  }

  /** An event that sets the root, replayed alone. */
  lemma RootSet(e: Event, doc: Json)
    requires e.patch == [Add([], doc)]
    ensures Replay(Null, [e]) == Ok(doc) && [e] + [] == [e]
  {
    FirstThenRest(e, []);
    EmptyReplay();
    assert e.patch[1..] == [];
  }

  /**
   * A compaction retires a chain: once what it rewrites lies below the boundary,
   * a store without it answers as the store with it did.
   */
  lemma RetiredChain(chain: seq<Upcaster>, log: seq<Event>, history: seq<Event>, boundary: nat, upTo: nat,
                     state: Json, time: int, cache: Cache, at: nat)
    requires HoldsSeen(chain, log, history, boundary) && KeepsSeq(chain)
    requires 1 <= upTo <= |history| && boundary <= upTo
    requires Truth(UpcastAll(chain, history), upTo) == Ok(state) && time == UpcastAll(chain, history)[upTo - 1].at
    requires UpcastAll(chain, history[upTo..]) == history[upTo..]
    requires CacheOk(cache, UpcastAll(chain, history)) && upTo <= at
    ensures StateAt([], CompactedTo(log, upTo, state, time), cache, at) == StateAt(chain, log, cache, at)
  {
    hide Replay, CacheOk;
    var seen, kept := UpcastAll(chain, history), CompactedTo(log, upTo, state, time);
    ShapedNumbered(log, history, boundary);
    ShapedAfter(log, history, boundary, upTo, state, time);
    UpcastSlice(chain, history, upTo, |history|);
    HoldsPlainly(kept, seen, upTo);
    StateAtIsTruth(chain, log, cache, history, boundary, at);
    NoChain(seen);
    StateAtIsTruth([], kept, cache, seen, upTo, at);
    ShapedNumbered(kept, seen, upTo);
  }
}
