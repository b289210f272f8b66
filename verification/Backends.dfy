/**
 * The storage a Store writes to: the event rows of every stream, with the
 * in-memory and the SQLite backend alike, and the snapshot cache.
 *
 * A backend call is one atomic operation; whether it works is a parameter.
 */
module Backends {
  import opened Wrappers
  import opened Json
  import opened Events
  import opened Reads
  import opened Upcasting

  class EventBackend {
    var logs: map<StreamId, seq<Event>>
    ghost var histories: map<StreamId, seq<Event>>   // every event ever committed
    ghost var boundaries: map<StreamId, nat>         // last compaction, 0 if none

    function Log(stream: StreamId): seq<Event>
      reads this
    {
      if stream in logs then logs[stream] else []
    }

    ghost function History(stream: StreamId): seq<Event>
      reads this
    {
      if stream in histories then histories[stream] else []
    }

    ghost function BoundaryOf(stream: StreamId): nat
      reads this
    {
      if stream in boundaries then boundaries[stream] else 0
    }

    ghost predicate Valid()
      reads this
    {
      forall s: StreamId :: Shaped(Log(s), History(s), BoundaryOf(s))
    }

    constructor ()
      ensures Valid() && logs == map[] && histories == map[] && boundaries == map[]
    {
      logs, histories, boundaries := map[], map[], map[];
    }

    /** Every stream with rows, once. */
    method Streams() returns (r: seq<StreamId>)
      ensures forall s: StreamId :: s in r <==> s in logs
      ensures forall i, j :: 0 <= i < j < |r| ==> r[i] != r[j]
    {
      r := [];
      var left := logs.Keys;
      while left != {}
        invariant forall s :: s in logs <==> s in left || s in r
        invariant forall s :: s in r ==> s !in left
        invariant forall i, j :: 0 <= i < j < |r| ==> r[i] != r[j]
        decreases |left|
      {
        var s :| s in left;
        r, left := r + [s], left - {s};
      }
    }

    /** `append` and `import_event`: the next gap-free coordinate, stamped with `at`. */
    method Append(stream: StreamId, rec: NewEvent, at: int, works: bool) returns (r: Result<Committed>)
      requires Valid()
      modifies this
      ensures Valid() && boundaries == old(boundaries)
      ensures !works ==> r == Err(BackendFailed) && logs == old(logs) && histories == old(histories)
      ensures works ==>
                var event := Event(|old(History(stream))| + 1, rec.kind, rec.patch, rec.meta, at);
                && r == Ok(Committed(event.seqNo, at))
                && logs == old(logs)[stream := old(Log(stream)) + [event]]
                && histories == old(histories)[stream := old(History(stream)) + [event]]
    {
      hide Shaped, Replay, Numbered;
      if !works { return Err(BackendFailed); }
      ShapedNumbered(Log(stream), History(stream), BoundaryOf(stream));
      var next := match Head(Log(stream)) case Some(head) => head + 1 case None => 1;
      Insert(stream, Event(next, rec.kind, rec.patch, rec.meta, at));
      return Ok(Committed(next, at));
    }

    method Insert(stream: StreamId, event: Event)
      requires Valid() && event.seqNo == |History(stream)| + 1
      modifies this
      ensures Valid() && boundaries == old(boundaries)
      ensures logs == old(logs)[stream := old(Log(stream)) + [event]]
      ensures histories == old(histories)[stream := old(History(stream)) + [event]]
    {
      hide Shaped, Replay, Numbered;
      ShapedAppend(Log(stream), History(stream), BoundaryOf(stream), event);
      logs, histories := logs[stream := Log(stream) + [event]], histories[stream := History(stream) + [event]];
      forall s: StreamId ensures Shaped(Log(s), History(s), BoundaryOf(s)) {
        if s != stream { assert old(Shaped(Log(s), History(s), BoundaryOf(s))); }
      }
    }

    /** Head check and insert in one transaction. */
    method AppendIfHead(stream: StreamId, rec: NewEvent, expected: nat, at: int, works: bool) returns (r: Result<Committed>)
      requires Valid()
      modifies this
      ensures Valid() && boundaries == old(boundaries)
      ensures !works ==> r == Err(BackendFailed)
      ensures works && expected != |old(History(stream))| ==> r == Err(HeadConflict(expected, Head(old(Log(stream)))))
      ensures r.Err? ==> logs == old(logs) && histories == old(histories)
      ensures works && expected == |old(History(stream))| ==>
                var event := Event(expected + 1, rec.kind, rec.patch, rec.meta, at);
                && r == Ok(Committed(event.seqNo, at))
                && logs == old(logs)[stream := old(Log(stream)) + [event]]
                && histories == old(histories)[stream := old(History(stream)) + [event]]
    {
      hide Shaped, Replay, Numbered;
      if !works { return Err(BackendFailed); }
      ShapedNumbered(Log(stream), History(stream), BoundaryOf(stream));
      var observed := match Head(Log(stream)) case Some(head) => head case None => 0;
      if observed != expected { return Err(HeadConflict(expected, Head(Log(stream)))); }
      Insert(stream, Event(expected + 1, rec.kind, rec.patch, rec.meta, at));
      return Ok(Committed(expected + 1, at));
    }

    /** The maintenance transaction on the rows: prefix out, snapshot in. */
    method ReplacePrefix(stream: StreamId, upTo: nat, state: Json, time: int)
      requires Valid() && 1 <= upTo <= |History(stream)| && BoundaryOf(stream) <= upTo
      modifies this
      ensures Valid() && histories == old(histories) && boundaries == old(boundaries)[stream := upTo]
      ensures logs == old(logs)[stream := CompactedTo(old(Log(stream)), upTo, state, time)]
    {
      hide Shaped, Replay, Numbered;
      ShapedAfter(Log(stream), History(stream), BoundaryOf(stream), upTo, state, time);
      logs := logs[stream := CompactedTo(Log(stream), upTo, state, time)];
      boundaries := boundaries[stream := upTo];
      forall s: StreamId ensures Shaped(Log(s), History(s), BoundaryOf(s)) {
        if s != stream { assert old(Shaped(Log(s), History(s), BoundaryOf(s))); }
      }
    }

    /** The default `read_by_meta`: page through `read` in batches and filter. */
    method ReadByMeta(stream: StreamId, field: string, value: Json, from: nat, limit: nat) returns (out: seq<Event>)
      requires Valid()
      ensures out == FirstMatches(Log(stream), field, value, from, limit)
    {
      hide Shaped, Replay, From, Matching, Numbered, MetaIs;
      if limit == 0 { return []; }
      var log := Log(stream);
      ghost var first := if BoundaryOf(stream) == 0 then 1 else BoundaryOf(stream);
      assert Numbered(log, first) by { ShapedNumbered(log, History(stream), BoundaryOf(stream)); }
      ghost var rows := From(log, from);
      ghost var done: nat := 0;
      NothingMatches(field, value);
      out := [];
      var cursor := from;
      while true
        invariant done <= |rows| && From(log, cursor) == rows[done..]
        invariant out == Matching(rows[..done], field, value) && |out| < limit
        decreases |rows| - done
      {
        var events := Read(log, cursor, META_BATCH);
        if events == [] { break; }
        var last := events[|events| - 1].seqNo;
        PageDone(log, first, cursor, META_BATCH);
        for i := 0 to |events|
          invariant out == Matching(rows[..done + i], field, value) && |out| < limit
        {
          assert rows[..done + i + 1] == rows[..done + i] + [events[i]];
          MatchingAppend(rows[..done + i], events[i], field, value);
          if MetaIs(events[i], field, value) {
            out := out + [events[i]];
            if |out| >= limit {
              MatchingPrefix(rows, done + i + 1, field, value);
              return;
            }
          }
        }
        done := done + |events|;
        cursor := last + 1;
      }
      assert rows[..done] == rows;
    }
  }

  const META_BATCH: nat := 128

  // ---- read_by_meta -----------------------------------------------------------------

  predicate MetaIs(e: Event, field: string, value: Json) {
    e.meta.Object? && field in e.meta.fields && e.meta.fields[field] == value
  }

  function Matching(events: seq<Event>, field: string, value: Json): seq<Event> {
    if events == [] then []
    else (if MetaIs(events[0], field, value) then [events[0]] else []) + Matching(events[1..], field, value)
  }

  /** The first `limit` matching events at or after `from`. */
  function FirstMatches(log: seq<Event>, field: string, value: Json, from: nat, limit: nat): seq<Event> {
    var all := Matching(From(log, from), field, value);
    if |all| <= limit then all else all[..limit]
  }

  lemma NothingMatches(field: string, value: Json)
    ensures Matching([], field, value) == []
  {
  }

  lemma {:induction false} MatchingConcat(a: seq<Event>, b: seq<Event>, field: string, value: Json)
    ensures Matching(a + b, field, value) == Matching(a, field, value) + Matching(b, field, value)
    decreases |a|
  {
    hide MetaIs;
    if a == [] {
      assert a + b == b;
    } else {
      MatchingConcat(a[1..], b, field, value);
      var first := if MetaIs(a[0], field, value) then [a[0]] else [];
      assert Matching(a + b, field, value) == first + Matching(a[1..] + b, field, value) by {
        assert (a + b)[0] == a[0] && (a + b)[1..] == a[1..] + b;
      }
      assert Matching(a, field, value) == first + Matching(a[1..], field, value);
    }
  }

  lemma MatchingAppend(a: seq<Event>, e: Event, field: string, value: Json)
    ensures Matching(a + [e], field, value) == Matching(a, field, value) + if MetaIs(e, field, value) then [e] else []
  {
    MatchingConcat(a, [e], field, value);
    assert [e][1..] == [];
  }

  lemma MatchingPrefix(rows: seq<Event>, n: nat, field: string, value: Json)
    requires n <= |rows|
    ensures Matching(rows[..n], field, value) <= Matching(rows, field, value)
  {
    MatchingConcat(rows[..n], rows[n..], field, value);
    assert rows[..n] + rows[n..] == rows;
  }

  lemma PageDone(log: seq<Event>, first: nat, cursor: nat, batch: nat)
    requires Numbered(log, first) && batch > 0 && Read(log, cursor, batch) != []
    ensures var page := Read(log, cursor, batch);
            && |page| <= |From(log, cursor)| && page == From(log, cursor)[..|page|]
            && From(log, page[|page| - 1].seqNo + 1) == From(log, cursor)[|page|..]
  {
    FromNumbered(log, first, cursor);
    var page := Read(log, cursor, batch);
    FromNumbered(log, first, page[|page| - 1].seqNo + 1);
  }

  /**
   * What "first `limit` matches from `from`" means: matching rows in log order,
   * none before `from`, none left out before one that is in, and fewer than
   * `limit` only if there are no more.
   */
  lemma FirstMatchesAre(log: seq<Event>, first: nat, field: string, value: Json, from: nat, limit: nat, e: Event)
    requires Numbered(log, first)
    ensures var out := FirstMatches(log, field, value, from, limit);
            var matches := e.meta.Object? && field in e.meta.fields && e.meta.fields[field] == value;
            && |out| <= limit
            && (e in out ==> e in log && from <= e.seqNo && matches)
            && (e in log && from <= e.seqNo && matches && e !in out ==>
                  |out| == limit && forall o :: o in out ==> o.seqNo < e.seqNo)
  {
    hide Matching, From;
    var rows := From(log, from);
    FromNumbered(log, first, from);
    var skip := Min(Monus(from, first), |log|);
    assert Numbered(rows, first + skip);
    var all := Matching(rows, field, value);
    MatchingIs(rows, first + skip, field, value);
    var out := FirstMatches(log, field, value, from, limit);
    assert e in rows ==> e in log;
    if e in log && from <= e.seqNo && MetaIs(e, field, value) && e !in out {
      var i :| 0 <= i < |log| && log[i] == e;
      assert rows[i - skip] == e;
      assert e in all;
      var j :| 0 <= j < |all| && all[j] == e;
      assert forall n :: 0 <= n < |out| ==> out[n] == all[n];
    }
  }

  lemma {:induction false} MatchingIs(rows: seq<Event>, first: nat, field: string, value: Json)
    requires Numbered(rows, first)
    ensures var all := Matching(rows, field, value);
            && (forall i, j :: 0 <= i < j < |all| ==> all[i].seqNo < all[j].seqNo)
            && (forall e :: e in all <==> e in rows && MetaIs(e, field, value))
            && (forall i :: 0 <= i < |all| ==> first <= all[i].seqNo)
    decreases |rows|
  {
    if rows != [] {
      MatchingIs(rows[1..], first + 1, field, value);
      assert rows == [rows[0]] + rows[1..];
    }
  }

  // ---- the cache ----------------------------------------------------------------------

  /** Exactly the `keep` latest entries are left. */
  ghost predicate PrunedTo(before: Cache, after: Cache, keep: nat) {
    && after.Keys <= before.Keys && (forall k :: k in after ==> after[k] == before[k])
    && |after| == Min(keep, |before|)
    && forall k, d :: k in after && d in before && d !in after ==> d < k
  }

  function MinKey(keys: set<nat>): (k: nat)
    requires keys != {}
    ensures k in keys && forall j :: j in keys ==> k <= j
  {
    HasMin(keys);
    var k :| k in keys && forall j :: j in keys ==> k <= j;
    k
  }

  lemma HasMin(keys: set<nat>)
    requires keys != {}
    ensures exists k :: k in keys && forall j :: j in keys ==> k <= j
  {
    var k :| k in keys;
    HasMinBelow(keys, k);
  }

  lemma {:induction false} HasMinBelow(keys: set<nat>, k: nat)
    requires k in keys
    ensures exists m :: m in keys && forall j :: j in keys ==> m <= j
    decreases k
  {
    if j :| j in keys && j < k {
      HasMinBelow(keys, j);
    }
  }

  /** The `n` smallest keys, in order. */
  function FirstKeys(keys: set<nat>, n: nat): (r: seq<nat>)
    requires n <= |keys|
    ensures |r| == n
    ensures forall i :: 0 <= i < n ==> r[i] in keys
    ensures forall i, j :: 0 <= i < j < n ==> r[i] < r[j]
    ensures forall i, k :: 0 <= i < n && k in keys && k !in r ==> r[i] < k
    decreases n
  {
    if n == 0 then []
    else
      var k := MinKey(keys);
      [k] + FirstKeys(keys - {k}, n - 1)
  }

  function Without(cache: Cache, key: nat): (r: Cache)
    requires key in cache
    ensures |r| == |cache| - 1 && forall k :: k in r <==> k in cache && k != key
    ensures forall k :: k in r ==> r[k] == cache[k]
  {
    var r := cache - {key};
    assert r.Keys == cache.Keys - {key} && |r.Keys| == |r| && |cache.Keys| == |cache|;
    r
  }

  class CacheBackend {
    var entries: map<StreamId, Cache>

    function Of(stream: StreamId): Cache
      reads this
    {
      if stream in entries then entries[stream] else map[]
    }

    constructor ()
      ensures entries == map[]
    {
      entries := map[];
    }

    method Put(stream: StreamId, at: nat, state: Json, works: bool) returns (ok: bool)
      modifies this
      ensures ok == works
      ensures entries == if works then old(entries)[stream := old(Of(stream))[at := state]] else old(entries)
    {
      if works {
        entries := entries[stream := Of(stream)[at := state]];
      }
      ok := works;
    }

    method Prune(stream: StreamId, keepLatest: nat)
      modifies this
      ensures PrunedTo(old(Of(stream)), Of(stream), keepLatest)
      ensures forall s :: s != stream ==> Of(s) == old(Of(s))
    {
      if stream !in entries { return; }
      var before := entries[stream];
      if |before| <= keepLatest { return; }
      assert |before.Keys| == |before|;
      var dropKeys := FirstKeys(before.Keys, |before| - keepLatest);
      var kept := before;
      for i := 0 to |dropKeys|
        invariant forall k :: k in kept <==> k in before && k !in dropKeys[..i]
        invariant forall k :: k in kept ==> kept[k] == before[k]
        invariant |kept| == |before| - i
      {
        assert dropKeys[i] !in dropKeys[..i];
        assert dropKeys[..i + 1] == dropKeys[..i] + [dropKeys[i]];
        kept := Without(kept, dropKeys[i]);
      }
      assert dropKeys[..|dropKeys|] == dropKeys;
      entries := entries[stream := kept];
    }

    /** The maintenance transaction on the cache: rows below the boundary go. */
    method DropBelow(stream: StreamId, at: nat)
      modifies this
      ensures entries == old(entries)[stream := map k | k in old(Of(stream)) && k >= at :: old(Of(stream))[k]]
    {
      var kept := map k | k in Of(stream) && k >= at :: Of(stream)[k];
      entries := entries[stream := kept];
    }
  }
}
