/**
 * The SQLite read model: one row a stream, upserted under a guard on the
 * coordinate, and what its table says about the store it is fed from.
 */
module ReadModel {
  import opened Wrappers
  import opened Json
  import opened Events
  import opened Upcasting
  import opened Reads
  import opened Backends
  import opened Dispatcher
  import opened Store
  import opened Lifecycle

  datatype Row = Row(state: Json, lastSeq: nat, updatedAt: int, live: bool)

  type Table = map<StreamId, Row>

  datatype Delivery = Delivery(stream: StreamId, seqNo: nat, state: Json, event: Event)

  class SqliteReadModel {
    var rows: Table
    const tombstone: Option<string>

    constructor (tombstone: Option<string>)
      ensures rows == map[] && this.tombstone == tombstone
    {
      rows, this.tombstone := map[], tombstone;
    }

    /** Insert, or on conflict update where the new coordinate is the greater. */
    method Commit(stream: StreamId, seqNo: nat, state: Json, event: Event)
      modifies this
      ensures rows == Upserted(tombstone, old(rows), Delivery(stream, seqNo, state, event))
    {
      var live := !(tombstone.Some? && tombstone.value == event.kind);
      var row := Row(state, seqNo, event.at, live);
      if stream !in rows {
        rows := rows[stream := row];
      } else if row.lastSeq > rows[stream].lastSeq {
        rows := rows[stream := row];
      }
    }

    method Get(stream: StreamId) returns (r: Option<Row>)
      ensures r == if stream in rows then Some(rows[stream]) else None
    {
      if stream in rows { return Some(rows[stream]); }
      return None;
    }
  }

  function RowOf(tombstone: Option<string>, d: Delivery): Row {
    Row(d.state, d.seqNo, d.event.at, tombstone != Some(d.event.kind))
  }

  function Upserted(tombstone: Option<string>, rows: Table, d: Delivery): Table {
    if d.stream in rows && d.seqNo <= rows[d.stream].lastSeq then rows else rows[d.stream := RowOf(tombstone, d)]
  }

  /** The table after a run of deliveries into an empty one. */
  function Fed(tombstone: Option<string>, deliveries: seq<Delivery>): Table {
    if deliveries == [] then map[]
    else Upserted(tombstone, Fed(tombstone, deliveries[..|deliveries| - 1]), deliveries[|deliveries| - 1])
  }

  /** The i-th delivery has the stream's greatest coordinate, and is the first that has it. */
  ghost predicate Newest(deliveries: seq<Delivery>, i: int)
    ensures Newest(deliveries, i) ==> 0 <= i < |deliveries|
  {
    && 0 <= i < |deliveries|
    && forall j :: 0 <= j < |deliveries| && deliveries[j].stream == deliveries[i].stream ==>
         deliveries[j].seqNo <= deliveries[i].seqNo && (j < i ==> deliveries[j].seqNo < deliveries[i].seqNo)
  }

  lemma NewestKept(deliveries: seq<Delivery>, d: Delivery, i: int)
    requires Newest(deliveries, i) && (d.stream == deliveries[i].stream ==> d.seqNo <= deliveries[i].seqNo)
    ensures Newest(deliveries + [d], i)
  {
    assert forall j :: 0 <= j < |deliveries| ==> (deliveries + [d])[j] == deliveries[j];
  }

  lemma NewestNow(deliveries: seq<Delivery>, d: Delivery)
    requires forall j :: 0 <= j < |deliveries| && deliveries[j].stream == d.stream ==> deliveries[j].seqNo < d.seqNo
    ensures Newest(deliveries + [d], |deliveries|)
  {
  }

  lemma {:induction false} RowsCover(tombstone: Option<string>, deliveries: seq<Delivery>)
    ensures var rows := Fed(tombstone, deliveries);
            forall i :: 0 <= i < |deliveries| ==>
                      deliveries[i].stream in rows && deliveries[i].seqNo <= rows[deliveries[i].stream].lastSeq
    decreases |deliveries|
  {
    if deliveries != [] {
      var last := |deliveries| - 1;
      var before := deliveries[..last];
      RowsCover(tombstone, before);
      assert forall i :: 0 <= i < last ==> deliveries[i] == before[i];
    }
  }

  /** In any order, with duplicates and stale redeliveries: a row per delivered stream, and it is the newest delivery. */
  lemma {:induction false} RowIsNewest(tombstone: Option<string>, deliveries: seq<Delivery>)
    ensures var rows := Fed(tombstone, deliveries);
            && (forall i :: 0 <= i < |deliveries| ==> deliveries[i].stream in rows)
            && (forall s :: s in rows ==>
                      exists i :: Newest(deliveries, i) && deliveries[i].stream == s
                                  && rows[s] == RowOf(tombstone, deliveries[i]))
    decreases |deliveries|
  {
    hide Newest;
    RowsCover(tombstone, deliveries);
    if deliveries != [] {
      var last := |deliveries| - 1;
      var before, d := deliveries[..last], deliveries[last];
      assert deliveries == before + [d];
      RowIsNewest(tombstone, before);
      RowsCover(tombstone, before);
      var rows, was := Fed(tombstone, deliveries), Fed(tombstone, before);
      forall s | s in rows ensures
                exists i :: Newest(deliveries, i) && deliveries[i].stream == s && rows[s] == RowOf(tombstone, deliveries[i]) {
        if s == d.stream && !(s in was && d.seqNo <= was[s].lastSeq) {
          NewestNow(before, d);
        } else {
          var i :| Newest(before, i) && before[i].stream == s && was[s] == RowOf(tombstone, before[i]);
          NewestKept(before, d, i);
        }
      }
    }
  }

  /** One coordinate of a stream always comes with the same state and event. */
  ghost predicate Consistent(deliveries: seq<Delivery>) {
    forall i, j :: (0 <= i < |deliveries| && 0 <= j < |deliveries| && deliveries[i].stream == deliveries[j].stream
                    && deliveries[i].seqNo == deliveries[j].seqNo) ==> deliveries[i] == deliveries[j]
  }

  /** Convergence: two runs over the same deliveries end in the same table, whatever the order and repetitions. */
  lemma OrderDoesNotMatter(tombstone: Option<string>, a: seq<Delivery>, b: seq<Delivery>)
    requires Consistent(a) && forall d :: d in a <==> d in b
    ensures Fed(tombstone, a) == Fed(tombstone, b)
  {
    RowIsNewest(tombstone, a);
    RowIsNewest(tombstone, b);
    forall d | d in a ensures d in b {}
    var x, y := Fed(tombstone, a), Fed(tombstone, b);
    forall s | s in x || s in y ensures s in x && s in y && x[s] == y[s] {
      if s in x { SameRow(tombstone, a, b, s); } else { BackAgain(a, b); SameRow(tombstone, b, a, s); }
    }
  }

  lemma BackAgain(a: seq<Delivery>, b: seq<Delivery>)
    requires Consistent(a) && forall d :: d in a <==> d in b
    ensures Consistent(b)
  {
    forall i, j | 0 <= i < |b| && 0 <= j < |b| && b[i].stream == b[j].stream && b[i].seqNo == b[j].seqNo ensures b[i] == b[j] {
      assert b[i] in a && b[j] in a;
    }
  }

  lemma SameRow(tombstone: Option<string>, a: seq<Delivery>, b: seq<Delivery>, stream: StreamId)
    requires Consistent(a) && (forall d :: d in a <==> d in b) && stream in Fed(tombstone, a)
    ensures stream in Fed(tombstone, b) && Fed(tombstone, a)[stream] == Fed(tombstone, b)[stream]
  {
    hide Fed, Newest;
    var i := NewestOf(tombstone, a, stream);
    assert a[i] in b;
    var k :| 0 <= k < |b| && b[k] == a[i];
    RowIsNewest(tombstone, b);
    var j := NewestOf(tombstone, b, stream);
    assert b[j] in a;
    var l :| 0 <= l < |a| && a[l] == b[j];
    NewestBounds(a, i, l);
    NewestBounds(b, j, k);
  }

  lemma NewestOf(tombstone: Option<string>, deliveries: seq<Delivery>, stream: StreamId) returns (i: nat)
    requires stream in Fed(tombstone, deliveries)
    ensures Newest(deliveries, i) && i < |deliveries| && deliveries[i].stream == stream
    ensures Fed(tombstone, deliveries)[stream] == RowOf(tombstone, deliveries[i])
  {
    hide Fed;
    RowIsNewest(tombstone, deliveries);
    i :| Newest(deliveries, i) && deliveries[i].stream == stream
        && Fed(tombstone, deliveries)[stream] == RowOf(tombstone, deliveries[i]);
  }

  lemma NewestBounds(deliveries: seq<Delivery>, i: nat, j: nat)
    requires Newest(deliveries, i) && j < |deliveries| && deliveries[j].stream == deliveries[i].stream
    ensures deliveries[j].seqNo <= deliveries[i].seqNo
  {
  }

  // ---- what the table says about the store --------------------------------------------

  /**
   * What a sink is handed for a stream at a coordinate of its history: the true
   * state, with the event committed there or with the row the log now has there.
   */
  ghost predicate Faithful(store: Store, d: Delivery)
    reads store.events
  {
    && 1 <= d.seqNo <= |store.Seen(d.stream)| && Truth(store.Seen(d.stream), d.seqNo) == Ok(d.state)
    && (d.event == store.Seen(d.stream)[d.seqNo - 1] || FromLog(store, d))
  }

  /** The event is a row of the log as it is, read through the chain. */
  ghost predicate FromLog(store: Store, d: Delivery)
    reads store.events
  {
    d.event.seqNo == d.seqNo && d.event in UpcastAll(store.upcasters, store.events.Log(d.stream))
  }

  /**
   * Once the head of a stream was delivered, at whatever point among whatever
   * other true deliveries, its row is the state `Store::state` returns, and its
   * live flag says whether `streams_live` lists it, unless the stream was
   * compacted at its head after the delivery.
   */
  lemma RowIsHead(store: Store, tombstone: Option<string>, deliveries: seq<Delivery>, stream: StreamId)
    requires store.Valid() && forall d :: d in deliveries ==> Faithful(store, d)
    requires store.Seen(stream) != [] && exists d :: d in deliveries && d.stream == stream && d.seqNo == |store.Seen(stream)|
    ensures stream in Fed(tombstone, deliveries)
    ensures var row, seen := Fed(tombstone, deliveries)[stream], store.Seen(stream);
            && row.lastSeq == |seen| && Ok(row.state) == store.Current(stream) && row.updatedAt == seen[|seen| - 1].at
            && (tombstone == Some(TOMBSTONE_KIND)
                && (store.events.BoundaryOf(stream) < |seen| ||
                    forall d :: d in deliveries && d.stream == stream ==> FromLog(store, d))
                ==> (row.live <==> store.ListedLive(stream)))
  {
    hide Fed, Truth, Newest, HoldsSeen, CacheOk, KeepsSeq, Shaped;
    var head :| head in deliveries && head.stream == stream && head.seqNo == |store.Seen(stream)|;
    var n :| 0 <= n < |deliveries| && deliveries[n] == head;
    RowIsNewest(tombstone, deliveries);
    var i := NewestOf(tombstone, deliveries, stream);
    assert Faithful(store, deliveries[i]);
    NewestBounds(deliveries, i, n);
    HeadEvent(store.upcasters, store.events.Log(stream), store.events.History(stream), store.Seen(stream),
        store.events.BoundaryOf(stream), deliveries[i].event);
  }

  /** The row at the head carries the head event's time, and is the head event unless it is a snapshot. */
  lemma HeadEvent(chain: seq<Upcaster>, log: seq<Event>, history: seq<Event>, seen: seq<Event>, boundary: nat, e: Event)
    requires HoldsSeen(chain, log, history, boundary) && KeepsSeq(chain) && seen == UpcastAll(chain, history) && seen != []
    requires e == seen[|seen| - 1] || (e in UpcastAll(chain, log) && e.seqNo == |seen|)
    ensures e.at == seen[|seen| - 1].at
    ensures boundary < |seen| || e in UpcastAll(chain, log) ==>
              (e.kind != TOMBSTONE_KIND <==> Live(seen) || boundary == |seen|)
  {
    hide Truth;
    ShapedNumbered(log, history, boundary);
    var rows := UpcastAll(chain, log);
    if e in rows && e.seqNo == |seen| {
      var i :| 0 <= i < |rows| && rows[i] == e;
      assert rows[i].seqNo == log[i].seqNo && i == |rows| - 1;
    }
  }

  function DeliveryOf(call: Call): Delivery {
    Delivery(call.key.stream, call.seqNo, call.state, call.event)
  }

  /**
   * After a rebuild whose resets were stored and that had no failure, the read model is the store:
   * a row for exactly the accepted streams that have events, each with the
   * state `Store::state` returns, and live exactly where `streams_live` lists
   * it. Refused commits may or may not have been written.
   */
  lemma RebuiltModelIsStore(store: Store, sink: SinkInfo, o: Marks, u: Course, report: Report,
                            tombstone: Option<string>, deliveries: seq<Delivery>, stream: StreamId)
    requires store.Valid() && CaughtUp(store, sink, true, o, u, Ok(report)) && report.failures == []
    requires forall s :: store.dispatcher.Backend().Zeroes(Key(sink.id, s))
    requires tombstone == Some(TOMBSTONE_KIND)
    requires forall i :: |o.calls| <= i < |store.dispatcher.calls| && store.dispatcher.calls[i].ok ==>
             DeliveryOf(store.dispatcher.calls[i]) in deliveries
    requires forall d :: d in deliveries ==>
              exists i :: |o.calls| <= i < |store.dispatcher.calls| && DeliveryOf(store.dispatcher.calls[i]) == d
    ensures var rows := Fed(tombstone, deliveries);
            && (stream in rows <==> sink.accepts(stream) && store.Seen(stream) != [])
            && (stream in rows ==> store.Current(stream) == Ok(rows[stream].state) && (rows[stream].live <==>
                 store.ListedLive(stream)))
  {
    hide Fed, Truth, CaughtUp, HoldsSeen, Shaped, CacheOk, KeepsSeq;
    assert CallsTrue(store, sink, o.calls, store.dispatcher.calls) by { CaughtUpCalls(store, sink, true, o, u, report); }
    forall d | d in deliveries ensures Faithful(store, d) && FromLog(store, d) && sink.accepts(d.stream) {
      var i :| |o.calls| <= i < |store.dispatcher.calls| && DeliveryOf(store.dispatcher.calls[i]) == d;
      assert CallTrue(store, sink, store.dispatcher.calls[i]);
    }
    RowIsNewest(tombstone, deliveries);
    if stream in Fed(tombstone, deliveries) {
      var i := NewestOf(tombstone, deliveries, stream);
      assert Faithful(store, deliveries[i]) && sink.accepts(deliveries[i].stream);
    }
    if sink.accepts(stream) && store.Seen(stream) != [] {
      HeadGot(store, sink, o, u, report, stream);
      RowIsHead(store, tombstone, deliveries, stream);
    }
  }

  lemma CaughtUpCalls(store: Store, sink: SinkInfo, reset: bool, o: Marks, u: Course, report: Report)
    requires CaughtUp(store, sink, reset, o, u, Ok(report))
    ensures CallsTrue(store, sink, o.calls, store.dispatcher.calls)
  {
  }

  lemma HeadGot(store: Store, sink: SinkInfo, o: Marks, u: Course, report: Report, stream: StreamId)
    requires store.Valid() && CaughtUp(store, sink, true, o, u, Ok(report)) && report.failures == []
    requires store.dispatcher.Backend().Zeroes(Key(sink.id, stream))
    requires sink.accepts(stream) && store.Seen(stream) != []
    ensures exists i :: |o.calls| <= i < |store.dispatcher.calls| && store.dispatcher.calls[i].ok
                        && store.dispatcher.calls[i].key.stream == stream &&
                             store.dispatcher.calls[i].seqNo == |store.Seen(stream)|
  {
    hide Truth, Replay, CacheOk, CaughtUp, HoldsSeen, Shaped;
    var log, history := store.events.Log(stream), store.events.History(stream);
    ShapedNumbered(log, history, store.events.BoundaryOf(stream));
    var n := |log| - 1;
    RebuildIsWhole(store, sink, o, u, report, stream, n);
    assert Upcast(store.upcasters, log[n]).seqNo == log[n].seqNo;
  }
}
