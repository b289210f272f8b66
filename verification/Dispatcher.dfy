/** The sink registry and its checkpoints, one call at a time. */
module Dispatcher {
  import opened Wrappers
  import opened Json
  import opened Events

  datatype SinkInfo = SinkInfo(id: SinkId, accepts: StreamId -> bool, requiresRebuild: bool)

  /** One `commit` call on a sink, and whether it returned Ok. */
  datatype Call = Call(key: Key, seqNo: nat, state: Json, event: Event, ok: bool)

  /** What the checkpoint backend does when asked: which rows it reads, which coordinates it stores, which resets. */
  datatype Keeper = Keeper(loads: Key -> bool, persists: (Key, nat) -> bool, zeroes: Key -> bool)

  /** Is there a checkpoint backend, and how does it behave? */
  datatype Backing = Backing(durable: bool, keeper: Keeper) {
    predicate Loads(key: Key) { durable && keeper.loads(key) }

    predicate Persists(key: Key, seqNo: nat) { !durable || keeper.persists(key, seqNo) }

    predicate Zeroes(key: Key) { !durable || keeper.zeroes(key) }
  }

  class SinkDispatcher {
    var sinks: seq<SinkInfo>
    var checkpoints: map<Key, nat>
    const durable: bool                // is there a CheckpointBackend?
    var stored: map<Key, nat>          // its rows
    var keeper: Keeper                 // its behaviour; the environment sets it between calls, nothing here does
    var rebuilt: set<SinkId>
    var calls: seq<Call>               // every commit call on any sink, in order
    var notices: seq<Call>             // failures handed to the observer

    ghost predicate Valid()
      reads this
    {
      forall i, j :: 0 <= i < j < |sinks| ==> sinks[i].id != sinks[j].id
    }

    constructor (durable: bool, stored: map<Key, nat>, keeper: Keeper)
      ensures Valid() && sinks == [] && checkpoints == map[] && this.stored == stored && this.durable == durable
      ensures rebuilt == {} && calls == [] && notices == [] && this.keeper == keeper
    {
      sinks, checkpoints, rebuilt, calls, notices := [], map[], {}, [], [];
      this.durable := durable;
      this.stored := stored;
      this.keeper := keeper;
    }

    ghost function Backend(): Backing
      reads this`keeper
    {
      Backing(durable, keeper)
    }

    method Attach(sink: SinkInfo) returns (r: Result<()>)
      requires Valid()
      modifies this`sinks
      ensures Valid()
      ensures (exists s :: s in old(sinks) && s.id == sink.id) ==> r == Err(SinkAlreadyAttached) && sinks == old(sinks)
      ensures !(exists s :: s in old(sinks) && s.id == sink.id) ==> r == Ok(()) && sinks == old(sinks) + [sink]
    {
      if exists i :: 0 <= i < |sinks| && sinks[i].id == sink.id { return Err(SinkAlreadyAttached); }
      sinks := sinks + [sink];
      return Ok(());
    }

    method FindSink(id: SinkId) returns (r: Option<SinkInfo>)
      ensures r == Lookup(sinks, id)
    {
      for i := 0 to |sinks|
        invariant Lookup(sinks, id) == Lookup(sinks[i..], id)
      {
        if sinks[i].id == id { return Some(sinks[i]); }
      }
      return None;
    }

    /** Memory first, then the backend, where a failing read gives zero. */
    method CheckpointGet(key: Key) returns (value: nat)
      modifies this`checkpoints
      ensures key in old(checkpoints) ==> value == old(checkpoints)[key]
      ensures key !in old(checkpoints) && durable && keeper.loads(key) && key in stored ==> value == stored[key]
      ensures key !in old(checkpoints) && !(durable && keeper.loads(key) && key in stored) ==> value == 0
      ensures value == CheckpointOf(Backend(), old(checkpoints), stored, key)
      ensures checkpoints == old(checkpoints)[key := value]
    {
      if key in checkpoints {
        assert checkpoints[key := checkpoints[key]] == checkpoints;
        return checkpoints[key];
      }
      value := 0;
      if durable && keeper.loads(key) && key in stored {
        value := stored[key];
      }
      checkpoints := checkpoints[key := value];
    }

    /** Backend first; memory follows only if that worked. */
    method CheckpointAdvance(key: Key, seqNo: nat) returns (ok: bool)
      modifies this`checkpoints, this`stored
      ensures ok <==> !durable || keeper.persists(key, seqNo)
      ensures checkpoints == if ok then old(checkpoints)[key := seqNo] else old(checkpoints)
      ensures stored == if durable && ok then old(stored)[key := seqNo] else old(stored)
    {
      if durable {
        if !keeper.persists(key, seqNo) { return false; }
        stored := stored[key := seqNo];
      }
      checkpoints := checkpoints[key := seqNo];
      return true;
    }

    /** The source drops what became of the put. */
    method CheckpointReset(key: Key)
      modifies this`checkpoints, this`stored
      ensures checkpoints == old(checkpoints) - {key}
      ensures stored == if durable && keeper.zeroes(key) then old(stored)[key := 0] else old(stored)
    {
      checkpoints := checkpoints - {key};
      if durable && keeper.zeroes(key) {
        stored := stored[key := 0];
      }
    }

    /** The environment: a sink takes the call and answers as it likes. */
    method Commit(key: Key, seqNo: nat, state: Json, event: Event) returns (ok: bool)
      modifies this`calls
      ensures calls == old(calls) + [Call(key, seqNo, state, event, ok)]
    {
      ok := *;
      calls := calls + [Call(key, seqNo, state, event, ok)];
    }

    ghost function Now(): Marks
      reads this
    {
      Marks(checkpoints, stored, calls, notices)
    }

    /** One sink's turn in a live dispatch. */
    method Offer(key: Key, seqNo: nat, state: Json, event: Event)
      modifies this`checkpoints, this`stored, this`calls, this`notices
      ensures OneTurn(Backend(), old(Now()), Now(), key, seqNo, state, event)
    {
      var value := CheckpointGet(key);
      if seqNo <= value { return; }
      var ok := Commit(key, seqNo, state, event);
      if ok {
        if seqNo == value + 1 {
          var advanced := CheckpointAdvance(key, seqNo);
        }
      } else {
        notices := notices + [calls[|calls| - 1]];
      }
    }

    /**
     * Live dispatch. Every accepting sink is offered the event in registration
     * order, and called once unless its checkpoint, as read, already covers the
     * event. Its checkpoint stays as read unless the call succeeded and the event
     * is the next one, and what is stored follows the same rule; exactly the
     * refused calls are reported; and no other key is touched. `turns` lists the
     * registry positions called.
     */
    method DispatchCommit(stream: StreamId, seqNo: nat, state: Json, event: Event) returns (ghost turns: seq<nat>)
      requires Valid()
      modifies this`checkpoints, this`stored, this`calls, this`notices
      ensures old(calls) <= calls && |calls| == |old(calls)| + |turns|
      ensures forall i :: |old(calls)| <= i < |calls| ==> Proper(calls[i], stream, seqNo, state, event)
      ensures InTurn(sinks, turns, |sinks|, calls[|old(calls)|..], stream)
      ensures forall s :: s in sinks && s.accepts(stream) ==> Offered(Key(s.id, stream), seqNo, |old(calls)|)
      ensures forall s :: s in sinks && s.accepts(stream) ==>
                Settled(Backend(), old(Now()), Now(), calls[|old(calls)|..], Key(s.id, stream), seqNo)
      ensures notices == old(notices) + Refused(calls[|old(calls)|..])
      ensures forall key :: !Serves(sinks, key, stream) ==> Same(key)
    {
      hide Serves, InTurn, Settled, OneTurn, Refused;
      turns := [];
      ghost var o := Now();
      NothingDispatched(Backend(), sinks, o, stream, seqNo, state, event);
      for i := 0 to |sinks|
        invariant Dispatched(Backend(), sinks, i, o, Now(), turns, stream, seqNo, state, event)
      {
        ghost var m := Now();
        if sinks[i].accepts(stream) {
          Offer(Key(sinks[i].id, stream), seqNo, state, event);
          TurnTaken(Backend(), sinks, i, o, m, Now(), turns, stream, seqNo, state, event);
          turns := if calls == m.calls then turns else turns + [i];
        } else {
          TurnPassed(Backend(), sinks, i, o, m, turns, stream, seqNo, state, event);
        }
      }
      assert sinks[..|sinks|] == sinks;
      AllOffered(Backend(), sinks, o, Now(), turns, stream, seqNo, state, event);
    }

    /** The checkpoints held in memory and stored are the ones from before. */
    twostate predicate Same(key: Key)
      reads this
    {
      SameAt(old(checkpoints), checkpoints, key) && SameAt(old(stored), stored, key)
    }

    /** A call this dispatch is entitled to make. */
    ghost predicate Proper(call: Call, stream: StreamId, seqNo: nat, state: Json, event: Event)
      reads this
    {
      && (exists s :: s in sinks && s.id == call.key.sink && s.accepts(stream))
      && call == Call(Key(call.key.sink, stream), seqNo, state, event, call.ok)
    }

    /** Called since, or already covered by its checkpoint. */
    ghost predicate Offered(key: Key, seqNo: nat, since: nat)
      reads this
    {
      Taken(calls, checkpoints, key, seqNo, since)
    }
  }

  /** What a key's checkpoint reads as: memory first, else what the backend gives, where a failing read gives zero. */
  function CheckpointOf(b: Backing, checkpoints: map<Key, nat>, stored: map<Key, nat>, key: Key): nat {
    if key in checkpoints then checkpoints[key]
    else if b.Loads(key) && key in stored then stored[key] else 0
  }

  ghost predicate SameAt(before: map<Key, nat>, after: map<Key, nat>, key: Key) {
    (key in after <==> key in before) && (key in after ==> after[key] == before[key])
  }

  /** The call made for this key, if there was one. */
  function CallFor(calls: seq<Call>, key: Key): Option<Call> {
    if calls == [] then None
    else if calls[|calls| - 1].key == key then Some(calls[|calls| - 1])
    else CallFor(calls[..|calls| - 1], key)
  }

  /** The refused ones of these calls, in order. */
  function Refused(calls: seq<Call>): seq<Call> {
    if calls == [] then []
    else Refused(calls[..|calls| - 1]) + if calls[|calls| - 1].ok then [] else [calls[|calls| - 1]]
  }

  /** The calls made, the failures reported and the checkpoints kept at some moment. */
  datatype Marks = Marks(checkpoints: map<Key, nat>, stored: map<Key, nat>, calls: seq<Call>, notices: seq<Call>)

  /** One offer: what it changes, by the checkpoint it read and what the sink answered. */
  ghost predicate OneTurn(b: Backing, m: Marks, n: Marks, key: Key, seqNo: nat, state: Json, event: Event) {
    var checkpoint := CheckpointOf(b, m.checkpoints, m.stored, key);
    if seqNo <= checkpoint then n == m.(checkpoints := m.checkpoints[key := checkpoint])
    else
      && |n.calls| == |m.calls| + 1
      && var call := n.calls[|m.calls|];
      && call == Call(key, seqNo, state, event, call.ok) && n.calls == m.calls + [call]
      && n.notices == (if call.ok then m.notices else m.notices + [call])
      && var advances := call.ok && seqNo == checkpoint + 1 && b.Persists(key, seqNo);
      && n.checkpoints == m.checkpoints[key := if advances then seqNo else checkpoint]
      && n.stored == if b.durable && advances then m.stored[key := seqNo] else m.stored
  }

  /**
   * What a whole dispatch makes of one key. There is a call unless the checkpoint,
   * as read before it, covers the event. Memory then holds that checkpoint, or the
   * event's coordinate if the call succeeded, the event is the next one and it could
   * be stored; and the stored row is the old one, or follows.
   */
  ghost predicate Settled(b: Backing, o: Marks, m: Marks, made: seq<Call>, key: Key, seqNo: nat) {
    var checkpoint, call := CheckpointOf(b, o.checkpoints, o.stored, key), CallFor(made, key);
    && (call.Some? <==> checkpoint < seqNo) && key in m.checkpoints
    && (if call.Some? && call.value.ok && seqNo == checkpoint + 1 && b.Persists(key, seqNo)
        then m.checkpoints[key] == seqNo && (if b.durable then key in m.stored && m.stored[key] == seqNo
                                             else SameAt(o.stored, m.stored, key))
        else m.checkpoints[key] == checkpoint && SameAt(o.stored, m.stored, key))
  }

  /** The first `i` sinks have had their turn. */
  ghost predicate Dispatched(b: Backing, sinks: seq<SinkInfo>, i: nat, o: Marks, m: Marks, turns: seq<nat>, stream: StreamId,
                             seqNo: nat, state: Json, event: Event)
  {
    && i <= |sinks| && o.calls <= m.calls
    && var made := m.calls[|o.calls|..];
    && InTurn(sinks, turns, i, made, stream) && m.notices == o.notices + Refused(made)
    && (forall n :: 0 <= n < |made| ==> made[n] == Call(made[n].key, seqNo, state, event, made[n].ok))
    && (forall j :: 0 <= j < i && sinks[j].accepts(stream) ==> Settled(b, o, m, made, Key(sinks[j].id, stream), seqNo))
    && forall key :: !Serves(sinks[..i], key, stream) ==>
         SameAt(o.checkpoints, m.checkpoints, key) && SameAt(o.stored, m.stored, key)
  }

  predicate Distinct(sinks: seq<SinkInfo>) {
    forall i, j :: 0 <= i < j < |sinks| ==> sinks[i].id != sinks[j].id
  }

  lemma NothingDispatched(b: Backing, sinks: seq<SinkInfo>, o: Marks, stream: StreamId, seqNo: nat, state: Json, event: Event)
    ensures Dispatched(b, sinks, 0, o, o, [], stream, seqNo, state, event)
  {
  }

  lemma TurnPassed(b: Backing, sinks: seq<SinkInfo>, i: nat, o: Marks, m: Marks, turns: seq<nat>, stream: StreamId,
                   seqNo: nat, state: Json, event: Event)
    requires Dispatched(b, sinks, i, o, m, turns, stream, seqNo, state, event) && i < |sinks| && !sinks[i].accepts(stream)
    ensures Dispatched(b, sinks, i + 1, o, m, turns, stream, seqNo, state, event)
  {
    hide Settled, Serves, Refused, SameAt;
    LaterServed(sinks, i, stream);
  }

  /** The calls made before and after one turn. */
  ghost predicate OneCall(made: seq<Call>, all: seq<Call>, key: Key) {
    all == made || (|all| == |made| + 1 && made == all[..|made|] && all[|made|].key == key)
  }

  lemma TurnTaken(b: Backing, sinks: seq<SinkInfo>, i: nat, o: Marks, m: Marks, n: Marks, turns: seq<nat>, stream: StreamId,
                  seqNo: nat, state: Json, event: Event)
    requires Distinct(sinks) && i < |sinks| && sinks[i].accepts(stream)
    requires Dispatched(b, sinks, i, o, m, turns, stream, seqNo, state, event)
    requires OneTurn(b, m, n, Key(sinks[i].id, stream), seqNo, state, event)
    ensures Dispatched(b, sinks, i + 1, o, n, if n.calls == m.calls then turns else turns + [i], stream, seqNo, state, event)
  {
    hide Settled, Serves, InTurn, OneTurn, Refused;
    var key, made := Key(sinks[i].id, stream), m.calls[|o.calls|..];
    TurnCalls(b, o, m, n, key, seqNo, state, event);
    var all := n.calls[|o.calls|..];
    LaterServed(sinks, i, stream);
    NotServedYet(sinks, i, stream);
    NotCalledYet(sinks, turns, i, made, stream);
    NowSettled(b, o, m, n, made, all, key, seqNo, state, event);
    forall j | 0 <= j < i && sinks[j].accepts(stream) ensures Settled(b, o, n, all, Key(sinks[j].id, stream), seqNo) {
      OnlyThisKey(b, m, n, key, Key(sinks[j].id, stream), seqNo, state, event);
      StaysSettled(b, o, m, n, made, all, Key(sinks[j].id, stream), key, seqNo);
    }
    forall k | !Serves(sinks[..i + 1], k, stream)
      ensures SameAt(o.checkpoints, n.checkpoints, k) && SameAt(o.stored, n.stored, k)
    {
      assert !Serves(sinks[..i], k, stream) && k != key;
      OnlyThisKey(b, m, n, key, k, seqNo, state, event);
    }
    if n.calls == m.calls {
      InTurnLater(sinks, turns, i, made, stream);
    } else {
      NextTurn(sinks, turns, i, made, stream, all[|made|]);
    }
  }

  /** What one turn adds to the calls and to the notices. */
  lemma TurnCalls(b: Backing, o: Marks, m: Marks, n: Marks, key: Key, seqNo: nat, state: Json, event: Event)
    requires OneTurn(b, m, n, key, seqNo, state, event) && o.calls <= m.calls
    ensures var made, all := m.calls[|o.calls|..], n.calls[|o.calls|..];
            && o.calls <= n.calls && OneCall(made, all, key)
            && (n.calls == m.calls <==> all == made)
            && (all != made ==> all == made + [all[|made|]] && all[|made|] == Call(key, seqNo, state, event, all[|made|].ok))
            && (m.notices == o.notices + Refused(made) ==> n.notices == o.notices + Refused(all))
  {
    var made, all := m.calls[|o.calls|..], n.calls[|o.calls|..];
    if n.calls != m.calls {
      assert all == made + [n.calls[|m.calls|]] && all[..|all| - 1] == made;
    }
  }

  lemma OnlyThisKey(b: Backing, m: Marks, n: Marks, key: Key, other: Key, seqNo: nat, state: Json, event: Event)
    requires OneTurn(b, m, n, key, seqNo, state, event) && other != key
    ensures SameAt(m.checkpoints, n.checkpoints, other) && SameAt(m.stored, n.stored, other)
  {
  }

  lemma NowSettled(b: Backing, o: Marks, m: Marks, n: Marks, made: seq<Call>, all: seq<Call>, key: Key, seqNo: nat,
                   state: Json, event: Event)
    requires OneTurn(b, m, n, key, seqNo, state, event) && o.calls <= m.calls && o.calls <= n.calls
    requires made == m.calls[|o.calls|..] && all == n.calls[|o.calls|..] && CallFor(made, key) == None
    requires SameAt(o.checkpoints, m.checkpoints, key) && SameAt(o.stored, m.stored, key)
    ensures Settled(b, o, n, all, key, seqNo)
  {
    if n.calls != m.calls {
      assert all[|all| - 1] == n.calls[|m.calls|];
    }
  }

  lemma StaysSettled(b: Backing, o: Marks, m: Marks, n: Marks, made: seq<Call>, all: seq<Call>, key: Key,
                     other: Key, seqNo: nat)
    requires Settled(b, o, m, made, key, seqNo) && OneCall(made, all, other) && key != other
    requires SameAt(m.checkpoints, n.checkpoints, key) && SameAt(m.stored, n.stored, key)
    ensures Settled(b, o, n, all, key, seqNo)
  {
  }

  /** Called, or covered by the checkpoint. */
  lemma AllOffered(b: Backing, sinks: seq<SinkInfo>, o: Marks, m: Marks, turns: seq<nat>, stream: StreamId, seqNo: nat,
                   state: Json, event: Event)
    requires Dispatched(b, sinks, |sinks|, o, m, turns, stream, seqNo, state, event)
    ensures |m.calls| == |o.calls| + |turns|
    ensures forall s :: s in sinks && s.accepts(stream) ==>
              && Settled(b, o, m, m.calls[|o.calls|..], Key(s.id, stream), seqNo)
              && Taken(m.calls, m.checkpoints, Key(s.id, stream), seqNo, |o.calls|)
    ensures forall i :: |o.calls| <= i < |m.calls| ==>
              && (exists s :: s in sinks && s.id == m.calls[i].key.sink && s.accepts(stream))
              && m.calls[i] == Call(Key(m.calls[i].key.sink, stream), seqNo, state, event, m.calls[i].ok)
  {
    var made := m.calls[|o.calls|..];
    forall s | s in sinks && s.accepts(stream)
      ensures Settled(b, o, m, made, Key(s.id, stream), seqNo)
      ensures Taken(m.calls, m.checkpoints, Key(s.id, stream), seqNo, |o.calls|)
    {
      var j :| 0 <= j < |sinks| && sinks[j] == s;
      CallIsMade(made, Key(s.id, stream));
    }
    forall i | |o.calls| <= i < |m.calls|
      ensures (exists s :: s in sinks && s.id == m.calls[i].key.sink && s.accepts(stream)) && m.calls[i].key.stream == stream
    {
      assert m.calls[i] == made[i - |o.calls|];
      assert sinks[turns[i - |o.calls|]] in sinks;
    }
  }

  lemma {:induction false} CallIsMade(calls: seq<Call>, key: Key)
    ensures CallFor(calls, key).Some? ==>
              exists i :: 0 <= i < |calls| && calls[i].key == key && CallFor(calls, key).value == calls[i]
    decreases |calls|
  {
    if calls != [] && calls[|calls| - 1].key != key {
      CallIsMade(calls[..|calls| - 1], key);
    }
  }

  function Lookup(sinks: seq<SinkInfo>, id: SinkId): (r: Option<SinkInfo>)
    ensures r.Some? ==> r.value in sinks && r.value.id == id
    ensures r.None? ==> forall s :: s in sinks ==> s.id != id
  {
    if sinks == [] then None
    else if sinks[0].id == id then Some(sinks[0])
    else Lookup(sinks[1..], id)
  }

  ghost predicate Serves(sinks: seq<SinkInfo>, key: Key, stream: StreamId) {
    key.stream == stream && exists s :: s in sinks && s.id == key.sink && s.accepts(stream)
  }

  lemma LaterServed(sinks: seq<SinkInfo>, i: nat, stream: StreamId)
    requires i < |sinks|
    ensures forall key :: Serves(sinks[..i + 1], key, stream) <==>
                            Serves(sinks[..i], key, stream) || (sinks[i].accepts(stream) && key == Key(sinks[i].id, stream))
  {
    assert sinks[..i + 1] == sinks[..i] + [sinks[i]];
    forall key
      ensures Serves(sinks[..i + 1], key, stream) <==>
                Serves(sinks[..i], key, stream) || (sinks[i].accepts(stream) && key == Key(sinks[i].id, stream))
    {
      if Serves(sinks[..i], key, stream) {
        var s :| s in sinks[..i] && s.id == key.sink && s.accepts(stream);
        assert s in sinks[..i + 1];
      } else if sinks[i].accepts(stream) && key == Key(sinks[i].id, stream) {
        assert sinks[i] in sinks[..i + 1];
      }
    }
  }

  lemma NotServedYet(sinks: seq<SinkInfo>, i: nat, stream: StreamId)
    requires i < |sinks| && forall j, k :: 0 <= j < k < |sinks| ==> sinks[j].id != sinks[k].id
    ensures !Serves(sinks[..i], Key(sinks[i].id, stream), stream)
  {
  }

  lemma NotCalledYet(sinks: seq<SinkInfo>, turns: seq<nat>, i: nat, calls: seq<Call>, stream: StreamId)
    requires InTurn(sinks, turns, i, calls, stream) && i < |sinks|
    requires forall j, k :: 0 <= j < k < |sinks| ==> sinks[j].id != sinks[k].id
    ensures CallFor(calls, Key(sinks[i].id, stream)) == None
  {
    NoCall(calls, Key(sinks[i].id, stream));
  }

  lemma {:induction false} NoCall(calls: seq<Call>, key: Key)
    requires forall i :: 0 <= i < |calls| ==> calls[i].key != key
    ensures CallFor(calls, key) == None
    decreases |calls|
  {
    if calls != [] {
      NoCall(calls[..|calls| - 1], key);
    }
  }

  /** The calls go to accepting sinks in registration order, at most one each, all before position `limit`. */
  ghost predicate InTurn(sinks: seq<SinkInfo>, turns: seq<nat>, limit: nat, calls: seq<Call>, stream: StreamId) {
    && |turns| == |calls|
    && (forall i :: 0 <= i < |turns| ==>
          turns[i] < limit && turns[i] < |sinks| && sinks[turns[i]].accepts(stream) &&
              calls[i].key == Key(sinks[turns[i]].id, stream))
    && forall i, j :: 0 <= i < j < |turns| ==> turns[i] < turns[j]
  }

  lemma InTurnLater(sinks: seq<SinkInfo>, turns: seq<nat>, limit: nat, calls: seq<Call>, stream: StreamId)
    requires InTurn(sinks, turns, limit, calls, stream)
    ensures InTurn(sinks, turns, limit + 1, calls, stream)
  {
  }

  lemma NextTurn(sinks: seq<SinkInfo>, turns: seq<nat>, i: nat, calls: seq<Call>, stream: StreamId, call: Call)
    requires InTurn(sinks, turns, i, calls, stream) && i < |sinks| && sinks[i].accepts(stream)
    requires call.key == Key(sinks[i].id, stream)
    ensures InTurn(sinks, turns + [i], i + 1, calls + [call], stream)
  {
  }

  ghost predicate Taken(calls: seq<Call>, checkpoints: map<Key, nat>, key: Key, seqNo: nat, since: nat) {
    (exists i :: since <= i < |calls| && calls[i].key == key && calls[i].seqNo == seqNo) || (key in checkpoints &&
        seqNo <= checkpoints[key])
  }
}
