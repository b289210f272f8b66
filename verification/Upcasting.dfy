/** Read-time schema evolution: a chain of event transformations. */
module Upcasting {
  import opened Wrappers
  import opened Json
  import opened Events

  type Upcaster = Event -> Event

  /** The chain walked in registration order. */
  function Upcast(chain: seq<Upcaster>, event: Event): Event {
    if chain == [] then event
    else chain[|chain| - 1](Upcast(chain[..|chain| - 1], event))
  }

  /** Each element of the chain, in registration order, takes the output of the one before it. */
  ghost predicate InOrder(chain: seq<Upcaster>, event: Event, steps: seq<Event>) {
    && |steps| == |chain| + 1 && steps[0] == event
    && forall i :: 0 <= i < |chain| ==> steps[i + 1] == chain[i](steps[i])
  }

  method UpcastOne(chain: seq<Upcaster>, event: Event) returns (r: Event)
    ensures r == Upcast(chain, event)
    ensures exists steps :: InOrder(chain, event, steps) && steps[|chain|] == r
  {
    r := event;
    ghost var steps := [event];
    for i := 0 to |chain|
      invariant r == Upcast(chain[..i], event)
      invariant InOrder(chain[..i], event, steps) && steps[i] == r
    {
      assert chain[..i + 1][..i] == chain[..i];
      r := chain[i](r);
      steps := steps + [r];
    }
    assert chain[..|chain|] == chain;
  }

  /** Whatever steps through the chain in order ends with what readers get. */
  lemma {:induction false} UpcastInOrder(chain: seq<Upcaster>, event: Event, steps: seq<Event>)
    requires InOrder(chain, event, steps)
    ensures steps[|chain|] == Upcast(chain, event)
    decreases |chain|
  {
    if chain != [] {
      UpcastInOrder(chain[..|chain| - 1], event, steps[..|chain|]);
    }
  }

  /** The version 1 to 2 step comes before the version 2 to 3 step. */
  lemma UpcastTwo(first: Upcaster, second: Upcaster, event: Event)
    ensures Upcast([first, second], event) == second(first(event))
  {
    UpcastInOrder([first, second], event, [event, first(event), second(first(event))]);
  }

  function UpcastAll(chain: seq<Upcaster>, events: seq<Event>): (r: seq<Event>)
    ensures |r| == |events|
    ensures forall i :: 0 <= i < |r| ==> r[i] == Upcast(chain, events[i])
  {
    seq(|events|, i requires 0 <= i < |events| => Upcast(chain, events[i]))
  }

  /**
   * The chain may rewrite kind, patch, meta and time, but not the coordinate:
   * a read trims its rows by the coordinate the upcasted event carries.
   */
  ghost predicate KeepsSeq(chain: seq<Upcaster>) {
    forall e: Event :: Upcast(chain, e).seqNo == e.seqNo
  }

  lemma NoChain(events: seq<Event>)
    ensures UpcastAll([], events) == events
    ensures KeepsSeq([])
  {
  }

  lemma UpcastSlice(chain: seq<Upcaster>, events: seq<Event>, i: nat, j: nat)
    requires i <= j <= |events|
    ensures UpcastAll(chain, events)[i..j] == UpcastAll(chain, events[i..j])
  {
  }

  lemma UpcastMore(chain: seq<Upcaster>, events: seq<Event>, event: Event)
    ensures UpcastAll(chain, events + [event]) == UpcastAll(chain, events) + [Upcast(chain, event)]
  {
  }

  // ---- what readers behind the chain find ----------------------------------

  /**
   * Readers behind the chain find their own, upcasted history in the log: the
   * snapshot, as read, is the state of the upcasted history.
   */
  ghost predicate HoldsSeen(chain: seq<Upcaster>, log: seq<Event>, history: seq<Event>, boundary: nat) {
    && Shaped(log, history, boundary)
    && Holds(UpcastAll(chain, log), UpcastAll(chain, history), boundary)
  }

  /** With no chain that is what the log itself holds. */
  lemma HoldsPlainly(log: seq<Event>, history: seq<Event>, boundary: nat)
    ensures HoldsSeen([], log, history, boundary) <==> Holds(log, history, boundary)
  {
    hide Replay, Shaped;
    NoChain(log);
    NoChain(history);
  }

  /** A log that was never compacted is held through any chain that keeps the coordinates. */
  lemma HoldsUncompacted(chain: seq<Upcaster>, history: seq<Event>)
    requires Numbered(history, 1) && KeepsSeq(chain)
    ensures HoldsSeen(chain, history, history, 0)
  {
  }

  lemma SeenAppend(chain: seq<Upcaster>, log: seq<Event>, history: seq<Event>, boundary: nat, event: Event)
    requires HoldsSeen(chain, log, history, boundary) && KeepsSeq(chain) && event.seqNo == |history| + 1
    ensures HoldsSeen(chain, log + [event], history + [event], boundary)
  {
    hide Holds, Shaped, Replay;
    assert Upcast(chain, event).seqNo == event.seqNo;
    ShapedAppend(log, history, boundary, event);
    UpcastMore(chain, log, event);
    UpcastMore(chain, history, event);
    HoldsAppend(UpcastAll(chain, log), UpcastAll(chain, history), boundary, Upcast(chain, event));
  }

  /** A compaction replaces the prefix by the state readers have at `upTo`. */
  function CompactedTo(log: seq<Event>, upTo: nat, state: Json, at: int): seq<Event> {
    [Snapshot(upTo, state, at)] + From(log, upTo + 1)
  }

  /** What readers find after it: the snapshot as the chain leaves it, and the rows past it as before. */
  lemma CompactedSeen(chain: seq<Upcaster>, log: seq<Event>, history: seq<Event>, boundary: nat, upTo: nat,
                      state: Json, at: int)
    requires Shaped(log, history, boundary) && KeepsSeq(chain)
    ensures UpcastAll(chain, CompactedTo(log, upTo, state, at)) ==
            [Upcast(chain, Snapshot(upTo, state, at))] + From(UpcastAll(chain, log), upTo + 1)
  {
    hide Shaped, From;
    ShapedNumbered(log, history, boundary);
    UpcastFrom(chain, log, if boundary == 0 then 1 else boundary, upTo + 1);
    var snapshot, rest := Snapshot(upTo, state, at), From(log, upTo + 1);
    assert UpcastAll(chain, [snapshot] + rest) == [Upcast(chain, snapshot)] + UpcastAll(chain, rest);
  }

  /**
   * After a compaction readers find their history again if and only if the
   * chain leaves the snapshot as it is: it holds a state that was upcasted before.
   */
  lemma SeenCompacted(chain: seq<Upcaster>, log: seq<Event>, history: seq<Event>, boundary: nat, upTo: nat,
                      state: Json, at: int)
    requires HoldsSeen(chain, log, history, boundary) && KeepsSeq(chain)
    requires 1 <= upTo <= |history| && boundary <= upTo
    requires Truth(UpcastAll(chain, history), upTo) == Ok(state) && at == UpcastAll(chain, history)[upTo - 1].at
    ensures HoldsSeen(chain, CompactedTo(log, upTo, state, at), history, upTo) <==>
            Upcast(chain, Snapshot(upTo, state, at)) == Snapshot(upTo, state, at)
  {
    hide Replay, Shaped, From, UpcastAll;
    ShapedAfter(log, history, boundary, upTo, state, at);
    CompactedSeen(chain, log, history, boundary, upTo, state, at);
    RowsAfter(UpcastAll(chain, log), UpcastAll(chain, history), boundary, upTo);
  }

  /** The row a compaction takes its timestamp from is there, with the time readers find in it. */
  lemma AnchorSeen(chain: seq<Upcaster>, log: seq<Event>, history: seq<Event>, boundary: nat, at: nat)
    requires HoldsSeen(chain, log, history, boundary) && KeepsSeq(chain) && 1 <= at <= |history| && boundary <= at
    ensures var anchor := UpcastAll(chain, Read(log, at, 1));
            anchor != [] && anchor[0].at == UpcastAll(chain, history)[at - 1].at
  {
    hide Shaped, Replay, Read, Holds;
    ShapedNumbered(log, history, boundary);
    UpcastRead(chain, log, if boundary == 0 then 1 else boundary, at, 1);
    AnchorTime(UpcastAll(chain, log), UpcastAll(chain, history), boundary, at);
  }

  lemma UpcastFrom(chain: seq<Upcaster>, log: seq<Event>, first: nat, from: nat)
    requires Numbered(log, first) && KeepsSeq(chain)
    ensures Numbered(UpcastAll(chain, log), first)
    ensures UpcastAll(chain, From(log, from)) == From(UpcastAll(chain, log), from)
  {
    FromNumbered(log, first, from);
    FromNumbered(UpcastAll(chain, log), first, from);
  }

  /** Upcasting what a read returns is reading an upcasted log. */
  lemma UpcastRead(chain: seq<Upcaster>, log: seq<Event>, first: nat, from: nat, limit: nat)
    requires Numbered(log, first) && KeepsSeq(chain)
    ensures Numbered(UpcastAll(chain, log), first)
    ensures UpcastAll(chain, Read(log, from, limit)) == Read(UpcastAll(chain, log), from, limit)
  {
    UpcastFrom(chain, log, first, from);
  }
}
