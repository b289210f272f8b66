/**
 * What deliveries get done. `Delivery` says that nothing is lost in any
 * interleaving; here an append, an attach or a rebuild left alone in any
 * reachable state, with calls that work, ends with its events delivered.
 */
module Arrival {
  import opened Wrappers
  import opened Events
  import opened Delivery

  /** Steps of one task, all of which work; a catch-up picks the streams named. */
  function Alone(c: Config, s: State, id: TaskId, picks: seq<StreamId>): State {
    if picks == [] then s
    else Step(c, Alone(c, s, id, picks[..|picks| - 1]), Go(id, Works, picks[|picks| - 1]))
  }

  function Gos(id: TaskId, picks: seq<StreamId>): seq<Action> {
    seq(|picks|, i requires 0 <= i < |picks| => Go(id, Works, picks[i]))
  }

  lemma {:induction false} AloneAdd(c: Config, s: State, id: TaskId, picks: seq<StreamId>, more: seq<StreamId>)
    ensures Alone(c, Alone(c, s, id, picks), id, more) == Alone(c, s, id, picks + more)
    decreases |more|
  {
    hide Step;
    if more == [] {
      assert picks + more == picks;
    } else {
      AloneAdd(c, s, id, picks, more[..|more| - 1]);
      assert (picks + more)[..|picks + more| - 1] == picks + more[..|more| - 1];
    }
  }

  lemma AloneOne(c: Config, s: State, id: TaskId, pick: StreamId)
    ensures Alone(c, s, id, [pick]) == Step(c, s, Go(id, Works, pick))
  {
    hide Step;
    assert [pick][..0] == [];
  }

  lemma {:induction false} AloneIsRun(c: Config, before: seq<Action>, id: TaskId, picks: seq<StreamId>)
    ensures Run(c, before + Gos(id, picks)) == Alone(c, Run(c, before), id, picks)
    decreases |picks|
  {
    hide Step;
    var all := before + Gos(id, picks);
    if picks == [] {
      assert all == before;
    } else {
      AloneIsRun(c, before, id, picks[..|picks| - 1]);
      assert all[..|all| - 1] == before + Gos(id, picks[..|picks| - 1]);
    }
  }

  lemma {:induction false} AloneSafe(c: Config, s: State, id: TaskId, picks: seq<StreamId>)
    requires Safe(s)
    ensures Safe(Alone(c, s, id, picks))
    decreases |picks|
  {
    hide Safe, Step;
    if picks != [] {
      AloneSafe(c, s, id, picks[..|picks| - 1]);
      StepSafe(c, Alone(c, s, id, picks[..|picks| - 1]), Go(id, Works, picks[|picks| - 1]));
    }
  }

  /** What the steps of one task leave as it was, and what they only add to. */
  ghost predicate Beside(s: State, t: State, id: TaskId) {
    && t.heads == s.heads && t.registered == s.registered && s.delivered <= t.delivered && t.dropped == s.dropped
    && s.attached <= t.attached && s.returned <= t.returned && t.tasks - {id} == s.tasks - {id}
  }

  // ---- an append ----------------------------------------------------------------------------

  /** How far the first sink of the list is still to be served. */
  function LiveLeft(pc: LivePc): nat {
    match pc
    case Fan => 7 case LivePeek => 6 case LiveLoad => 5 case LiveKeep => 4 case Decide => 3
    case LivePersist => 2 case LiveRecord => 1 case _ => 0
  }

  /** The task is closer to the end, and a sink it leaves behind has the event. */
  ghost predicate Served(c: Config, t: Task, v: Task, delivered: set<(Key, nat)>)
    requires t.Live? && t.sinks != []
  {
    && v.Live? && v.stream == t.stream && v.seqNo == t.seqNo && LiveLeft(v.live) > 0
    && (|| (v.sinks == t.sinks && LiveLeft(v.live) < LiveLeft(t.live))
        || (&& v.sinks == t.sinks[1..] && v.live == Fan
            && (c.accepts(Key(t.sinks[0], t.stream)) ==> (Key(t.sinks[0], t.stream), t.seqNo) in delivered)))
  }

  lemma LiveAsks(c: Config, s: State, t: Task)
    requires t.Live? && t.sinks != [] && (t.live.Fan? || t.live.LivePeek? || t.live.LiveLoad?)
    ensures Served(c, t, LiveAsk(c, s, t, Works), s.delivered)
  {
  }

  lemma LiveServes(c: Config, s: State, id: TaskId, t: Task)
    requires id in s.tasks && s.tasks[id] == t && t.Live? && t.sinks != [] && 0 < LiveLeft(t.live) <= 4
    requires TaskMarks(s.delivered, t) && TaskReal(s.heads, t)
    ensures var u := LiveServe(c, s, id, t, Works);
            Beside(s, u, id) && id in u.tasks && Served(c, t, u.tasks[id], u.delivered)
  {
  }

  /** One working step of a live dispatch. */
  lemma LiveMoves(c: Config, s: State, id: TaskId)
    requires Safe(s) && id in s.tasks && s.tasks[id].Live? && s.tasks[id].sinks != [] && LiveLeft(s.tasks[id].live) > 0
    ensures var u := Step(c, s, Go(id, Works, ""));
            Beside(s, u, id) && id in u.tasks && Served(c, s.tasks[id], u.tasks[id], u.delivered)
  {
    hide Served, LiveServe, LiveAsk, TaskMarks, TaskReal;
    var t := s.tasks[id];
    if LiveLeft(t.live) <= 4 {
      LiveServes(c, s, id, t);
    } else {
      LiveAsks(c, s, t);
    }
  }

  /** The rest of the fan-out. */
  lemma {:induction false} FanOut(c: Config, s: State, id: TaskId) returns (picks: seq<StreamId>)
    requires Safe(s) && id in s.tasks && s.tasks[id].Live? && LiveLeft(s.tasks[id].live) > 0
    ensures var t, u := s.tasks[id], Alone(c, s, id, picks);
            && Beside(s, u, id) && id !in u.tasks
            && forall i :: 0 <= i < |t.sinks| && c.accepts(Key(t.sinks[i], t.stream)) ==>
                 (Key(t.sinks[i], t.stream), t.seqNo) in u.delivered
    decreases |s.tasks[id].sinks|, LiveLeft(s.tasks[id].live)
  {
    hide Safe;
    var t := s.tasks[id];
    AloneOne(c, s, id, "");
    if t.sinks == [] {
      picks := [""];
      assert Step(c, s, Go(id, Works, "")) == Over(s, id);
    } else {
      LiveMoves(c, s, id);
      StepSafe(c, s, Go(id, Works, ""));
      var u := Step(c, s, Go(id, Works, ""));
      var more := FanOut(c, u, id);
      picks := [""] + more;
      AloneAdd(c, s, id, [""], more);
      var w := Alone(c, s, id, picks);
      forall i | 0 <= i < |t.sinks| && c.accepts(Key(t.sinks[i], t.stream))
        ensures (Key(t.sinks[i], t.stream), t.seqNo) in w.delivered
      {
        if u.tasks[id].sinks != t.sinks && i > 0 {
          assert u.tasks[id].sinks[i - 1] == t.sinks[i];
        }
      }
    }
  }

  /** An append left alone, with calls that work, has its event at every sink that is registered and accepts it. */
  lemma AppendArrives(c: Config, actions: seq<Action>, id: TaskId, stream: StreamId)
    requires id !in Run(c, actions).tasks
    ensures exists picks ::
              var s, t := Run(c, actions), Run(c, actions + [Append(id, stream)] + Gos(id, picks));
              var n := HeadOf(s.heads, stream) + 1;
              && id !in t.tasks && HeadOf(t.heads, stream) == n && t.dropped == s.dropped
              && forall sink :: sink in s.registered && c.accepts(Key(sink, stream)) ==> (Key(sink, stream), n) in t.delivered
  {
    hide Safe, Alone, Run, Step, Gos;
    var s, before := Run(c, actions), actions + [Append(id, stream)];
    Appends(c, actions, id, stream);
    RunSafe(c, before);
    var u := Run(c, before);
    var picks := [""];
    if s.registered == [] {
      NobodyThere(c, u, id);
    } else {
      AloneSafe(c, u, id, [""] + [""]);
      var u2 := Alone(c, u, id, [""] + [""]);
      PreparesAndFans(c, u, id);
      var more := FanOut(c, u2, id);
      AloneAdd(c, u, id, [""] + [""], more);
      picks := [""] + [""] + more;
    }
    AloneIsRun(c, before, id, picks);
    assert Run(c, actions + [Append(id, stream)] + Gos(id, picks)) == Alone(c, u, id, picks);
  }

  lemma Appends(c: Config, actions: seq<Action>, id: TaskId, stream: StreamId)
    requires id !in Run(c, actions).tasks
    ensures var s, n := Run(c, actions), HeadOf(Run(c, actions).heads, stream) + 1;
            Run(c, actions + [Append(id, stream)]) ==
            s.(heads := s.heads[stream := n], tasks := s.tasks[id := Live(stream, n, [], 0, Appended)])
  {
    hide Run;
    RunsOn(c, actions, Append(id, stream));
  }

  lemma NobodyThere(c: Config, s: State, id: TaskId)
    requires id in s.tasks && s.tasks[id].Live? && s.tasks[id].live.Appended? && s.registered == []
    ensures Alone(c, s, id, [""]) == Over(s, id)
  {
    AloneOne(c, s, id, "");
  }

  /** The first two steps: somebody is there, and the state is ready. */
  lemma PreparesAndFans(c: Config, s: State, id: TaskId)
    requires id in s.tasks && s.tasks[id].Live? && s.tasks[id].live.Appended? && s.registered != []
    ensures Alone(c, s, id, [""] + [""]) == Goes(s, id, s.tasks[id].(live := Fan, sinks := s.registered))
  {
    AloneOne(c, s, id, "");
    var s1 := Step(c, s, Go(id, Works, ""));
    AloneOne(c, s1, id, "");
    AloneAdd(c, s, id, [""], [""]);
  }

  // ---- a catch-up ---------------------------------------------------------------------------

  /** The same call, on the same stream of the same list, at another point. */
  ghost predicate SameFill(t: Task, v: Task)
    requires t.Fill?
  {
    v.Fill? && v.sink == t.sink && v.reset == t.reset && v.clean == t.clean && v.todo == t.todo && v.stream == t.stream
  }

  function FillLeft(pc: FillPc): nat {
    match pc
    case ResetMemory => 7 case ResetBackend => 6 case AskHead => 5 case FillPeek => 4 case FillLoad => 3
    case FillKeep => 2 case Loop => 1 case _ => 0
  }

  /** The task is closer to its loop, and once it has asked for the head it knows it. */
  ghost predicate Readied(heads: map<StreamId, nat>, t: Task, v: Task)
    requires t.Fill?
  {
    && SameFill(t, v) && 1 <= FillLeft(v.fill) < FillLeft(t.fill) && (FillLeft(t.fill) > 5 ==> FillLeft(v.fill) >= 5)
    && (FillLeft(v.fill) < 5 ==> v.head == if t.fill.AskHead? then HeadOf(heads, t.stream) else t.head)
  }

  lemma AskReadies(c: Config, s: State, id: TaskId, t: Task)
    requires id in s.tasks && s.tasks[id] == t && t.Fill? && (t.fill.AskHead? || t.fill.FillPeek? || t.fill.FillLoad?)
    ensures var u := FillAsk(c, s, id, t, Works); Beside(s, u, id) && id in u.tasks && Readied(s.heads, t, u.tasks[id])
  {
  }

  lemma ResetReadies(c: Config, s: State, id: TaskId, t: Task)
    requires id in s.tasks && s.tasks[id] == t && t.Fill? && (t.fill.ResetMemory? || t.fill.ResetBackend? || t.fill.FillKeep?)
    ensures var u := FillReset(c, s, id, t, Works); Beside(s, u, id) && id in u.tasks && Readied(s.heads, t, u.tasks[id])
  {
  }

  /** One working step between a stream's reset and its loop. */
  lemma Prepares(c: Config, s: State, id: TaskId)
    requires id in s.tasks && s.tasks[id].Fill? && 2 <= FillLeft(s.tasks[id].fill)
    ensures var u := Step(c, s, Go(id, Works, ""));
            Beside(s, u, id) && id in u.tasks && Readied(s.heads, s.tasks[id], u.tasks[id])
  {
    hide Readied, FillAsk, FillReset, Beside;
    var t := s.tasks[id];
    if t.fill.AskHead? || t.fill.FillPeek? || t.fill.FillLoad? {
      AskReadies(c, s, id, t);
    } else {
      ResetReadies(c, s, id, t);
    }
  }

  /** One event of a batch: delivered, its checkpoint stored, and then remembered. */
  lemma OneEvent(c: Config, s: State, id: TaskId)
    requires id in s.tasks && s.tasks[id].Fill? && s.tasks[id].fill.Batch? && s.tasks[id].value < s.tasks[id].last
    ensures var t, u := s.tasks[id], Alone(c, s, id, ["", "", ""]);
            var key := Key(t.sink, t.stream);
            && Beside(s, u, id) && u.tasks == s.tasks[id := t.(fill := Batch, value := t.value + 1)]
            && u.delivered == s.delivered + {(key, t.value + 1)} && u.mem == s.mem[key := t.value + 1]
            && u.disk == if c.durable then s.disk[key := t.value + 1] else s.disk
  {
    AloneOne(c, s, id, "");
    var s1 := Step(c, s, Go(id, Works, ""));
    AloneOne(c, s1, id, "");
    var s2 := Step(c, s1, Go(id, Works, ""));
    AloneOne(c, s2, id, "");
    AloneAdd(c, s, id, [""], [""]);
    AloneAdd(c, s, id, [""] + [""], [""]);
    assert ["", "", ""] == [""] + [""] + [""];
  }

  /** What a key's checkpoint reads as when the backend's read works. */
  function CheckpointOf(c: Config, s: State, key: Key): nat {
    if key in s.mem then s.mem[key] else if c.durable && key in s.disk then s.disk[key] else 0
  }

  /** The cursor of a stream's drive is its checkpoint, in memory or else stored. */
  lemma CursorIsCheckpoint(c: Config, s: State, id: TaskId) returns (picks: seq<StreamId>)
    requires id in s.tasks && s.tasks[id].Fill? && s.tasks[id].fill.FillPeek?
    ensures var t, u := s.tasks[id], Alone(c, s, id, picks);
            var key := Key(t.sink, t.stream);
            && u.tasks == s.tasks[id := t.(fill := Loop, value := CheckpointOf(c, s, key))]
            && u.mem == s.mem[key := CheckpointOf(c, s, key)] && u.disk == s.disk && u.heads == s.heads
  {
    hide Alone;
    var t := s.tasks[id];
    var key := Key(t.sink, t.stream);
    AloneOne(c, s, id, "");
    picks := [""];
    if key in s.mem {
      assert s.mem[key := s.mem[key]] == s.mem;
    } else {
      var s1 := Alone(c, s, id, [""]);
      AloneOne(c, s1, id, "");
      AloneAdd(c, s, id, [""], [""]);
      var s2 := Alone(c, s, id, [""] + [""]);
      AloneOne(c, s2, id, "");
      AloneAdd(c, s, id, [""] + [""], [""]);
      picks := [""] + [""] + [""];
    }
  }

  /** A rebuild's drive starts from zero, in memory and stored. */
  lemma ResetIsZero(c: Config, s: State, id: TaskId)
    requires id in s.tasks && s.tasks[id].Fill? && s.tasks[id].fill.ResetMemory?
    ensures var t, u := s.tasks[id], Alone(c, s, id, ["", "", ""]);
            var key := Key(t.sink, t.stream);
            && u.tasks == s.tasks[id := t.(fill := FillPeek, head := HeadOf(s.heads, t.stream))]
            && CheckpointOf(c, u, key) == 0 && u.mem == s.mem - {key} && (c.durable ==> u.disk == s.disk[key := 0])
  {
    hide Alone;
    AloneOne(c, s, id, "");
    var s1 := Alone(c, s, id, [""]);
    AloneOne(c, s1, id, "");
    AloneAdd(c, s, id, [""], [""]);
    var s2 := Alone(c, s, id, [""] + [""]);
    AloneOne(c, s2, id, "");
    AloneAdd(c, s, id, [""] + [""], [""]);
    assert ["", "", ""] == [""] + [""] + [""];
  }

  /** One sink of a live dispatch whose checkpoint is just before the event: delivered, stored, remembered. */
  lemma OneDispatch(c: Config, s: State, id: TaskId)
    requires id in s.tasks && s.tasks[id].Live? && s.tasks[id].live.Decide? && s.tasks[id].sinks != []
    requires s.tasks[id].seqNo == s.tasks[id].value + 1
    ensures var t, u := s.tasks[id], Alone(c, s, id, ["", "", ""]);
            var key := Key(t.sinks[0], t.stream);
            && u.tasks == s.tasks[id := t.(live := Fan, sinks := t.sinks[1..])]
            && u.delivered == s.delivered + {(key, t.seqNo)} && u.mem == s.mem[key := t.seqNo]
            && u.disk == if c.durable then s.disk[key := t.seqNo] else s.disk
  {
    hide Alone;
    AloneOne(c, s, id, "");
    var s1 := Alone(c, s, id, [""]);
    AloneOne(c, s1, id, "");
    AloneAdd(c, s, id, [""], [""]);
    var s2 := Alone(c, s, id, [""] + [""]);
    AloneOne(c, s2, id, "");
    AloneAdd(c, s, id, [""] + [""], [""]);
    assert ["", "", ""] == [""] + [""] + [""];
  }

  /** The rest of a batch, and back to the loop. */
  lemma {:induction false} BatchAlone(c: Config, s: State, id: TaskId) returns (picks: seq<StreamId>)
    requires id in s.tasks && s.tasks[id].Fill? && s.tasks[id].fill.Batch? && s.tasks[id].value <= s.tasks[id].last
    ensures var t, u := s.tasks[id], Alone(c, s, id, picks);
            Beside(s, u, id) && u.tasks == s.tasks[id := t.(fill := Loop, value := t.last)]
    decreases s.tasks[id].last - s.tasks[id].value
  {
    hide Step;
    var t := s.tasks[id];
    if t.value == t.last {
      picks := [""];
      AloneOne(c, s, id, "");
      BatchDone(c, s, id);
    } else {
      OneEvent(c, s, id);
      var u := Alone(c, s, id, ["", "", ""]);
      var more := BatchAlone(c, u, id);
      AloneAdd(c, s, id, ["", "", ""], more);
      picks := ["", "", ""] + more;
    }
  }

  lemma BatchDone(c: Config, s: State, id: TaskId)
    requires id in s.tasks && s.tasks[id].Fill? && s.tasks[id].fill.Batch? && s.tasks[id].value == s.tasks[id].last
    ensures Step(c, s, Go(id, Works, "")) == s.(tasks := s.tasks[id := s.tasks[id].(fill := Loop)])
  {
  }

  lemma LoopMoves(c: Config, s: State, id: TaskId)
    requires id in s.tasks && s.tasks[id].Fill? && s.tasks[id].fill.Loop?
    ensures var t, u := s.tasks[id], Step(c, s, Go(id, Works, ""));
            && Beside(s, u, id)
            && var last := Min(t.value + CATCH_UP_BATCH, HeadOf(s.heads, t.stream));
               u.tasks == s.tasks[id := if t.head <= t.value then t.(fill := Pick) else t.(fill := Batch, last := last)]
  {
  }

  /** The loop over the batches of one stream. */
  lemma {:induction false} LoopAlone(c: Config, s: State, id: TaskId) returns (picks: seq<StreamId>)
    requires Safe(s) && id in s.tasks && s.tasks[id].Fill? && s.tasks[id].fill.Loop?
    requires s.tasks[id].head == HeadOf(s.heads, s.tasks[id].stream)
    ensures var t, u := s.tasks[id], Alone(c, s, id, picks);
            && Beside(s, u, id) && id in u.tasks && SameFill(t, u.tasks[id]) && u.tasks[id].fill.Pick?
            && Below(u.delivered, Key(t.sink, t.stream), t.head)
    decreases s.tasks[id].head - s.tasks[id].value
  {
    hide Step;
    var t := s.tasks[id];
    AloneOne(c, s, id, "");
    LoopMoves(c, s, id);
    picks := [""];
    if t.head <= t.value {
      assert TaskMarks(s.delivered, t);
    } else {
      hide Safe;
      var u := Alone(c, s, id, [""]);
      var batch := BatchAlone(c, u, id);
      AloneAdd(c, s, id, [""], batch);
      AloneSafe(c, s, id, [""] + batch);
      var w := Alone(c, s, id, [""] + batch);
      var more := LoopAlone(c, w, id);
      AloneAdd(c, s, id, [""] + batch, more);
      picks := [""] + batch + more;
    }
  }

  /** One stream from its reset, or its head read, to the next pick. */
  lemma {:induction false} StreamAlone(c: Config, s: State, id: TaskId) returns (picks: seq<StreamId>)
    requires Safe(s) && id in s.tasks && s.tasks[id].Fill? && 1 <= FillLeft(s.tasks[id].fill)
    requires FillLeft(s.tasks[id].fill) < 5 ==> s.tasks[id].head == HeadOf(s.heads, s.tasks[id].stream)
    ensures var t, u := s.tasks[id], Alone(c, s, id, picks);
            && Beside(s, u, id) && id in u.tasks && SameFill(t, u.tasks[id]) && u.tasks[id].fill.Pick?
            && Below(u.delivered, Key(t.sink, t.stream), HeadOf(s.heads, t.stream))
    decreases FillLeft(s.tasks[id].fill)
  {
    hide Safe, Step;
    if s.tasks[id].fill.Loop? {
      picks := LoopAlone(c, s, id);
    } else {
      Prepares(c, s, id);
      AloneOne(c, s, id, "");
      AloneSafe(c, s, id, [""]);
      var u := Alone(c, s, id, [""]);
      var more := StreamAlone(c, u, id);
      AloneAdd(c, s, id, [""], more);
      picks := [""] + more;
    }
  }

  lemma PickMoves(c: Config, s: State, id: TaskId, pick: StreamId)
    requires id in s.tasks && s.tasks[id].Fill? && s.tasks[id].fill.Pick?
    ensures var t, u := s.tasks[id], Step(c, s, Go(id, Works, pick));
            && Beside(s, u, id)
            && (t.todo == {} ==>
                  id !in u.tasks && t.sink in u.returned && t.sink in u.rebuilt && (t.clean ==> t.sink in u.attached))
            && (pick in t.todo ==> u.tasks == s.tasks[id := Picked(c, t, pick)])
  {
  }

  /** The sink has every event of these streams that it accepts. */
  ghost predicate Has(c: Config, heads: map<StreamId, nat>, delivered: set<(Key, nat)>, sink: SinkId, streams: set<StreamId>) {
    forall st :: st in streams && c.accepts(Key(sink, st)) ==> Below(delivered, Key(sink, st), HeadOf(heads, st))
  }

  /** All the streams left, and the end of the call. */
  lemma {:induction false} StreamsAlone(c: Config, s: State, id: TaskId) returns (picks: seq<StreamId>)
    requires Safe(s) && id in s.tasks && s.tasks[id].Fill? && s.tasks[id].fill.Pick?
    ensures var t, u := s.tasks[id], Alone(c, s, id, picks);
            && Beside(s, u, id) && id !in u.tasks && t.sink in u.returned && t.sink in u.rebuilt
            && (t.clean ==> t.sink in u.attached)
            && Has(c, s.heads, u.delivered, t.sink, t.todo)
    decreases |s.tasks[id].todo|
  {
    hide Safe, Step, Below;
    var t := s.tasks[id];
    if t.todo == {} {
      picks := [""];
      AloneOne(c, s, id, "");
      PickMoves(c, s, id, "");
    } else {
      var pick :| pick in t.todo;
      var first := PickAlone(c, s, id, pick);
      AloneSafe(c, s, id, first);
      var u := Alone(c, s, id, first);
      var more := StreamsAlone(c, u, id);
      AloneAdd(c, s, id, first, more);
      picks := first + more;
      var w := Alone(c, s, id, picks);
      forall st | st in t.todo && c.accepts(Key(t.sink, st)) ensures Below(w.delivered, Key(t.sink, st), HeadOf(s.heads, st)) {
        if st == pick {
          BelowMore(u.delivered, w.delivered, Key(t.sink, st), HeadOf(s.heads, st));
        } else {
          assert st in t.todo - {pick};
        }
      }
    }
  }

  /** One pick, and what the stream picked needs. */
  lemma PickAlone(c: Config, s: State, id: TaskId, pick: StreamId) returns (picks: seq<StreamId>)
    requires Safe(s) && id in s.tasks && s.tasks[id].Fill? && s.tasks[id].fill.Pick? && pick in s.tasks[id].todo
    ensures var t, u := s.tasks[id], Alone(c, s, id, picks);
            && Beside(s, u, id) && id in u.tasks && u.tasks[id].Fill? && u.tasks[id].fill.Pick?
            && u.tasks[id].todo == t.todo - {pick} && u.tasks[id].sink == t.sink && u.tasks[id].clean == t.clean
            && (c.accepts(Key(t.sink, pick)) ==> Below(u.delivered, Key(t.sink, pick), HeadOf(s.heads, pick)))
  {
    hide Safe, Step, Below;
    AloneOne(c, s, id, pick);
    PickMoves(c, s, id, pick);
    picks := [pick];
    if c.accepts(Key(s.tasks[id].sink, pick)) {
      AloneSafe(c, s, id, [pick]);
      var u := Alone(c, s, id, [pick]);
      var more := StreamAlone(c, u, id);
      AloneAdd(c, s, id, [pick], more);
      picks := [pick] + more;
    }
  }

  lemma BelowMore(delivered: set<(Key, nat)>, more: set<(Key, nat)>, key: Key, w: nat)
    requires Below(delivered, key, w) && delivered <= more
    ensures Below(more, key, w)
  {
  }

  lemma CatchUpBegins(c: Config, s: State, id: TaskId, sink: SinkId, rebuild: bool)
    requires id !in s.tasks && sink in s.registered
    ensures var u := Alone(c, Step(c, s, CatchUp(id, sink, rebuild)), id, [""]);
            && Beside(s, u, id) && id in u.tasks && u.tasks[id].Fill? && u.tasks[id].fill.Pick?
            && u.tasks[id].sink == sink && u.tasks[id].clean && u.tasks[id].todo == s.heads.Keys
            && u.tasks[id].reset == (rebuild || (c.rebuilds(sink) && sink !in s.rebuilt))
  {
    AloneOne(c, Step(c, s, CatchUp(id, sink, rebuild)), id, "");
  }

  /** A catch-up for an id nobody has registered ends at once, and marks it: a sink attached later is not rebuilt. */
  lemma UnknownIsMarked(c: Config, actions: seq<Action>, id: TaskId, sink: SinkId, rebuild: bool)
    requires id !in Run(c, actions).tasks && sink !in Run(c, actions).registered
    ensures var s, t := Run(c, actions), Run(c, actions + [CatchUp(id, sink, rebuild)] + [Go(id, Works, "")]);
            t == s.(rebuilt := s.rebuilt + {sink})
  {
    RunsOn(c, actions, CatchUp(id, sink, rebuild));
    RunsOn(c, actions + [CatchUp(id, sink, rebuild)], Go(id, Works, ""));
  }

  /** A restart keeps the logs and the stored checkpoints, and nothing that was in memory. */
  lemma CrashKeepsDisk(c: Config, actions: seq<Action>)
    ensures var s, t := Run(c, actions), Run(c, actions + [Crash]);
            && t.heads == s.heads && t.disk == s.disk && t.delivered == s.delivered
            && t.mem == map[] && t.registered == [] && t.rebuilt == {} && t.tasks == map[]
  {
    RunsOn(c, actions, Crash);
  }

  /**
   * The call has returned with no failure and has marked its sink as rebuilt, and
   * the sink has every event of every stream it accepts.
   */
  ghost predicate CaughtUp(c: Config, s: State, t: State, id: TaskId, sink: SinkId) {
    && id !in t.tasks && t.heads == s.heads && sink in t.registered && sink in t.attached && sink in t.returned
    && sink in t.rebuilt
    && Has(c, s.heads, t.delivered, sink, s.heads.Keys)
  }

  /**
   * A catch-up or a rebuild of a registered sink, left alone with calls that work,
   * returns with no failure and leaves the sink with every event of every stream it
   * accepts.
   */
  lemma CatchUpArrives(c: Config, actions: seq<Action>, id: TaskId, sink: SinkId, rebuild: bool)
    requires id !in Run(c, actions).tasks && sink in Run(c, actions).registered
    ensures exists picks ::
              CaughtUp(c, Run(c, actions), Run(c, actions + [CatchUp(id, sink, rebuild)] + Gos(id, picks)), id, sink)
  {
    hide Safe, Step, Alone, Run, Gos, Has;
    var s, before := Run(c, actions), actions + [CatchUp(id, sink, rebuild)];
    RunsOn(c, actions, CatchUp(id, sink, rebuild));
    RunSafe(c, before);
    var u := Run(c, before);
    CatchUpBegins(c, s, id, sink, rebuild);
    AloneSafe(c, u, id, [""]);
    var more := StreamsAlone(c, Alone(c, u, id, [""]), id);
    AloneAdd(c, u, id, [""], more);
    var picks := [""] + more;
    AloneIsRun(c, before, id, picks);
    assert Run(c, actions + [CatchUp(id, sink, rebuild)] + Gos(id, picks)) == Alone(c, u, id, picks);
  }

  lemma RunsOn(c: Config, actions: seq<Action>, a: Action)
    ensures Run(c, actions + [a]) == Step(c, Run(c, actions), a)
  {
    hide Step;
    assert (actions + [a])[..|actions|] == actions;
  }

  /** So does attaching a sink that is not registered yet. */
  lemma AttachArrives(c: Config, actions: seq<Action>, id: TaskId, sink: SinkId)
    requires id !in Run(c, actions).tasks && sink !in Run(c, actions).registered
    ensures exists picks ::
              CaughtUp(c, Run(c, actions), Run(c, actions + [Register(sink)] + [CatchUp(id, sink, false)] + Gos(id, picks)),
                       id, sink)
  {
    hide Step, Run, Gos, Has;
    RunsOn(c, actions, Register(sink));
    Registers(c, Run(c, actions), sink);
    var s, registered := Run(c, actions), actions + [Register(sink)];
    CatchUpArrives(c, registered, id, sink, false);
    var picks :| CaughtUp(c, Run(c, registered), Run(c, registered + [CatchUp(id, sink, false)] + Gos(id, picks)), id, sink);
    assert CaughtUp(c, s, Run(c, actions + [Register(sink)] + [CatchUp(id, sink, false)] + Gos(id, picks)), id, sink);
  }

  lemma Registers(c: Config, s: State, sink: SinkId)
    requires sink !in s.registered
    ensures var t := Step(c, s, Register(sink)); t == s.(registered := s.registered + [sink], since := t.since)
  {
  }
}
