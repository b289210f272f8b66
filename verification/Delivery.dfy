/**
 * Sink delivery under concurrency: live dispatch after appends, catch-up,
 * rebuild, attach, checkpoint persistence, failures and restarts, as
 * interleaved steps over uncompacted logs.
 *
 * A task is one `append` past its backend write, or one `catch_up`/`rebuild`
 * call. Every lock acquisition, backend call and sink call is one step. The
 * per-stream write lock is not used here: the statements hold without it.
 */
module Delivery {
  import opened Wrappers
  import opened Events

  type TaskId = nat

  datatype Config = Config(accepts: Key -> bool, rebuilds: SinkId -> bool, durable: bool)

  datatype LivePc =
    | Appended                        // in the log; `has_sinks` comes next
    | Preparing                       // next state, cache write, event read
    | Fan                             // registry snapshot in `sinks`; its head is served next
    | LivePeek | LiveLoad | LiveKeep  // checkpoint_get: memory, backend, memory again
    | Decide
    | LivePersist | LiveRecord        // checkpoint_advance: backend, memory

  datatype FillPc =
    | Begin                           // find_sink, streams
    | Pick                            // next stream of `todo`
    | ResetMemory | ResetBackend
    | AskHead
    | FillPeek | FillLoad | FillKeep
    | Loop                            // read a batch, or done with the stream
    | Batch                           // events value+1 .. last are in hand
    | FillPersist | FillRecord

  /** `value` is the checkpoint (live) or cursor (fill) the task last read. */
  datatype Task =
    | Live(stream: StreamId, seqNo: nat, sinks: seq<SinkId>, value: nat, live: LivePc)
    | Fill(sink: SinkId, reset: bool, clean: bool, todo: set<StreamId>, stream: StreamId,
           head: nat, last: nat, value: nat, fill: FillPc)

  datatype State = State(
    heads: map<StreamId, nat>,
    registered: seq<SinkId>,
    mem: map<Key, nat>,
    disk: map<Key, nat>,
    rebuilt: set<SinkId>,
    tasks: map<TaskId, Task>,
    // the rest only records what happened
    delivered: set<(Key, nat)>,                 // successful commits, over all processes
    notified: set<(Key, nat)>,                  // failures handed to the failure observer
    dropped: set<(StreamId, nat)>,              // appends that returned an error after their commit
    since: map<SinkId, map<StreamId, nat>>,     // heads when the sink was registered
    filled: set<Key>,                           // brought to head by some catch-up since then
    attached: set<SinkId>,                      // a catch-up since then returned with no failure
    returned: set<SinkId>)                      // a catch-up since then returned

  const Initial := State(map[], [], map[], map[], {}, map[], {}, {}, {}, map[], {}, {}, {})

  datatype Fate = Works | Fails | Unacknowledged | Aborts

  datatype Action =
    | Append(id: TaskId, stream: StreamId)
    | Register(sink: SinkId)
    | CatchUp(id: TaskId, sink: SinkId, rebuild: bool)
    | Go(id: TaskId, fate: Fate, choice: StreamId)
    | Crash

  function HeadOf(heads: map<StreamId, nat>, stream: StreamId): nat {
    if stream in heads then heads[stream] else 0
  }

  // ---- steps -----------------------------------------------------------------

  function Step(c: Config, s: State, a: Action): State {
    match a
    case Append(id, stream) =>
      if id in s.tasks then s
      else
        var n := HeadOf(s.heads, stream) + 1;
        s.(heads := s.heads[stream := n], tasks := s.tasks[id := Live(stream, n, [], 0, Appended)])
    case Register(sink) =>
      if sink in s.registered then s
      else s.(registered := s.registered + [sink], since := s.since[sink := s.heads])
    case CatchUp(id, sink, rebuild) =>
      if id in s.tasks then s
      else
        var escalates := sink in s.registered && c.rebuilds(sink) && sink !in s.rebuilt;
        s.(tasks := s.tasks[id := Fill(sink, rebuild || escalates, true, {}, "", 0, 0, 0, Begin)])
    case Go(id, fate, choice) =>
      if id !in s.tasks then s
      else if s.tasks[id].Live? then LiveStep(c, s, id, s.tasks[id], fate)
      else FillStep(c, s, id, s.tasks[id], fate, choice)
    case Crash =>
      s.(registered := [], mem := map[], rebuilt := {}, tasks := map[],
         since := map[], filled := {}, attached := {}, returned := {})
  }

  function Run(c: Config, actions: seq<Action>): State {
    if actions == [] then Initial
    else Step(c, Run(c, actions[..|actions| - 1]), actions[|actions| - 1])
  }

  function Goes(s: State, id: TaskId, task: Task): State {
    s.(tasks := s.tasks[id := task])
  }

  function Over(s: State, id: TaskId): State {
    s.(tasks := s.tasks - {id})
  }

  /** What `checkpoint_get` takes from the backend: a failing read counts as no checkpoint. */
  function Restored(c: Config, s: State, key: Key, fate: Fate): nat {
    if c.durable && fate.Works? && key in s.disk then s.disk[key] else 0
  }

  function Kept(s: State, key: Key, value: nat): State {
    if key in s.mem then s else s.(mem := s.mem[key := value])
  }

  function LiveStep(c: Config, s: State, id: TaskId, t: Task, fate: Fate): State
    requires t.Live?
  {
    if t.live.Appended? then
      if s.registered == [] then Over(s, id) else Goes(s, id, t.(live := Preparing))
    else if t.live.Preparing? then
      if fate.Works? then Goes(s, id, t.(live := Fan, sinks := s.registered))
      else Over(s, id).(dropped := s.dropped + {(t.stream, t.seqNo)})
    else if t.sinks == [] then Over(s, id)
    else if t.live.Fan? || t.live.LivePeek? || t.live.LiveLoad? then Goes(s, id, LiveAsk(c, s, t, fate))
    else LiveServe(c, s, id, t, fate)
  }

  function Onward(t: Task): Task
    requires t.Live? && t.sinks != []
  {
    t.(live := Fan, sinks := t.sinks[1..])
  }

  /** The part of `dispatch_commit` that only looks. */
  function LiveAsk(c: Config, s: State, t: Task, fate: Fate): Task
    requires t.Live? && t.sinks != [] && (t.live.Fan? || t.live.LivePeek? || t.live.LiveLoad?)
  {
    var key := Key(t.sinks[0], t.stream);
    match t.live
    case Fan => if c.accepts(key) then t.(live := LivePeek) else Onward(t)
    case LivePeek => if key in s.mem then t.(live := Decide, value := s.mem[key]) else t.(live := LiveLoad)
    case LiveLoad => t.(live := LiveKeep, value := Restored(c, s, key, fate))
  }

  /** The part of `dispatch_commit` that changes something. */
  function LiveServe(c: Config, s: State, id: TaskId, t: Task, fate: Fate): State
    requires t.Live? && t.sinks != []
  {
    var key := Key(t.sinks[0], t.stream);
    match t.live
    case LiveKeep => Goes(Kept(s, key, t.value), id, t.(live := Decide))
    case Decide =>
      if t.seqNo <= t.value then Goes(s, id, Onward(t))
      else if !fate.Works? then Goes(s, id, Onward(t)).(notified := s.notified + {(key, t.seqNo)})
      else Goes(s, id, if t.seqNo == t.value + 1 then t.(live := LivePersist) else Onward(t))
           .(delivered := s.delivered + {(key, t.seqNo)})
    case LivePersist =>
      var written := if c.durable && !fate.Fails? then s.disk[key := t.seqNo] else s.disk;
      Goes(s, id, if c.durable && !fate.Works? then Onward(t) else t.(live := LiveRecord)).(disk := written)
    case LiveRecord => Goes(s, id, Onward(t)).(mem := s.mem[key := t.seqNo])
    case _ => s
  }

  function FillStep(c: Config, s: State, id: TaskId, t: Task, fate: Fate, choice: StreamId): State
    requires t.Fill?
  {
    match t.fill
    case Begin => FillBegin(s, id, t, fate)
    case Pick => FillPick(c, s, id, t, choice)
    case AskHead | FillPeek | FillLoad | Loop => FillAsk(c, s, id, t, fate)
    case ResetMemory | ResetBackend | FillKeep => FillReset(c, s, id, t, fate)
    case Batch | FillPersist | FillRecord => FillServe(c, s, id, t, fate)
  }

  function FillBegin(s: State, id: TaskId, t: Task, fate: Fate): State
    requires t.Fill?
  {
    if t.sink !in s.registered then Over(s, id).(rebuilt := s.rebuilt + {t.sink})
    else if fate.Works? then Goes(s, id, t.(fill := Pick, todo := s.heads.Keys))
    else Over(s, id)
  }

  function FillPick(c: Config, s: State, id: TaskId, t: Task, choice: StreamId): State
    requires t.Fill?
  {
    if t.todo == {} then
      Over(s, id).(rebuilt := s.rebuilt + {t.sink}, returned := s.returned + {t.sink},
                   attached := if t.clean then s.attached + {t.sink} else s.attached)
    else if choice !in t.todo then s
    else Goes(s, id, Picked(c, t, choice))
  }

  function Picked(c: Config, t: Task, choice: StreamId): Task
    requires t.Fill?
  {
    var next := t.(todo := t.todo - {choice}, stream := choice);
    if !c.accepts(Key(t.sink, choice)) then next
    else next.(fill := if t.reset then ResetMemory else AskHead)
  }

  function FillAsk(c: Config, s: State, id: TaskId, t: Task, fate: Fate): State
    requires t.Fill?
  {
    var key := Key(t.sink, t.stream);
    match t.fill
    case AskHead =>
      if fate.Works? then Goes(s, id, t.(fill := FillPeek, head := HeadOf(s.heads, t.stream))) else Over(s, id)
    case FillPeek =>
      if key in s.mem then Goes(s, id, t.(fill := Loop, value := s.mem[key]))
      else Goes(s, id, t.(fill := FillLoad))
    case FillLoad => Goes(s, id, t.(fill := FillKeep, value := Restored(c, s, key, fate)))
    case Loop => LoopStep(s, id, t, fate)
    case _ => s
  }

  /** `while cursor < head`: the next batch, or the stream is at its head. */
  function LoopStep(s: State, id: TaskId, t: Task, fate: Fate): State
    requires t.Fill?
  {
    if t.head <= t.value then Goes(s, id, t.(fill := Pick)).(filled := s.filled + {Key(t.sink, t.stream)})
    else if !fate.Works? then Over(s, id)
    else Goes(s, id, t.(fill := Batch, last := Min(t.value + CATCH_UP_BATCH, HeadOf(s.heads, t.stream))))
  }

  function FillReset(c: Config, s: State, id: TaskId, t: Task, fate: Fate): State
    requires t.Fill?
  {
    var key := Key(t.sink, t.stream);
    match t.fill
    case ResetMemory => Goes(s, id, t.(fill := ResetBackend)).(mem := s.mem - {key})
    case ResetBackend =>
      Goes(s, id, t.(fill := AskHead)).(disk := if c.durable && !fate.Fails? then s.disk[key := 0] else s.disk)
    case FillKeep => Goes(Kept(s, key, t.value), id, t.(fill := Loop))
    case _ => s
  }

  /** A failed commit, patch or checkpoint write halts this stream only. */
  function Halted(t: Task): Task
    requires t.Fill?
  {
    t.(fill := Pick, clean := false)
  }

  /** One event of the batch: rebuild its state, hand it to the sink. */
  function BatchStep(s: State, id: TaskId, t: Task, fate: Fate): State
    requires t.Fill?
  {
    if t.last <= t.value then Goes(s, id, t.(fill := Loop))
    else if fate.Aborts? then Over(s, id)
    else if !fate.Works? then Goes(s, id, Halted(t))
    else Goes(s, id, t.(fill := FillPersist)).(delivered := s.delivered + {(Key(t.sink, t.stream), t.value + 1)})
  }

  function FillServe(c: Config, s: State, id: TaskId, t: Task, fate: Fate): State
    requires t.Fill?
  {
    var key := Key(t.sink, t.stream);
    match t.fill
    case Batch => BatchStep(s, id, t, fate)
    case FillPersist =>
      var written := if c.durable && !fate.Fails? then s.disk[key := t.value + 1] else s.disk;
      Goes(s, id, if c.durable && !fate.Works? then Halted(t) else t.(fill := FillRecord)).(disk := written)
    case FillRecord => Goes(s, id, t.(fill := Batch, value := t.value + 1)).(mem := s.mem[key := t.value + 1])
    case _ => s
  }

  // ---- watermarks ----------------------------------------------------------------

  /** Events 1..w of the stream were all committed to the sink. */
  ghost predicate Below(delivered: set<(Key, nat)>, key: Key, w: nat) {
    forall n: nat :: 1 <= n <= w ==> (key, n) in delivered
  }

  ghost predicate MapOk(delivered: set<(Key, nat)>, marks: map<Key, nat>) {
    forall k :: k in marks ==> Below(delivered, k, marks[k])
  }

  /** The watermark a task holds: a value it has read, or one it is about to write. */
  ghost predicate TaskMarks(delivered: set<(Key, nat)>, t: Task) {
    match t
    case Live(stream, seqNo, sinks, value, pc) =>
      pc.Decide? || pc.LiveKeep? || pc.LivePersist? || pc.LiveRecord? ==>
        && sinks != []
        && Below(delivered, Key(sinks[0], stream), value)
        && (pc.LivePersist? || pc.LiveRecord? ==>
              seqNo == value + 1 && (Key(sinks[0], stream), seqNo) in delivered)
    case Fill(sink, _, _, _, stream, _, _, value, pc) =>
      pc.FillKeep? || pc.Loop? || pc.Batch? || pc.FillPersist? || pc.FillRecord? ==>
        && Below(delivered, Key(sink, stream), value)
        && (pc.FillPersist? || pc.FillRecord? ==> (Key(sink, stream), value + 1) in delivered)
  }

  ghost predicate Real(heads: map<StreamId, nat>, delivered: set<(Key, nat)>) {
    forall d :: d in delivered ==> 1 <= d.1 <= HeadOf(heads, d.0.stream)
  }

  ghost predicate TaskReal(heads: map<StreamId, nat>, t: Task) {
    match t
    case Live(stream, seqNo, _, _, _) => 1 <= seqNo <= HeadOf(heads, stream)
    case Fill(_, _, _, _, stream, head, last, value, pc) =>
      && (pc.Batch? || pc.FillPersist? || pc.FillRecord? ==> last <= HeadOf(heads, stream))
      && (pc.FillPersist? || pc.FillRecord? ==> value < last)
  }

  ghost predicate Safe(s: State) {
    && MapOk(s.delivered, s.mem) && MapOk(s.delivered, s.disk) && Real(s.heads, s.delivered)
    && forall id :: id in s.tasks ==> TaskMarks(s.delivered, s.tasks[id]) && TaskReal(s.heads, s.tasks[id])
  }

  lemma SafeOthers(s: State, t: State, id: TaskId)
    requires Safe(s) && s.delivered <= t.delivered
    requires forall st :: HeadOf(s.heads, st) <= HeadOf(t.heads, st)
    requires t.tasks.Keys <= s.tasks.Keys + {id}
    requires forall o :: o in t.tasks && o != id ==> t.tasks[o] == s.tasks[o]
    requires MapOk(t.delivered, t.mem) && MapOk(t.delivered, t.disk) && Real(t.heads, t.delivered)
    requires id in t.tasks ==> TaskMarks(t.delivered, t.tasks[id]) && TaskReal(t.heads, t.tasks[id])
    ensures Safe(t)
  {
    forall o | o in t.tasks ensures TaskMarks(t.delivered, t.tasks[o]) && TaskReal(t.heads, t.tasks[o]) {
      if o != id {
        assert o in s.tasks && TaskMarks(s.delivered, s.tasks[o]) && TaskReal(s.heads, s.tasks[o]);
      }
    }
  }

  lemma MarkPut(delivered: set<(Key, nat)>, more: set<(Key, nat)>, marks: map<Key, nat>, key: Key, value: nat)
    requires MapOk(delivered, marks) && delivered <= more && Below(more, key, value)
    ensures MapOk(more, marks[key := value])
  {
  }

  lemma MarkMore(delivered: set<(Key, nat)>, more: set<(Key, nat)>, marks: map<Key, nat>)
    requires MapOk(delivered, marks) && delivered <= more
    ensures MapOk(more, marks)
  {
  }

  /** The facts a step must supply about what it changed. */
  ghost predicate StepOk(s: State, t: State, id: TaskId) {
    && MapOk(t.delivered, t.mem) && MapOk(t.delivered, t.disk) && Real(t.heads, t.delivered)
    && (id in t.tasks ==> TaskMarks(t.delivered, t.tasks[id]) && TaskReal(t.heads, t.tasks[id]))
    && s.delivered <= t.delivered && s.heads == t.heads
    && t.tasks.Keys <= s.tasks.Keys + {id}
    && (forall o :: o in t.tasks && o != id ==> t.tasks[o] == s.tasks[o])
  }

  lemma LiveSafe(c: Config, s: State, id: TaskId, t: Task, fate: Fate)
    requires Safe(s) && id in s.tasks && s.tasks[id] == t && t.Live?
    ensures Safe(LiveStep(c, s, id, t, fate))
  {
    assert TaskMarks(s.delivered, t) && TaskReal(s.heads, t);
    LiveStepOk(c, s, id, t, fate);
    SafeOthers(s, LiveStep(c, s, id, t, fate), id);
  }

  ghost predicate MarksOk(s: State) {
    MapOk(s.delivered, s.mem) && MapOk(s.delivered, s.disk) && Real(s.heads, s.delivered)
  }

  lemma GoesOk(s: State, u: State, id: TaskId, t: Task)
    requires u.tasks == s.tasks[id := t] && MarksOk(u) && TaskMarks(u.delivered, t) && TaskReal(u.heads, t)
    requires s.delivered <= u.delivered && s.heads == u.heads
    ensures StepOk(s, u, id)
  {
  }

  lemma OverOk(s: State, u: State, id: TaskId)
    requires u.tasks == s.tasks - {id} && MarksOk(u) && s.delivered == u.delivered && s.heads == u.heads
    ensures StepOk(s, u, id)
  {
  }

  lemma DeliverOk(s: State, key: Key, n: nat)
    requires MarksOk(s) && 1 <= n <= HeadOf(s.heads, key.stream)
    ensures MarksOk(s.(delivered := s.delivered + {(key, n)}))
  {
    MarkMore(s.delivered, s.delivered + {(key, n)}, s.mem);
    MarkMore(s.delivered, s.delivered + {(key, n)}, s.disk);
  }

  lemma BelowNext(delivered: set<(Key, nat)>, key: Key, w: nat)
    requires Below(delivered, key, w) && (key, w + 1) in delivered
    ensures Below(delivered, key, w + 1)
  {
  }

  lemma LiveStepOk(c: Config, s: State, id: TaskId, t: Task, fate: Fate)
    requires MarksOk(s) && TaskMarks(s.delivered, t) && TaskReal(s.heads, t) && id in s.tasks && s.tasks[id] == t && t.Live?
    ensures StepOk(s, LiveStep(c, s, id, t, fate), id)
  {
    hide LiveServe, Real;
    var u := LiveStep(c, s, id, t, fate);
    if t.live.Appended? || t.live.Preparing? || t.sinks == [] {
      if id in u.tasks { GoesOk(s, u, id, u.tasks[id]); } else { OverOk(s, u, id); }
    } else if t.live.Fan? || t.live.LivePeek? || t.live.LiveLoad? {
      GoesOk(s, u, id, LiveAsk(c, s, t, fate));
    } else {
      LiveServeOk(c, s, id, t, fate);
    }
  }

  lemma LiveServeOk(c: Config, s: State, id: TaskId, t: Task, fate: Fate)
    requires MarksOk(s) && TaskMarks(s.delivered, t) && TaskReal(s.heads, t) && id in s.tasks && s.tasks[id] == t
    requires t.Live? && t.sinks != []
    requires t.live.LiveKeep? || t.live.Decide? || t.live.LivePersist? || t.live.LiveRecord?
    ensures StepOk(s, LiveServe(c, s, id, t, fate), id)
  {
    var u := LiveServe(c, s, id, t, fate);
    var key := Key(t.sinks[0], t.stream);
    match t.live {
      case LiveKeep => MarkPut(s.delivered, s.delivered, s.mem, key, t.value);
      case Decide => DeliverOk(s, key, t.seqNo);
      case LivePersist =>
        BelowNext(s.delivered, key, t.value);
        MarkPut(s.delivered, s.delivered, s.disk, key, t.seqNo);
      case LiveRecord =>
        BelowNext(s.delivered, key, t.value);
        MarkPut(s.delivered, s.delivered, s.mem, key, t.seqNo);
    }
    GoesOk(s, u, id, u.tasks[id]);
  }

  lemma FillSafe(c: Config, s: State, id: TaskId, t: Task, fate: Fate, choice: StreamId)
    requires Safe(s) && id in s.tasks && s.tasks[id] == t && t.Fill?
    ensures Safe(FillStep(c, s, id, t, fate, choice))
  {
    assert TaskMarks(s.delivered, t) && TaskReal(s.heads, t);
    FillStepOk(c, s, id, t, fate, choice);
    SafeOthers(s, FillStep(c, s, id, t, fate, choice), id);
  }

  lemma FillStepOk(c: Config, s: State, id: TaskId, t: Task, fate: Fate, choice: StreamId)
    requires MarksOk(s) && TaskMarks(s.delivered, t) && TaskReal(s.heads, t) && id in s.tasks && s.tasks[id] == t && t.Fill?
    ensures StepOk(s, FillStep(c, s, id, t, fate, choice), id)
  {
    match t.fill {
      case Begin => FillBeginOk(s, id, t, fate);
      case Pick => FillPickOk(c, s, id, t, choice);
      case AskHead | FillPeek | FillLoad | Loop => FillAskOk(c, s, id, t, fate);
      case ResetMemory | ResetBackend | FillKeep => FillResetOk(c, s, id, t, fate);
      case Batch | FillPersist | FillRecord => FillServeOk(c, s, id, t, fate);
    }
  }

  lemma FillBeginOk(s: State, id: TaskId, t: Task, fate: Fate)
    requires MarksOk(s) && id in s.tasks && s.tasks[id] == t && t.Fill?
    ensures StepOk(s, FillBegin(s, id, t, fate), id)
  {
    var u := FillBegin(s, id, t, fate);
    if u.tasks == s.tasks - {id} { OverOk(s, u, id); } else { GoesOk(s, u, id, u.tasks[id]); }
  }

  lemma FillPickOk(c: Config, s: State, id: TaskId, t: Task, choice: StreamId)
    requires MarksOk(s) && id in s.tasks && s.tasks[id] == t && t.Fill? && t.fill.Pick?
    ensures StepOk(s, FillPick(c, s, id, t, choice), id)
  {
    var u := FillPick(c, s, id, t, choice);
    if t.todo == {} {
      OverOk(s, u, id);
    } else if choice in t.todo {
      GoesOk(s, u, id, Picked(c, t, choice));
    } else {
      GoesOk(s, s, id, t);
    }
  }

  lemma FillAskOk(c: Config, s: State, id: TaskId, t: Task, fate: Fate)
    requires MarksOk(s) && TaskMarks(s.delivered, t) && TaskReal(s.heads, t) && id in s.tasks && t.Fill?
    requires t.fill.AskHead? || t.fill.FillPeek? || t.fill.FillLoad? || t.fill.Loop?
    ensures StepOk(s, FillAsk(c, s, id, t, fate), id)
  {
    hide LoopStep, Real;
    var u := FillAsk(c, s, id, t, fate);
    if t.fill.Loop? {
      LoopOk(s, id, t, fate);
    } else if t.fill.AskHead? && !fate.Works? {
      OverOk(s, u, id);
    } else {
      GoesOk(s, u, id, u.tasks[id]);
    }
  }

  lemma LoopOk(s: State, id: TaskId, t: Task, fate: Fate)
    requires MarksOk(s) && TaskMarks(s.delivered, t) && TaskReal(s.heads, t) && id in s.tasks && t.Fill? && t.fill.Loop?
    ensures StepOk(s, LoopStep(s, id, t, fate), id)
  {
    var u := LoopStep(s, id, t, fate);
    if t.value < t.head && !fate.Works? { OverOk(s, u, id); } else { GoesOk(s, u, id, u.tasks[id]); }
  }

  lemma FillResetOk(c: Config, s: State, id: TaskId, t: Task, fate: Fate)
    requires MarksOk(s) && TaskMarks(s.delivered, t) && TaskReal(s.heads, t) && id in s.tasks && s.tasks[id] == t && t.Fill?
    requires t.fill.ResetMemory? || t.fill.ResetBackend? || t.fill.FillKeep?
    ensures StepOk(s, FillReset(c, s, id, t, fate), id)
  {
    var u := FillReset(c, s, id, t, fate);
    var key := Key(t.sink, t.stream);
    MarkPut(s.delivered, s.delivered, s.disk, key, 0);
    if t.fill.FillKeep? { MarkPut(s.delivered, s.delivered, s.mem, key, t.value); }
    GoesOk(s, u, id, u.tasks[id]);
  }

  lemma FillServeOk(c: Config, s: State, id: TaskId, t: Task, fate: Fate)
    requires MarksOk(s) && TaskMarks(s.delivered, t) && TaskReal(s.heads, t) && id in s.tasks && s.tasks[id] == t && t.Fill?
    requires t.fill.Batch? || t.fill.FillPersist? || t.fill.FillRecord?
    ensures StepOk(s, FillServe(c, s, id, t, fate), id)
  {
    var u := FillServe(c, s, id, t, fate);
    FillServeMarks(c, s, id, t, fate);
    if u.tasks == s.tasks - {id} {
      OverOk(s, u, id);
    } else {
      FillServeTask(c, s, id, t, fate);
      GoesOk(s, u, id, u.tasks[id]);
    }
  }

  lemma FillServeTask(c: Config, s: State, id: TaskId, t: Task, fate: Fate)
    requires TaskMarks(s.delivered, t) && TaskReal(s.heads, t) && t.Fill? && id in s.tasks
    requires t.fill.Batch? || t.fill.FillPersist? || t.fill.FillRecord?
    requires t.fill.FillRecord? ==> Below(s.delivered, Key(t.sink, t.stream), t.value + 1)
    requires FillServe(c, s, id, t, fate).tasks != s.tasks - {id}
    ensures var u := FillServe(c, s, id, t, fate);
            && TaskMarks(u.delivered, u.tasks[id]) && TaskReal(u.heads, u.tasks[id])
            && u.tasks == s.tasks[id := u.tasks[id]] && s.delivered <= u.delivered && s.heads == u.heads
  {
  }

  lemma FillServeMarks(c: Config, s: State, id: TaskId, t: Task, fate: Fate)
    requires MarksOk(s) && TaskMarks(s.delivered, t) && TaskReal(s.heads, t) && t.Fill?
    requires t.fill.Batch? || t.fill.FillPersist? || t.fill.FillRecord?
    ensures MarksOk(FillServe(c, s, id, t, fate))
    ensures t.fill.FillRecord? ==> Below(s.delivered, Key(t.sink, t.stream), t.value + 1)
  {
    var key := Key(t.sink, t.stream);
    match t.fill {
      case Batch => if t.value < t.last { DeliverOk(s, key, t.value + 1); }
      case FillPersist =>
        BelowNext(s.delivered, key, t.value);
        MarkPut(s.delivered, s.delivered, s.disk, key, t.value + 1);
      case FillRecord =>
        BelowNext(s.delivered, key, t.value);
        MarkPut(s.delivered, s.delivered, s.mem, key, t.value + 1);
    }
  }

  lemma StepSafe(c: Config, s: State, a: Action)
    requires Safe(s)
    ensures Safe(Step(c, s, a))
  {
    match a {
      case Append(id, _) => SafeOthers(s, Step(c, s, a), id);
      case Register(_) =>
      case CatchUp(id, _, _) => SafeOthers(s, Step(c, s, a), id);
      case Go(id, fate, choice) =>
        if id in s.tasks {
          if s.tasks[id].Live? {
            LiveSafe(c, s, id, s.tasks[id], fate);
          } else {
            FillSafe(c, s, id, s.tasks[id], fate, choice);
          }
        }
      case Crash =>
    }
  }

  lemma {:induction false} RunSafe(c: Config, actions: seq<Action>)
    ensures Safe(Run(c, actions))
    decreases |actions|
  {
    if actions != [] {
      RunSafe(c, actions[..|actions| - 1]);
      StepSafe(c, Run(c, actions[..|actions| - 1]), actions[|actions| - 1]);
    }
  }

  /** `w` is a watermark some part of the system holds for `key`: memory, backend, or a task under way. */
  ghost predicate HeldMark(s: State, key: Key, w: nat) {
    || (key in s.mem && s.mem[key] == w)
    || (key in s.disk && s.disk[key] == w)
    || exists id :: id in s.tasks && TaskHolds(s.tasks[id], key, w)
  }

  ghost predicate TaskHolds(t: Task, key: Key, w: nat) {
    match t
    case Live(stream, _, sinks, value, pc) =>
      (pc.Decide? || pc.LiveKeep? || pc.LivePersist? || pc.LiveRecord?) && sinks != []
          && key == Key(sinks[0], stream) && w == value
    case Fill(sink, _, _, _, stream, _, _, value, pc) =>
      (pc.FillKeep? || pc.Loop? || pc.Batch? || pc.FillPersist? || pc.FillRecord?) && key == Key(sink, stream) && w == value
  }

  /**
   * Watermark safety. In every reachable state, whatever the interleaving,
   * failures and restarts: a watermark means that each of the events it covers
   * exists and was committed to that sink at least once.
   */
  lemma WatermarkMeansDelivered(c: Config, actions: seq<Action>, key: Key, w: nat)
    requires HeldMark(Run(c, actions), key, w)
    ensures w <= HeadOf(Run(c, actions).heads, key.stream)
    ensures forall n: nat :: 1 <= n <= w ==> (key, n) in Run(c, actions).delivered
  {
    RunSafe(c, actions);
    var s := Run(c, actions);
    if !(key in s.mem && s.mem[key] == w) && !(key in s.disk && s.disk[key] == w) {
      var id :| id in s.tasks && TaskHolds(s.tasks[id], key, w);
      assert TaskMarks(s.delivered, s.tasks[id]);
    }
    assert Below(s.delivered, key, w);
    if w >= 1 {
      assert (key, w) in s.delivered;
    }
  }

  // ---- attaching a sink while appends are under way -----------------------------

  ghost function Since(s: State, key: Key): nat {
    if key.sink in s.since then HeadOf(s.since[key.sink], key.stream) else 0
  }

  /** This append will still offer its event to the sink. */
  predicate Owes(t: Task, key: Key, n: nat) {
    t.Live? && t.stream == key.stream && t.seqNo == n && (t.live.Appended? || t.live.Preparing? || key.sink in t.sinks)
  }

  ghost predicate Settled(s: State, key: Key, n: nat) {
    (key, n) in s.delivered || (key, n) in s.notified || (key.stream, n) in s.dropped
  }

  ghost predicate Handled(s: State, key: Key, n: nat) {
    Settled(s, key, n) || exists id :: id in s.tasks && Owes(s.tasks[id], key, n)
  }

  /** Nothing committed after a sink was registered passes it by. */
  ghost predicate Owed(c: Config, s: State) {
    forall key: Key, n: nat :: key.sink in s.registered && c.accepts(key) && Since(s, key) < n <= HeadOf(s.heads, key.stream)
      ==> Handled(s, key, n)
  }

  ghost predicate SinceOk(s: State) {
    forall key: Key :: key.sink in s.registered ==> key.sink in s.since && Since(s, key) <= HeadOf(s.heads, key.stream)
  }

  ghost predicate FilledOk(s: State) {
    forall key :: key in s.filled ==> key.sink in s.registered && Below(s.delivered, key, Since(s, key))
  }

  ghost predicate AttachedOk(c: Config, s: State) {
    forall key: Key :: key.sink in s.attached && c.accepts(key) && Since(s, key) > 0 ==> key in s.filled
  }

  ghost predicate FillOk(c: Config, s: State, t: Task) {
    t.Fill? && !t.fill.Begin? ==>
      && t.sink in s.registered
      && (!t.fill.Pick? && !t.fill.ResetMemory? && !t.fill.ResetBackend? && !t.fill.AskHead? ==>
            Since(s, Key(t.sink, t.stream)) <= t.head)
      && (t.clean ==> forall st: StreamId :: Remains(c, s, t, st))
  }

  /** A stream with history at registration is still to come, being worked on, or done. */
  ghost predicate Remains(c: Config, s: State, t: Task, st: StreamId)
    requires t.Fill?
  {
    c.accepts(Key(t.sink, st)) && Since(s, Key(t.sink, st)) > 0 ==>
      st in t.todo || Key(t.sink, st) in s.filled || (st == t.stream && !t.fill.Pick?)
  }

  ghost predicate Attach(c: Config, s: State) {
    && Owed(c, s) && SinceOk(s) && FilledOk(s) && AttachedOk(c, s)
    && (forall sink :: sink in s.attached ==> sink in s.registered)
    && forall id :: id in s.tasks ==> FillOk(c, s, s.tasks[id])
  }

  /** A step of one task, as the attach argument sees it. */
  ghost predicate Quiet(s: State, u: State, id: TaskId) {
    && u.registered == s.registered && u.since == s.since && u.heads == s.heads
    && s.delivered <= u.delivered && s.notified <= u.notified && s.dropped <= u.dropped && s.filled <= u.filled
    && (forall o :: o in s.tasks && o != id ==> o in u.tasks && u.tasks[o] == s.tasks[o])
    && (forall o :: o in u.tasks ==> o in s.tasks)
  }

  ghost predicate Covers(c: Config, s: State, u: State, id: TaskId)
    requires id in s.tasks
  {
    forall key: Key, n: nat :: key.sink in s.registered && c.accepts(key) && Owes(s.tasks[id], key, n)
      ==> Settled(u, key, n) || (id in u.tasks && Owes(u.tasks[id], key, n))
  }

  lemma OwedKept(c: Config, s: State, u: State, id: TaskId)
    requires Owed(c, s) && id in s.tasks && Quiet(s, u, id) && Covers(c, s, u, id)
    ensures Owed(c, u)
  {
    forall key: Key, n: nat | key.sink in u.registered && c.accepts(key) && Since(u, key) < n <= HeadOf(u.heads, key.stream)
      ensures Handled(u, key, n)
    {
      assert Handled(s, key, n);
      if !Settled(s, key, n) {
        var o :| o in s.tasks && Owes(s.tasks[o], key, n);
        if o != id {
          assert o in u.tasks && Owes(u.tasks[o], key, n);
        }
      }
    }
  }

  lemma FillsKept(c: Config, s: State, u: State, id: TaskId)
    requires Attach(c, s) && id in s.tasks && Quiet(s, u, id)
    requires id in u.tasks ==> FillOk(c, u, u.tasks[id])
    ensures forall o :: o in u.tasks ==> FillOk(c, u, u.tasks[o])
  {
    forall o | o in u.tasks ensures FillOk(c, u, u.tasks[o]) {
      if o != id {
        var t := u.tasks[o];
        assert FillOk(c, s, t);
        if t.Fill? && !t.fill.Begin? && t.clean {
          forall st: StreamId ensures Remains(c, u, t, st) {
            assert Remains(c, s, t, st);
          }
        }
      }
    }
  }

  /** Everything but the task map, for a quiet step. */
  ghost predicate Still(s: State, u: State) {
    && u.registered == s.registered && u.since == s.since && u.heads == s.heads
    && s.delivered <= u.delivered && s.notified <= u.notified && s.dropped <= u.dropped && s.filled <= u.filled
  }

  lemma QuietGoes(s: State, u: State, id: TaskId, t: Task)
    requires Still(s, u) && id in s.tasks && u.tasks == s.tasks[id := t]
    ensures Quiet(s, u, id)
  {
  }

  lemma QuietOver(s: State, u: State, id: TaskId)
    requires Still(s, u) && id in s.tasks && u.tasks == s.tasks - {id}
    ensures Quiet(s, u, id)
  {
  }

  lemma LiveQuiet(c: Config, s: State, id: TaskId, t: Task, fate: Fate)
    requires id in s.tasks && s.tasks[id] == t && t.Live?
    ensures var u := LiveStep(c, s, id, t, fate);
            Quiet(s, u, id) && u.filled == s.filled && u.attached == s.attached && (id in u.tasks ==> u.tasks[id].Live?)
  {
    var u := LiveStep(c, s, id, t, fate);
    if t.live.Appended? || t.live.Preparing? || t.sinks == [] {
      if u.tasks == s.tasks - {id} { QuietOver(s, u, id); } else { QuietGoes(s, u, id, u.tasks[id]); }
    } else if t.live.Fan? || t.live.LivePeek? || t.live.LiveLoad? {
      QuietGoes(s, u, id, LiveAsk(c, s, t, fate));
    } else {
      ServeQuiet(c, s, id, t, fate);
    }
  }

  lemma ServeQuiet(c: Config, s: State, id: TaskId, t: Task, fate: Fate)
    requires id in s.tasks && s.tasks[id] == t && t.Live? && t.sinks != []
    requires t.live.LiveKeep? || t.live.Decide? || t.live.LivePersist? || t.live.LiveRecord?
    ensures var u := LiveServe(c, s, id, t, fate);
            Quiet(s, u, id) && u.filled == s.filled && u.attached == s.attached && id in u.tasks && u.tasks[id].Live?
  {
    var u := LiveServe(c, s, id, t, fate);
    QuietGoes(s, u, id, u.tasks[id]);
  }

  lemma LiveCovers(c: Config, s: State, id: TaskId, t: Task, fate: Fate)
    requires id in s.tasks && s.tasks[id] == t && t.Live? && TaskMarks(s.delivered, t) && TaskReal(s.heads, t)
    ensures Covers(c, s, LiveStep(c, s, id, t, fate), id)
  {
    var u := LiveStep(c, s, id, t, fate);
    forall key: Key, n: nat | key.sink in s.registered && c.accepts(key) && Owes(t, key, n)
      ensures Settled(u, key, n) || (id in u.tasks && Owes(u.tasks[id], key, n))
    {
      if t.live.Appended? || t.live.Preparing? {
      } else if t.live.Fan? || t.live.LivePeek? || t.live.LiveLoad? {
        assert t.sinks == [t.sinks[0]] + t.sinks[1..];
      } else {
        ServeCovers(c, s, id, t, fate, key, n);
      }
    }
  }

  lemma ServeCovers(c: Config, s: State, id: TaskId, t: Task, fate: Fate, key: Key, n: nat)
    requires t.Live? && t.sinks != [] && Owes(t, key, n) && TaskMarks(s.delivered, t) && TaskReal(s.heads, t)
    requires t.live.LiveKeep? || t.live.Decide? || t.live.LivePersist? || t.live.LiveRecord?
    ensures var u := LiveServe(c, s, id, t, fate);
            Settled(u, key, n) || (id in u.tasks && Owes(u.tasks[id], key, n))
  {
    assert t.sinks == [t.sinks[0]] + t.sinks[1..];
    if key.sink == t.sinks[0] && t.live.Decide? && t.seqNo <= t.value {
      assert (key, n) in s.delivered;
    }
  }

  lemma LiveAttach(c: Config, s: State, id: TaskId, t: Task, fate: Fate)
    requires Attach(c, s) && Safe(s) && id in s.tasks && s.tasks[id] == t && t.Live?
    ensures Attach(c, LiveStep(c, s, id, t, fate))
  {
    var u := LiveStep(c, s, id, t, fate);
    assert TaskMarks(s.delivered, t) && TaskReal(s.heads, t);
    LiveQuiet(c, s, id, t, fate);
    LiveCovers(c, s, id, t, fate);
    OwedKept(c, s, u, id);
    FillsKept(c, s, u, id);
  }

  // A catch-up owes nothing itself; what matters is what it has brought to head.

  lemma FillQuiet(c: Config, s: State, id: TaskId, t: Task, fate: Fate, choice: StreamId)
    requires id in s.tasks && s.tasks[id] == t && t.Fill?
    ensures Quiet(s, FillStep(c, s, id, t, fate, choice), id)
  {
    var u := FillStep(c, s, id, t, fate, choice);
    match t.fill {
      case Begin => BeginQuiet(s, id, t, fate);
      case Pick => PickQuiet(c, s, id, t, choice);
      case AskHead | FillPeek | FillLoad | Loop => AskQuiet(c, s, id, t, fate);
      case ResetMemory | ResetBackend | FillKeep => ResetQuiet(c, s, id, t, fate);
      case Batch | FillPersist | FillRecord => FillServeQuiet(c, s, id, t, fate);
    }
  }

  lemma BeginQuiet(s: State, id: TaskId, t: Task, fate: Fate)
    requires id in s.tasks && s.tasks[id] == t && t.Fill?
    ensures Quiet(s, FillBegin(s, id, t, fate), id)
  {
    var u := FillBegin(s, id, t, fate);
    if u.tasks == s.tasks - {id} { QuietOver(s, u, id); } else { QuietGoes(s, u, id, u.tasks[id]); }
  }

  lemma PickQuiet(c: Config, s: State, id: TaskId, t: Task, choice: StreamId)
    requires id in s.tasks && s.tasks[id] == t && t.Fill?
    ensures Quiet(s, FillPick(c, s, id, t, choice), id)
  {
    var u := FillPick(c, s, id, t, choice);
    if t.todo == {} { QuietOver(s, u, id); } else if choice in t.todo { QuietGoes(s, u, id, u.tasks[id]); }
  }

  lemma AskQuiet(c: Config, s: State, id: TaskId, t: Task, fate: Fate)
    requires id in s.tasks && s.tasks[id] == t && t.Fill?
    requires t.fill.AskHead? || t.fill.FillPeek? || t.fill.FillLoad? || t.fill.Loop?
    ensures Quiet(s, FillAsk(c, s, id, t, fate), id)
  {
    hide LoopStep;
    var u := FillAsk(c, s, id, t, fate);
    if t.fill.Loop? {
      LoopQuiet(s, id, t, fate);
    } else if u.tasks == s.tasks - {id} {
      QuietOver(s, u, id);
    } else {
      QuietGoes(s, u, id, u.tasks[id]);
    }
  }

  lemma LoopQuiet(s: State, id: TaskId, t: Task, fate: Fate)
    requires id in s.tasks && s.tasks[id] == t && t.Fill?
    ensures Quiet(s, LoopStep(s, id, t, fate), id)
  {
    var u := LoopStep(s, id, t, fate);
    if u.tasks == s.tasks - {id} { QuietOver(s, u, id); } else { QuietGoes(s, u, id, u.tasks[id]); }
  }

  lemma ResetQuiet(c: Config, s: State, id: TaskId, t: Task, fate: Fate)
    requires id in s.tasks && s.tasks[id] == t && t.Fill?
    requires t.fill.ResetMemory? || t.fill.ResetBackend? || t.fill.FillKeep?
    ensures Quiet(s, FillReset(c, s, id, t, fate), id)
  {
    var u := FillReset(c, s, id, t, fate);
    QuietGoes(s, u, id, u.tasks[id]);
  }

  lemma FillServeQuiet(c: Config, s: State, id: TaskId, t: Task, fate: Fate)
    requires id in s.tasks && s.tasks[id] == t && t.Fill?
    requires t.fill.Batch? || t.fill.FillPersist? || t.fill.FillRecord?
    ensures Quiet(s, FillServe(c, s, id, t, fate), id)
  {
    hide BatchStep;
    var u := FillServe(c, s, id, t, fate);
    if t.fill.Batch? { BatchQuiet(s, id, t, fate); } else { QuietGoes(s, u, id, u.tasks[id]); }
  }

  lemma BatchQuiet(s: State, id: TaskId, t: Task, fate: Fate)
    requires id in s.tasks && s.tasks[id] == t && t.Fill?
    ensures Quiet(s, BatchStep(s, id, t, fate), id)
  {
    var u := BatchStep(s, id, t, fate);
    if u.tasks == s.tasks - {id} { QuietOver(s, u, id); } else { QuietGoes(s, u, id, u.tasks[id]); }
  }

  /** What a catch-up step must establish beyond being quiet. */
  ghost predicate FillStepAttach(c: Config, u: State, id: TaskId) {
    && FilledOk(u) && AttachedOk(c, u)
    && (forall sink :: sink in u.attached ==> sink in u.registered)
    && (id in u.tasks ==> FillOk(c, u, u.tasks[id]))
  }

  ghost predicate Sound(c: Config, s: State) {
    SinceOk(s) && FilledOk(s) && AttachedOk(c, s) && forall sink :: sink in s.attached ==> sink in s.registered
  }

  /** Most steps leave `filled` and `attached` alone and only move the task. */
  lemma SameAttach(c: Config, s: State, u: State, id: TaskId)
    requires Sound(c, s) && u.filled == s.filled && u.attached == s.attached
    requires u.since == s.since && u.registered == s.registered && s.delivered <= u.delivered
    requires id in u.tasks ==> FillOk(c, u, u.tasks[id])
    ensures FillStepAttach(c, u, id)
  {
  }

  /** A task that stays on its stream, or moves within it, keeps its promise. */
  lemma SameRemains(c: Config, s: State, u: State, t: Task, next: Task)
    requires t.Fill? && !t.fill.Begin? && FillOk(c, s, t) && u.since == s.since && u.registered == s.registered &&
             s.filled <= u.filled
    requires next.Fill? && next.sink == t.sink && next.todo == t.todo && next.stream == t.stream && !next.fill.Begin?
    requires next.clean ==> t.clean
    requires next.fill.Pick? && next.clean ==> t.fill.Pick? || Key(t.sink, t.stream) in u.filled
    requires !next.fill.Pick? && !next.fill.ResetMemory? && !next.fill.ResetBackend? && !next.fill.AskHead? ==>
               Since(s, Key(t.sink, t.stream)) <= next.head
    requires t.fill.Pick? ==> next.fill.Pick?
    ensures FillOk(c, u, next)
  {
    if next.clean {
      forall st: StreamId ensures Remains(c, u, next, st) {
        assert Remains(c, s, t, st);
      }
    }
  }

  lemma BeginAttach(c: Config, s: State, id: TaskId, t: Task, fate: Fate)
    requires Sound(c, s) && id in s.tasks && s.tasks[id] == t && t.Fill? && t.fill.Begin?
    ensures FillStepAttach(c, FillBegin(s, id, t, fate), id)
  {
    var u := FillBegin(s, id, t, fate);
    if id in u.tasks {
      var next := u.tasks[id];
      forall st: StreamId ensures Remains(c, u, next, st) {
        assert Since(s, Key(t.sink, st)) <= HeadOf(s.heads, st);
      }
    }
    SameAttach(c, s, u, id);
  }

  lemma PickAttach(c: Config, s: State, id: TaskId, t: Task, choice: StreamId)
    requires Sound(c, s) && id in s.tasks && s.tasks[id] == t && t.Fill? && t.fill.Pick? && FillOk(c, s, t)
    ensures FillStepAttach(c, FillPick(c, s, id, t, choice), id)
  {
    var u := FillPick(c, s, id, t, choice);
    if t.todo == {} {
      if t.clean {
        forall key: Key | key.sink in u.attached && c.accepts(key) && Since(u, key) > 0 ensures key in u.filled {
          assert key.sink == t.sink ==> Remains(c, s, t, key.stream);
        }
      }
    } else if choice in t.todo {
      PickedAttach(c, s, u, t, choice);
      SameAttach(c, s, u, id);
    }
  }

  lemma PickedAttach(c: Config, s: State, u: State, t: Task, choice: StreamId)
    requires t.Fill? && t.fill.Pick? && FillOk(c, s, t) && choice in t.todo
    requires u.since == s.since && u.registered == s.registered && u.filled == s.filled
    ensures FillOk(c, u, Picked(c, t, choice))
  {
    var next := Picked(c, t, choice);
    if t.clean {
      forall st: StreamId ensures Remains(c, u, next, st) {
        assert Remains(c, s, t, st);
      }
    }
  }

  lemma AskAttach(c: Config, s: State, id: TaskId, t: Task, fate: Fate)
    requires Sound(c, s) && id in s.tasks && s.tasks[id] == t && t.Fill? && FillOk(c, s, t) && TaskMarks(s.delivered, t)
    requires t.fill.AskHead? || t.fill.FillPeek? || t.fill.FillLoad? || t.fill.Loop?
    ensures FillStepAttach(c, FillAsk(c, s, id, t, fate), id)
  {
    hide LoopStep, Below;
    var u := FillAsk(c, s, id, t, fate);
    if t.fill.Loop? {
      LoopAttach(c, s, id, t, fate);
    } else {
      if t.fill.AskHead? {
        assert Since(s, Key(t.sink, t.stream)) <= HeadOf(s.heads, t.stream);
      }
      if id in u.tasks && u.tasks != s.tasks - {id} {
        SameRemains(c, s, u, t, u.tasks[id]);
      }
      SameAttach(c, s, u, id);
    }
  }

  lemma LoopAttach(c: Config, s: State, id: TaskId, t: Task, fate: Fate)
    requires Sound(c, s) && id in s.tasks && s.tasks[id] == t && t.Fill? && FillOk(c, s, t) && TaskMarks(s.delivered, t)
    requires t.fill.Loop?
    ensures FillStepAttach(c, LoopStep(s, id, t, fate), id)
  {
    var u := LoopStep(s, id, t, fate);
    var key := Key(t.sink, t.stream);
    if t.head <= t.value {
      SameRemains(c, s, u, t, u.tasks[id]);
      assert Below(s.delivered, key, Since(s, key));
      FilledMore(s, u, key);
    } else {
      if fate.Works? {
        SameRemains(c, s, u, t, u.tasks[id]);
      }
      SameAttach(c, s, u, id);
    }
  }

  lemma FilledMore(s: State, u: State, key: Key)
    requires FilledOk(s) && u.filled == s.filled + {key} && key.sink in s.registered && Below(s.delivered, key, Since(s, key))
    requires u.since == s.since && u.registered == s.registered && u.delivered == s.delivered
    ensures FilledOk(u)
  {
  }

  lemma ResetAttach(c: Config, s: State, id: TaskId, t: Task, fate: Fate)
    requires Sound(c, s) && id in s.tasks && s.tasks[id] == t && t.Fill? && FillOk(c, s, t)
    requires t.fill.ResetMemory? || t.fill.ResetBackend? || t.fill.FillKeep?
    ensures FillStepAttach(c, FillReset(c, s, id, t, fate), id)
  {
    var u := FillReset(c, s, id, t, fate);
    SameRemains(c, s, u, t, u.tasks[id]);
    SameAttach(c, s, u, id);
  }

  ghost predicate ServedFrame(s: State, u: State) {
    && u.filled == s.filled && u.attached == s.attached && u.returned == s.returned
    && u.since == s.since && u.registered == s.registered
    && s.delivered <= u.delivered && u.notified == s.notified && u.dropped == s.dropped
  }

  lemma ServeStill(c: Config, s: State, id: TaskId, t: Task, fate: Fate)
    requires t.Fill? && (t.fill.Batch? || t.fill.FillPersist? || t.fill.FillRecord?)
    ensures ServedFrame(s, FillServe(c, s, id, t, fate))
  {
    match t.fill {
      case Batch => BatchStill(s, id, t, fate);
      case FillPersist =>
      case FillRecord =>
    }
  }

  lemma BatchStill(s: State, id: TaskId, t: Task, fate: Fate)
    requires t.Fill?
    ensures ServedFrame(s, BatchStep(s, id, t, fate))
  {
  }

  ghost predicate ServedTask(s: State, u: State, id: TaskId, t: Task, fate: Fate)
    requires t.Fill?
  {
    u.tasks == s.tasks - {id} ||
    (id in u.tasks && SameStream(t, u.tasks[id]) && (u.tasks[id].fill.Pick? ==> !u.tasks[id].clean)
     && (fate.Works? ==> u.tasks[id].clean == t.clean))
  }

  lemma ServeNext(c: Config, s: State, id: TaskId, t: Task, fate: Fate)
    requires t.Fill? && (t.fill.Batch? || t.fill.FillPersist? || t.fill.FillRecord?)
    ensures ServedTask(s, FillServe(c, s, id, t, fate), id, t, fate)
  {
    match t.fill {
      case Batch => BatchNext(s, id, t, fate);
      case FillPersist =>
      case FillRecord =>
    }
  }

  lemma BatchNext(s: State, id: TaskId, t: Task, fate: Fate)
    requires t.Fill? && t.fill.Batch?
    ensures ServedTask(s, BatchStep(s, id, t, fate), id, t, fate)
  {
  }

  predicate SameStream(t: Task, next: Task) {
    && t.Fill? && next.Fill? && next.sink == t.sink && next.todo == t.todo && next.stream == t.stream && next.head == t.head
    && !next.fill.Begin? && (next.clean ==> t.clean)
  }

  lemma ServeAttach(c: Config, s: State, id: TaskId, t: Task, fate: Fate)
    requires Sound(c, s) && id in s.tasks && s.tasks[id] == t && t.Fill? && FillOk(c, s, t)
    requires t.fill.Batch? || t.fill.FillPersist? || t.fill.FillRecord?
    ensures FillStepAttach(c, FillServe(c, s, id, t, fate), id)
  {
    var u := FillServe(c, s, id, t, fate);
    ServeStill(c, s, id, t, fate);
    ServeNext(c, s, id, t, fate);
    if u.tasks != s.tasks - {id} {
      SameRemains(c, s, u, t, u.tasks[id]);
    }
    SameAttach(c, s, u, id);
  }

  lemma FillAttach(c: Config, s: State, id: TaskId, t: Task, fate: Fate, choice: StreamId)
    requires Attach(c, s) && Safe(s) && id in s.tasks && s.tasks[id] == t && t.Fill?
    ensures Attach(c, FillStep(c, s, id, t, fate, choice))
  {
    hide FillBegin, FillPick, FillAsk, FillReset, FillServe, Below;
    var u := FillStep(c, s, id, t, fate, choice);
    assert TaskMarks(s.delivered, t) && FillOk(c, s, t);
    FillQuiet(c, s, id, t, fate, choice);
    OwedKept(c, s, u, id);
    match t.fill {
      case Begin => BeginAttach(c, s, id, t, fate);
      case Pick => PickAttach(c, s, id, t, choice);
      case AskHead | FillPeek | FillLoad | Loop => AskAttach(c, s, id, t, fate);
      case ResetMemory | ResetBackend | FillKeep => ResetAttach(c, s, id, t, fate);
      case Batch | FillPersist | FillRecord => ServeAttach(c, s, id, t, fate);
    }
    FillsKept(c, s, u, id);
  }

  lemma AppendAttach(c: Config, s: State, id: TaskId, stream: StreamId)
    requires Attach(c, s) && id !in s.tasks
    ensures Attach(c, Step(c, s, Append(id, stream)))
  {
    var u := Step(c, s, Append(id, stream));
    var n := HeadOf(s.heads, stream) + 1;
    forall key: Key, m: nat | key.sink in u.registered && c.accepts(key) && Since(u, key) < m <= HeadOf(u.heads, key.stream)
      ensures Handled(u, key, m)
    {
      if m == n && key.stream == stream {
        assert Owes(u.tasks[id], key, m);
      } else {
        assert Handled(s, key, m);
        if !Settled(s, key, m) {
          var o :| o in s.tasks && Owes(s.tasks[o], key, m);
          assert o in u.tasks && Owes(u.tasks[o], key, m);
        }
      }
    }
    TasksKept(c, s, u, id);
  }

  /** Spawning a task, or growing the heads, changes nothing for the tasks there are. */
  lemma TasksKept(c: Config, s: State, u: State, id: TaskId)
    requires forall o :: o in s.tasks ==> FillOk(c, s, s.tasks[o])
    requires u.since == s.since && u.registered == s.registered && u.filled == s.filled
    requires forall o :: o in u.tasks ==> o == id || (o in s.tasks && u.tasks[o] == s.tasks[o])
    requires id in u.tasks && (u.tasks[id].Live? || (u.tasks[id].Fill? && u.tasks[id].fill.Begin?))
    ensures forall o :: o in u.tasks ==> FillOk(c, u, u.tasks[o])
  {
    forall o | o in u.tasks ensures FillOk(c, u, u.tasks[o]) {
      if o != id {
        var t := u.tasks[o];
        assert FillOk(c, s, t);
        if t.Fill? && !t.fill.Begin? && t.clean {
          forall st: StreamId ensures Remains(c, u, t, st) {
            assert Remains(c, s, t, st);
          }
        }
      }
    }
  }

  lemma RegisterAttach(c: Config, s: State, sink: SinkId)
    requires Attach(c, s) && sink !in s.registered
    ensures Attach(c, Step(c, s, Register(sink)))
  {
    var u := Step(c, s, Register(sink));
    forall key: Key, m: nat | key.sink in u.registered && c.accepts(key) && Since(u, key) < m <= HeadOf(u.heads, key.stream)
      ensures Handled(u, key, m)
    {
      assert key.sink in s.registered && Since(s, key) == Since(u, key);
      assert Handled(s, key, m);
      if !Settled(s, key, m) {
        var o :| o in s.tasks && Owes(s.tasks[o], key, m);
        assert o in u.tasks && Owes(u.tasks[o], key, m);
      }
    }
    forall o | o in u.tasks ensures FillOk(c, u, u.tasks[o]) {
      var t := u.tasks[o];
      assert FillOk(c, s, t);
      if t.Fill? && !t.fill.Begin? && t.clean {
        forall st: StreamId ensures Remains(c, u, t, st) {
          assert Remains(c, s, t, st);
        }
      }
    }
  }

  lemma SpawnAttach(c: Config, s: State, id: TaskId, sink: SinkId, rebuild: bool)
    requires Attach(c, s) && id !in s.tasks
    ensures Attach(c, Step(c, s, CatchUp(id, sink, rebuild)))
  {
    var u := Step(c, s, CatchUp(id, sink, rebuild));
    forall key: Key, m: nat | key.sink in u.registered && c.accepts(key) && Since(u, key) < m <= HeadOf(u.heads, key.stream)
      ensures Handled(u, key, m)
    {
      assert Handled(s, key, m);
      if !Settled(s, key, m) {
        var o :| o in s.tasks && Owes(s.tasks[o], key, m);
        assert o in u.tasks && Owes(u.tasks[o], key, m);
      }
    }
    TasksKept(c, s, u, id);
  }

  lemma StepAttach(c: Config, s: State, a: Action)
    requires Attach(c, s) && Safe(s)
    ensures Attach(c, Step(c, s, a))
  {
    match a {
      case Append(id, stream) => if id !in s.tasks { AppendAttach(c, s, id, stream); }
      case Register(sink) => if sink !in s.registered { RegisterAttach(c, s, sink); }
      case CatchUp(id, sink, rebuild) => if id !in s.tasks { SpawnAttach(c, s, id, sink, rebuild); }
      case Go(id, fate, choice) =>
        if id in s.tasks {
          if s.tasks[id].Live? {
            LiveAttach(c, s, id, s.tasks[id], fate);
          } else {
            FillAttach(c, s, id, s.tasks[id], fate, choice);
          }
        }
      case Crash =>
    }
  }

  lemma {:induction false} RunAttach(c: Config, actions: seq<Action>)
    ensures Attach(c, Run(c, actions))
    decreases |actions|
  {
    if actions != [] {
      RunAttach(c, actions[..|actions| - 1]);
      RunSafe(c, actions[..|actions| - 1]);
      StepAttach(c, Run(c, actions[..|actions| - 1]), actions[|actions| - 1]);
    }
  }

  /**
   * No event is lost by an attach racing with appends: once a catch-up that
   * began after the registration has returned with no failure, every event of
   * every accepted stream, committed before, during or after, was delivered,
   * or its failure was reported, or its append is still under way.
   */
  lemma AttachLosesNothing(c: Config, actions: seq<Action>, key: Key, n: nat)
    requires key.sink in Run(c, actions).attached && c.accepts(key)
    requires 1 <= n <= HeadOf(Run(c, actions).heads, key.stream)
    ensures Handled(Run(c, actions), key, n)
  {
    RunAttach(c, actions);
    var s := Run(c, actions);
    if n <= Since(s, key) {
      assert key in s.filled && Below(s.delivered, key, Since(s, key));
    }
  }

  // ---- runs without failures ---------------------------------------------------------

  predicate AllWork(actions: seq<Action>) {
    forall i :: 0 <= i < |actions| && actions[i].Go? ==> actions[i].fate.Works?
  }

  ghost predicate Clean(s: State) {
    && s.notified == {} && s.dropped == {} && s.returned <= s.attached
    && forall id :: id in s.tasks && s.tasks[id].Fill? ==> s.tasks[id].clean
  }

  lemma LiveClean(c: Config, s: State, id: TaskId, t: Task)
    requires Clean(s) && id in s.tasks && s.tasks[id] == t && t.Live?
    ensures Clean(LiveStep(c, s, id, t, Works))
  {
    LiveQuiet(c, s, id, t, Works);
    var u := LiveStep(c, s, id, t, Works);
    LiveReports(c, s, id, t);
    forall o | o in u.tasks && u.tasks[o].Fill? ensures u.tasks[o].clean {
      assert o != id && u.tasks[o] == s.tasks[o];
    }
  }

  lemma LiveReports(c: Config, s: State, id: TaskId, t: Task)
    requires t.Live?
    ensures var u := LiveStep(c, s, id, t, Works);
            u.notified == s.notified && u.dropped == s.dropped && u.returned == s.returned
  {
    if !t.live.Appended? && !t.live.Preparing? && t.sinks != [] && !(t.live.Fan? || t.live.LivePeek? || t.live.LiveLoad?) {
      var u := LiveServe(c, s, id, t, Works);
      assert u.notified == s.notified && u.dropped == s.dropped && u.returned == s.returned;
    }
  }

  lemma FillClean(c: Config, s: State, id: TaskId, t: Task, choice: StreamId)
    requires Clean(s) && id in s.tasks && s.tasks[id] == t && t.Fill?
    ensures Clean(FillStep(c, s, id, t, Works, choice))
  {
    FillQuiet(c, s, id, t, Works, choice);
    var u := FillStep(c, s, id, t, Works, choice);
    FillReports(c, s, id, t, choice);
    forall o | o in u.tasks && u.tasks[o].Fill? ensures u.tasks[o].clean {
      if o != id { assert u.tasks[o] == s.tasks[o]; }
    }
  }

  lemma FillReports(c: Config, s: State, id: TaskId, t: Task, choice: StreamId)
    requires t.Fill? && t.clean && id in s.tasks && s.tasks[id] == t
    ensures var u := FillStep(c, s, id, t, Works, choice);
            && u.notified == s.notified && u.dropped == s.dropped
            && (s.returned <= s.attached ==> u.returned <= u.attached)
            && (id in u.tasks && u.tasks[id].Fill? ==> u.tasks[id].clean)
  {
    match t.fill {
      case Begin => assert FillStep(c, s, id, t, Works, choice) == FillBegin(s, id, t, Works);
      case Pick => assert FillStep(c, s, id, t, Works, choice) == FillPick(c, s, id, t, choice);
      case AskHead | FillPeek | FillLoad | Loop => AskReports(c, s, id, t);
      case ResetMemory | ResetBackend | FillKeep => ResetReports(c, s, id, t);
      case Batch | FillPersist | FillRecord => ServeReports(c, s, id, t);
    }
  }

  lemma AskReports(c: Config, s: State, id: TaskId, t: Task)
    requires t.Fill? && t.clean && id in s.tasks && s.tasks[id] == t
    ensures var u := FillAsk(c, s, id, t, Works);
            && u.notified == s.notified && u.dropped == s.dropped && u.returned == s.returned && u.attached == s.attached
            && (id in u.tasks && u.tasks[id].Fill? ==> u.tasks[id].clean)
  {
  }

  lemma ResetReports(c: Config, s: State, id: TaskId, t: Task)
    requires t.Fill? && t.clean && id in s.tasks && s.tasks[id] == t
    requires t.fill.ResetMemory? || t.fill.ResetBackend? || t.fill.FillKeep?
    ensures var u := FillReset(c, s, id, t, Works);
            && u.notified == s.notified && u.dropped == s.dropped && u.returned == s.returned && u.attached == s.attached
            && id in u.tasks && u.tasks[id].Fill? && u.tasks[id].clean
  {
    match t.fill {
      case ResetMemory =>
      case ResetBackend =>
      case FillKeep =>
    }
  }

  lemma ServeReports(c: Config, s: State, id: TaskId, t: Task)
    requires t.Fill? && t.clean && id in s.tasks && s.tasks[id] == t
    requires t.fill.Batch? || t.fill.FillPersist? || t.fill.FillRecord?
    ensures var u := FillServe(c, s, id, t, Works);
            && u.notified == s.notified && u.dropped == s.dropped && u.returned == s.returned && u.attached == s.attached
            && (id in u.tasks && u.tasks[id].Fill? ==> u.tasks[id].clean)
  {
    ServeStill(c, s, id, t, Works);
    ServeNext(c, s, id, t, Works);
  }

  lemma {:induction false} RunClean(c: Config, actions: seq<Action>)
    requires AllWork(actions)
    ensures Clean(Run(c, actions))
    decreases |actions|
  {
    if actions != [] {
      var before := Run(c, actions[..|actions| - 1]);
      RunClean(c, actions[..|actions| - 1]);
      match actions[|actions| - 1] {
        case Go(id, fate, choice) =>
          if id in before.tasks {
            if before.tasks[id].Live? {
              LiveClean(c, before, id, before.tasks[id]);
            } else {
              FillClean(c, before, id, before.tasks[id], choice);
            }
          }
        case _ =>
      }
    }
  }

  /**
   * With every call succeeding: once the attach has returned and the appends to
   * the stream have, every event of the stream was delivered to the sink.
   */
  lemma AttachDeliversEverything(c: Config, actions: seq<Action>, key: Key, n: nat)
    requires AllWork(actions) && key.sink in Run(c, actions).returned && c.accepts(key)
    requires 1 <= n <= HeadOf(Run(c, actions).heads, key.stream)
    requires forall id :: id in Run(c, actions).tasks && Run(c, actions).tasks[id].Live? ==>
             Run(c, actions).tasks[id].stream != key.stream
    ensures (key, n) in Run(c, actions).delivered
  {
    RunClean(c, actions);
    AttachLosesNothing(c, actions, key, n);
  }
}
