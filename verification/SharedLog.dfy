/**
 * One stream under concurrency: writers, readers, reverts and compactions as
 * step machines over a shared log and a shared cache.
 *
 * Every backend call is one atomic step, and may work, fail, or take effect
 * but be reported as a failure. A run is a list of actions chosen by the
 * environment; an action that is not possible leaves the state as it is. So a
 * statement about `Run(c, actions)` for all `actions` speaks of every
 * interleaving, with any number of crashes, retries and evictions.
 *
 * Locks, rows and cache entries are all kept per stream, so one stream is
 * enough. No upcasters.
 */
module SharedLog {
  import opened Wrappers
  import opened Json
  import opened Events
  import opened Upcasting
  import opened Reads

  type TaskId = nat

  /**
   * `oneStore`: every write goes through one Store and takes its lock for the
   * stream. Otherwise writes come from any number of Stores, all of them
   * through `append_if_head`, with no lock in common.
   */
  datatype Config = Config(
    oneStore: bool, gated: bool, gates: (string, Patch, Json, Json) -> bool, stride: nat)

  datatype Mode = Plain | IfHead(expected: nat)

  datatype Job =
    | Get(at: nat)
    | Write(mode: Mode, rec: NewEvent, restores: Option<nat>)
    | Revert(to: nat, current: Option<Json>)
    | Compact(upTo: nat)

  datatype Pc =
    | Idle
    | NeedHead                                      // `state`: which coordinate?
    | AskHead(at: nat)                              // the four reads of `state_at`
    | AskBoundary(at: nat)
    | AskCache(at: nat)
    | AskRows(at: nat, from: nat, base: Json)
    | Answered(at: nat, answer: Result<Json>)       // `state_at` returned
    | Stored(at: nat, next: Option<Json>)           // appended, cache not yet written
    | Swap(at: nat, state: Json, time: int)         // compaction, before its transaction
    | Failed(error: Error)
    | Finished

  datatype Task = Task(job: Job, pc: Pc)

  datatype State = State(
    history: seq<Event>,        // every event ever committed; kept for the statements only
    boundary: nat,              // the last compaction; for the statements only
    log: seq<Event>,
    cache: Cache,
    lock: Option<TaskId>,
    compactor: Option<TaskId>,  // compactions do not overlap each other
    tasks: map<TaskId, Task>,
    reverts: map<nat, nat>)     // coordinate of a revert event -> coordinate it restores

  const Initial := State([], 0, [], map[], None, None, map[], map[])

  datatype Fate = Works | Fails | Unacknowledged

  datatype Action =
    | Spawn(id: TaskId, job: Job)
    | Go(id: TaskId, fate: Fate, diff: Patch, time: int)   // `time`: clock; `diff`: what json_patch::diff returns
    | Evict(kept: set<nat>)                                // any pruning, manual or automatic
    | Crash

  // ---- steps ---------------------------------------------------------------

  function Step(c: Config, s: State, a: Action): State {
    match a
    case Spawn(id, job) =>
      if id in s.tasks || !Allowed(c, job) then s else s.(tasks := s.tasks[id := Task(job, Idle)])
    case Go(id, fate, diff, time) =>
      if id !in s.tasks then s else GoStep(c, s, id, s.tasks[id], fate, diff, time)
    case Evict(kept) => s.(cache := map k | k in s.cache && k in kept :: s.cache[k])
    case Crash => s.(lock := None, compactor := None, tasks := map[])
  }

  function Run(c: Config, actions: seq<Action>): State {
    if actions == [] then Initial
    else Step(c, Run(c, actions[..|actions| - 1]), actions[|actions| - 1])
  }

  predicate Allowed(c: Config, job: Job) {
    match job
    case Write(mode, _, restores) => restores == None && (c.oneStore || mode.IfHead?)
    case Revert(_, current) => c.oneStore && current == None
    case _ => true
  }

  function Moved(s: State, id: TaskId, task: Task): State {
    s.(tasks := s.tasks[id := task])
  }

  /** The task ends; whatever it held is released. */
  function Ended(s: State, id: TaskId, task: Task, pc: Pc): State {
    s.(tasks := s.tasks[id := task.(pc := pc)],
       lock := if s.lock == Some(id) then None else s.lock,
       compactor := if s.compactor == Some(id) then None else s.compactor)
  }

  function GoStep(c: Config, s: State, id: TaskId, task: Task, fate: Fate, diff: Patch, time: int): State {
    match task.pc
    case Idle => Start(c, s, id, task)
    case NeedHead | AskHead(_) | AskBoundary(_) | AskCache(_) | AskRows(_, _, _) =>
      if fate.Works? then ReadStep(s, id, task) else Ended(s, id, task, Failed(BackendFailed))
    case Answered(at, answer) =>
      if answer.Err? then Ended(s, id, task, Failed(answer.error))
      else UseAnswer(c, s, id, task, answer.value, fate, diff, time)
    case Stored(at, next) => StoredStep(c, s, id, task, at, next, fate)
    case Swap(at, state, anchor) =>
      if fate.Fails? then Ended(s, id, task, Failed(BackendFailed))
      else Ended(Compacted(s, at, state, anchor), id, task, if fate.Works? then Finished else Failed(BackendFailed))
    case Failed(_) | Finished => s
  }

  /** After the append: a state that falls on the stride goes to the cache. Off the stride nobody asks for it. */
  function StoredStep(c: Config, s: State, id: TaskId, task: Task, at: nat, next: Option<Json>, fate: Fate): State {
    if c.stride == 0 || at % c.stride != 0 then Ended(s, id, task, Finished)
    else if next.None? then Ended(s, id, task, Failed(PatchFailed(at)))
    else if fate.Fails? then Ended(s, id, task, Failed(BackendFailed))
    else Ended(s.(cache := s.cache[at := next.value]), id, task, if fate.Works? then Finished else Failed(BackendFailed))
  }

  function Start(c: Config, s: State, id: TaskId, task: Task): State {
    match task.job
    case Get(at) => Moved(s, id, task.(pc := AskHead(at)))
    case Compact(upTo) =>
      if s.compactor.Some? then s
      else if upTo == 0 then Ended(s, id, task, Failed(InvalidRange))
      else s.(tasks := s.tasks[id := task.(pc := AskHead(upTo))], compactor := Some(id))
    case Write(mode, _, _) =>
      if c.oneStore && s.lock.Some? then s
      else
        var pc := if mode.Plain? then NeedHead
                  else if mode.expected == 0 then Answered(0, Ok(Null)) else AskHead(mode.expected);
        s.(tasks := s.tasks[id := task.(pc := pc)], lock := if c.oneStore then Some(id) else s.lock)
    case Revert(_, _) =>
      if s.lock.Some? then s
      else s.(tasks := s.tasks[id := task.(pc := NeedHead)], lock := Some(id))
  }

  /** A failed head check of `append_if_head` is reported as a conflict. */
  function Refused(task: Task, error: Error): Error {
    if task.job.Write? && task.job.mode.IfHead? then
      match error
      case SeqOutOfRange(head, _) => HeadConflict(task.job.mode.expected, head)
      case UnknownStream => HeadConflict(task.job.mode.expected, None)
      case _ => error
    else error
  }

  predicate Reading(pc: Pc) {
    pc.NeedHead? || pc.AskHead? || pc.AskBoundary? || pc.AskCache? || pc.AskRows?
  }

  function ReadStep(s: State, id: TaskId, task: Task): State
    requires Reading(task.pc)
  {
    var pc := AfterRead(s, task);
    if pc.Failed? then Ended(s, id, task, pc) else Moved(s, id, task.(pc := pc))
  }

  function AfterRead(s: State, task: Task): Pc
    requires Reading(task.pc)
  {
    match task.pc
    case NeedHead => (match Head(s.log) case None => Answered(0, Ok(Null)) case Some(h) => AskHead(h))
    case AskHead(at) =>
      (match Head(s.log)
       case None => Failed(Refused(task, UnknownStream))
       case Some(h) => if at > h then Failed(Refused(task, SeqOutOfRange(Some(h), at))) else AskBoundary(at))
    case AskBoundary(at) =>
      if Boundary(s.log).Some? && at < Boundary(s.log).value
      then Failed(SeqCompacted(Boundary(s.log).value, at))
      else AskCache(at)
    case AskCache(at) =>
      var (from, base) := Base(s.cache, at);
      if from > at then Answered(at, Ok(base)) else AskRows(at, from, base)
    case AskRows(at, from, base) => Answered(at, Replay(base, UpTo(Read(s.log, from, Monus(at + 1, from)), at)))
  }

  function UseAnswer(c: Config, s: State, id: TaskId, task: Task, state: Json, fate: Fate, diff: Patch, time: int): State
    requires task.pc.Answered?
  {
    match task.job
    case Get(_) => s
    case Compact(upTo) =>
      var rows := Read(s.log, upTo, 1);
      if !fate.Works? || rows == [] then Ended(s, id, task, Failed(BackendFailed))
      else Moved(s, id, task.(pc := Swap(upTo, state, rows[0].at)))
    case Revert(to, None) => Moved(s, id, Task(Revert(to, Some(state)), AskHead(to)))
    case Revert(to, Some(current)) =>
      if Apply(current, diff) != Some(state) then s
      else
        var meta := Object(map["revert_to" := Number(to)]);
        Moved(s, id, Task(Write(Plain, NewEvent(REVERT_KIND, diff, meta), Some(to)), NeedHead))
    case Write(mode, rec, restores) =>
      match Refusal(c, s.log, mode, rec, state, fate)
      case Some(error) => Ended(s, id, task, Failed(error))
      case None => AppendStep(s, id, task, state, fate, time)
  }

  function Refusal(c: Config, log: seq<Event>, mode: Mode, rec: NewEvent, state: Json, fate: Fate): Option<Error> {
    var next := Apply(state, rec.patch);
    if c.gated && next.None? then Some(PatchRejected)
    else if c.gated && !c.gates(rec.kind, rec.patch, state, next.value) then Some(SchemaRejected)
    else if fate.Fails? then Some(BackendFailed)
    else if mode.IfHead? && HeadOr0(log) != mode.expected then Some(HeadConflict(mode.expected, Head(log)))
    else None
  }

  function AppendStep(s: State, id: TaskId, task: Task, state: Json, fate: Fate, time: int): State
    requires task.job.Write?
  {
    var rec := task.job.rec;
    var event := Event(HeadOr0(s.log) + 1, rec.kind, rec.patch, rec.meta, time);
    var grown := Appended(s, event, task.job.restores);
    if fate.Unacknowledged? then Ended(grown, id, task, Failed(BackendFailed))
    else Moved(grown, id, task.(pc := Stored(event.seqNo, Apply(state, rec.patch))))
  }

  function HeadOr0(log: seq<Event>): nat {
    match Head(log) case None => 0 case Some(h) => h
  }

  function Appended(s: State, event: Event, restores: Option<nat>): State {
    s.(history := s.history + [event],
       log := s.log + [event],
       reverts := if restores.None? then s.reverts else s.reverts[event.seqNo := restores.value])
  }

  /** The compaction transaction: prefix out, snapshot in, stale cache rows out. */
  function Compacted(s: State, at: nat, state: Json, time: int): State {
    s.(log := [Snapshot(at, state, time)] + From(s.log, at + 1),
       boundary := at,
       cache := map k | k in s.cache && k >= at :: s.cache[k])
  }

  // ---- the invariant ---------------------------------------------------------

  /** The gates accepted event `n + 1` on exactly the states it moved the stream between. */
  ghost predicate GatesSaw(c: Config, history: seq<Event>, n: nat)
    requires n < |history|
  {
    c.gated ==>
      && Truth(history, n).Ok?
      && Truth(history, n + 1).Ok?
      && c.gates(history[n].kind, history[n].patch, Truth(history, n).value, Truth(history, n + 1).value)
  }

  ghost predicate RevertsOk(history: seq<Event>, boundary: nat, reverts: map<nat, nat>) {
    forall k :: k in reverts ==>
      && 1 <= k <= |history| && reverts[k] < k
      && (Truth(history, k) == Truth(history, reverts[k]) || reverts[k] < boundary)
  }

  ghost predicate Core(c: Config, history: seq<Event>, boundary: nat, log: seq<Event>, cache: Cache, reverts: map<nat, nat>) {
    && Holds(log, history, boundary)
    && CacheOk(cache, history)
    && (forall n :: 0 <= n < |history| ==> GatesSaw(c, history, n))
    && RevertsOk(history, boundary, reverts)
  }

  predicate Writing(task: Task) {
    (task.job.Write? || task.job.Revert?) && !task.pc.Idle? && !task.pc.Failed? && !task.pc.Finished?
  }

  predicate Compacting(task: Task) {
    task.job.Compact? && !task.pc.Idle? && !task.pc.Failed? && !task.pc.Finished?
  }

  /** Is the coordinate this task is reading supposed to be the head? */
  predicate AtHead(job: Job) {
    (job.Write? && job.mode.Plain?) || (job.Revert? && job.current.None?)
  }

  ghost predicate PcOk(s: State, task: Task) {
    var n := |s.history|;
    match task.pc
    case AskHead(at) =>
      && (AtHead(task.job) ==> at == n)
      && (task.job.Compact? ==> at == task.job.upTo > 0)
      && (task.job.Write? && task.job.mode.IfHead? ==> at == task.job.mode.expected)
      && (task.job.Revert? && task.job.current.Some? ==> at == task.job.to)
      && (task.job.Get? ==> at == task.job.at)
    case AskBoundary(at) => at <= n && Aimed(s, task.job, at)
    case AskCache(at) => at <= n && Aimed(s, task.job, at) && (task.job.Compact? ==> s.boundary <= at)
    case AskRows(at, from, base) =>
      && 1 <= from <= at <= n && Aimed(s, task.job, at) && (task.job.Compact? ==> s.boundary <= at)
      && Truth(s.history, from - 1) == Ok(base)
    case Answered(at, answer) =>
      && at <= n && Aimed(s, task.job, at) && (task.job.Compact? ==> s.boundary <= at)
      && (Truth(s.history, at) == answer || at < s.boundary)
    case Stored(at, next) => 1 <= at <= n && (next.Some? ==> Truth(s.history, at) == Ok(next.value))
    case Swap(at, state, time) =>
      && 1 <= at <= n && s.boundary <= at
      && Truth(s.history, at) == Ok(state) && time == s.history[at - 1].at
    case _ => true
  }

  /** The coordinate a task reads is the one its job asks for. */
  predicate Aimed(s: State, job: Job, at: nat) {
    && (AtHead(job) ==> at == |s.history|)
    && (job.Compact? ==> at == job.upTo > 0)
    && (job.Write? && job.mode.IfHead? ==> at == job.mode.expected)
    && (job.Revert? && job.current.Some? ==> at == job.to)
    && (job.Get? ==> at == job.at)
  }

  /** What a task in its critical section knows about the head state. */
  ghost predicate SectionOk(s: State, job: Job) {
    var now := Truth(s.history, |s.history|);
    && (job.Revert? && job.current.Some? ==> now == Ok(job.current.value))
    && (job.Write? && job.restores.Some? ==>
          && job.mode.Plain? && job.restores.value <= |s.history|
          && now.Ok?
          && (job.restores.value < s.boundary ||
              match Apply(now.value, job.rec.patch)
              case None => false
              case Some(next) => Truth(s.history, job.restores.value) == Ok(next)))
  }

  ghost predicate TaskOk(c: Config, s: State, id: TaskId, task: Task) {
    && PcOk(s, task)
    && (Writing(task) && !task.pc.Stored? ==>
          && (if c.oneStore then s.lock == Some(id) else task.job.Write? && task.job.mode.IfHead? && task.job.restores.None?)
          && SectionOk(s, task.job))
    && (Writing(task) && c.oneStore ==> s.lock == Some(id))
    && (Compacting(task) ==> s.compactor == Some(id))
    && (task.pc.Idle? ==> Allowed(c, task.job))
    && (task.pc.Swap? ==> task.job.Compact?)
    && (task.pc.Stored? || task.pc.NeedHead? ==> Writing(task))
    && (task.pc.NeedHead? ==> AtHead(task.job))
  }

  ghost predicate Inv(c: Config, s: State) {
    && Core(c, s.history, s.boundary, s.log, s.cache, s.reverts)
    && forall id :: id in s.tasks ==> TaskOk(c, s, id, s.tasks[id])
  }

  // ---- every step keeps it -----------------------------------------------------

  /** What a step of task `id` may do to the state the other tasks rely on. */
  ghost predicate Grows(c: Config, s: State, t: State, id: TaskId) {
    && s.history <= t.history && s.boundary <= t.boundary <= |t.history|
    && (|t.history| > |s.history| && c.oneStore ==> s.lock == Some(id))
    && (t.boundary > s.boundary ==> s.compactor == Some(id))
    && (forall o :: o != id ==> (s.lock == Some(o) ==> t.lock == Some(o)) && (s.compactor == Some(o) ==>
         t.compactor == Some(o)))
  }

  lemma TruthGrows(history: seq<Event>, longer: seq<Event>)
    requires history <= longer
    ensures forall n :: 0 <= n <= |history| ==> Truth(longer, n) == Truth(history, n)
  {
    forall n | 0 <= n <= |history| ensures Truth(longer, n) == Truth(history, n) {
      assert longer[..n] == history[..n];
    }
  }

  lemma OtherKept(c: Config, s: State, t: State, id: TaskId, o: TaskId, task: Task)
    requires Grows(c, s, t, id) && o != id && TaskOk(c, s, o, task)
    requires s.boundary <= |s.history|
    ensures TaskOk(c, t, o, task)
  {
    TruthGrows(s.history, t.history);
    if Writing(task) && c.oneStore {
      assert t.history == s.history;
    }
  }

  lemma StepKept(c: Config, s: State, t: State, id: TaskId, task: Task)
    requires Inv(c, s) && Grows(c, s, t, id) && Core(c, t.history, t.boundary, t.log, t.cache, t.reverts)
    requires t.tasks == s.tasks[id := task] && TaskOk(c, t, id, task)
    ensures Inv(c, t)
  {
    forall o | o in t.tasks ensures TaskOk(c, t, o, t.tasks[o]) {
      if o != id {
        OtherKept(c, s, t, id, o, s.tasks[o]);
      }
    }
  }

  /** Steps that touch nothing but the task, and locks nobody else holds. */
  lemma QuietKept(c: Config, s: State, t: State, id: TaskId, task: Task)
    requires Inv(c, s) && TaskOk(c, t, id, task)
    requires t == s.(tasks := s.tasks[id := task], lock := t.lock, compactor := t.compactor)
    requires t.lock == s.lock || (t.lock == None && s.lock == Some(id)) || (t.lock == Some(id) && s.lock == None)
    requires t.compactor == s.compactor || (t.compactor == None && s.compactor == Some(id)) || (t.compactor == Some(id) &&
             s.compactor == None)
    ensures Inv(c, t)
  {
    StepKept(c, s, t, id, task);
  }

  lemma EndKept(c: Config, s: State, id: TaskId, task: Task, pc: Pc)
    requires Inv(c, s) && id in s.tasks && (pc.Failed? || pc.Finished?)
    ensures Inv(c, Ended(s, id, task, pc))
  {
    QuietKept(c, s, Ended(s, id, task, pc), id, task.(pc := pc));
  }

  /** A task that starts may take a free lock, and asks for what its job names. */
  lemma StartsOk(c: Config, s: State, id: TaskId, task: Task)
    requires TaskOk(c, s, id, task) && task.pc.Idle?
    ensures var t := Start(c, s, id, task);
            t == s || (id in t.tasks && t.tasks[id].pc.Failed? && t == Ended(s, id, task, t.tasks[id].pc))
            || (&& id in t.tasks && TaskOk(c, t, id, t.tasks[id])
                && t == s.(tasks := s.tasks[id := t.tasks[id]], lock := t.lock, compactor := t.compactor)
                && (t.lock == s.lock || (t.lock == Some(id) && s.lock == None))
                && (t.compactor == s.compactor || (t.compactor == Some(id) && s.compactor == None)))
  {
    assert Truth(s.history, 0) == Ok(Null);
    hide Truth, Replay;
  }

  lemma StartKept(c: Config, s: State, id: TaskId, task: Task)
    requires Inv(c, s) && id in s.tasks && s.tasks[id] == task && task.pc.Idle?
    ensures Inv(c, Start(c, s, id, task))
  {
    hide Core, TaskOk, Start, Ended;
    assert TaskOk(c, s, id, task);
    StartsOk(c, s, id, task);
    var t := Start(c, s, id, task);
    if t != s {
      if t.tasks[id].pc.Failed? && t == Ended(s, id, task, t.tasks[id].pc) {
        EndKept(c, s, id, task, t.tasks[id].pc);
      } else {
        QuietKept(c, s, t, id, t.tasks[id]);
      }
    }
  }

  lemma ReadKept(c: Config, s: State, id: TaskId, task: Task)
    requires Inv(c, s) && id in s.tasks && s.tasks[id] == task && Reading(task.pc)
    ensures Inv(c, ReadStep(s, id, task))
  {
    var pc := AfterRead(s, task);
    assert TaskOk(c, s, id, task);
    if pc.Failed? {
      EndKept(c, s, id, task, pc);
    } else {
      var next := task.(pc := pc);
      AfterReadOk(c, s, id, task);
      var t := Moved(s, id, next);
      assert PcOk(t, next);
      assert SectionOk(s, task.job) == SectionOk(t, next.job);
      QuietKept(c, s, t, id, next);
    }
  }

  /** The heart of the read protocol: each of the reads may see a later log than the one before. */
  lemma AfterReadOk(c: Config, s: State, id: TaskId, task: Task)
    requires Holds(s.log, s.history, s.boundary) && CacheOk(s.cache, s.history) && TaskOk(c, s, id, task) && Reading(task.pc)
    ensures MovesTo(s, task, AfterRead(s, task))
  {
    hide Holds, CacheOk, Truth, Replay, UpTo, Read, AfterRead, MovesTo;
    HoldsNumbered(s.log, s.history, s.boundary);
    if task.pc.AskCache? {
      BaseIsTrue(s.cache, s.history, task.pc.at);
    } else if task.pc.AskRows? {
      RowsAnswer(s.log, s.history, s.boundary, task.pc.base, task.pc.from, task.pc.at);
    }
    AfterReadCases(s, task);
  }

  ghost predicate MovesTo(s: State, task: Task, pc: Pc) {
    pc.Failed? || (PcOk(s, task.(pc := pc)) && !pc.Idle? && !pc.Stored? && !pc.Swap? && !pc.NeedHead? && !pc.Finished?)
  }

  lemma AfterReadCases(s: State, task: Task)
    requires PcOk(s, task) && Reading(task.pc) && (task.pc.NeedHead? ==> AtHead(task.job))
    requires Head(s.log) == if s.history == [] then None else Some(|s.history|)
    requires s.boundary > 0 ==> Boundary(s.log) == Some(s.boundary)
    requires task.pc.AskCache? ==>
               var (from, base) := Base(s.cache, task.pc.at);
               1 <= from <= task.pc.at + 1 && Truth(s.history, from - 1) == Ok(base)
    requires task.pc.AskRows? ==>
               var answer := Replay(task.pc.base, UpTo(Read(s.log, task.pc.from, Monus(task.pc.at + 1, task.pc.from)),
                   task.pc.at));
               Truth(s.history, task.pc.at) == answer || task.pc.at < s.boundary
    ensures MovesTo(s, task, AfterRead(s, task))
  {
    var next := task.(pc := AfterRead(s, task));
    assert AtHead(next.job) == AtHead(task.job);
  }

  lemma RowsAnswer(log: seq<Event>, history: seq<Event>, boundary: nat, base: Json, from: nat, at: nat)
    requires Holds(log, history, boundary) && 1 <= from <= at <= |history| && Truth(history, from - 1) == Ok(base)
    ensures Truth(history, at) == Replay(base, UpTo(Read(log, from, Monus(at + 1, from)), at)) || at < boundary
  {
    if boundary <= at {
      ReadTail(log, history, boundary, base, from, at);
    }
  }

  // ---- appending -----------------------------------------------------------------

  lemma GatesGrow(c: Config, history: seq<Event>, event: Event)
    requires forall n :: 0 <= n < |history| ==> GatesSaw(c, history, n)
    requires c.gated ==>
               && Truth(history, |history|).Ok?
               && var state := Truth(history, |history|).value;
               && Apply(state, event.patch).Some?
               && c.gates(event.kind, event.patch, state, Apply(state, event.patch).value)
    ensures forall n :: 0 <= n < |history| + 1 ==> GatesSaw(c, history + [event], n)
  {
    var longer := history + [event];
    TruthGrows(history, longer);
    TruthStep(longer, |history|);
    forall n | 0 <= n < |longer| ensures GatesSaw(c, longer, n) {
      if n < |history| {
        assert GatesSaw(c, history, n) && longer[n] == history[n];
      }
    }
  }

  lemma AppendCore(c: Config, s: State, event: Event, restores: Option<nat>, state: Json)
    requires Core(c, s.history, s.boundary, s.log, s.cache, s.reverts)
    requires event.seqNo == |s.history| + 1 && Truth(s.history, |s.history|) == Ok(state)
    requires c.gated ==>
               Apply(state, event.patch).Some? && c.gates(event.kind, event.patch, state, Apply(state, event.patch).value)
    requires restores.Some? ==>
               && restores.value <= |s.history|
               && (restores.value < s.boundary ||
                   (Apply(state, event.patch).Some? && Truth(s.history, restores.value) == Ok(Apply(state, event.patch).value)))
    ensures var t := Appended(s, event, restores);
            Core(c, t.history, t.boundary, t.log, t.cache, t.reverts)
    ensures Apply(state, event.patch).Some? ==>
            Truth(s.history + [event], |s.history| + 1) == Ok(Apply(state, event.patch).value)
  {
    var t := Appended(s, event, restores);
    HoldsAppend(s.log, s.history, s.boundary, event);
    GatesGrow(c, s.history, event);
    TruthGrows(s.history, t.history);
    TruthStep(t.history, |s.history|);
    assert RevertsOk(t.history, t.boundary, t.reverts);
  }

  lemma HeadLength(s: State)
    requires Holds(s.log, s.history, s.boundary)
    ensures HeadOr0(s.log) == |s.history|
  {
    HoldsNumbered(s.log, s.history, s.boundary);
  }

  lemma WriteKept(c: Config, s: State, id: TaskId, task: Task, state: Json, fate: Fate, diff: Patch, time: int)
    requires Inv(c, s) && id in s.tasks && s.tasks[id] == task
    requires task.pc.Answered? && task.pc.answer == Ok(state) && task.job.Write?
    ensures Inv(c, UseAnswer(c, s, id, task, state, fate, diff, time))
  {
    match Refusal(c, s.log, task.job.mode, task.job.rec, state, fate) {
      case Some(error) => EndKept(c, s, id, task, Failed(error));
      case None => AppendKept(c, s, id, task, state, fate, time);
    }
  }

  /** When nothing stops an append, the state the gates were shown is the head state. */
  lemma AppendSound(c: Config, s: State, id: TaskId, task: Task, state: Json, fate: Fate)
    requires Holds(s.log, s.history, s.boundary) && TaskOk(c, s, id, task)
    requires task.pc.Answered? && task.pc.answer == Ok(state) && task.job.Write?
    requires Refusal(c, s.log, task.job.mode, task.job.rec, state, fate) == None
    ensures HeadOr0(s.log) == task.pc.at == |s.history| && Truth(s.history, |s.history|) == Ok(state)
  {
    HeadLength(s);
  }

  lemma AppendKept(c: Config, s: State, id: TaskId, task: Task, state: Json, fate: Fate, time: int)
    requires Inv(c, s) && id in s.tasks && s.tasks[id] == task
    requires task.pc.Answered? && task.pc.answer == Ok(state) && task.job.Write?
    requires Refusal(c, s.log, task.job.mode, task.job.rec, state, fate) == None
    ensures Inv(c, AppendStep(s, id, task, state, fate, time))
  {
    assert TaskOk(c, s, id, task);
    AppendOk(c, s, id, task, state, fate, time);
    var t := AppendStep(s, id, task, state, fate, time);
    StepKept(c, s, t, id, t.tasks[id]);
  }

  lemma AppendOk(c: Config, s: State, id: TaskId, task: Task, state: Json, fate: Fate, time: int)
    requires Core(c, s.history, s.boundary, s.log, s.cache, s.reverts) && id in s.tasks && TaskOk(c, s, id, task)
    requires task.pc.Answered? && task.pc.answer == Ok(state) && task.job.Write?
    requires Refusal(c, s.log, task.job.mode, task.job.rec, state, fate) == None
    ensures var t := AppendStep(s, id, task, state, fate, time);
            && Grows(c, s, t, id) && Core(c, t.history, t.boundary, t.log, t.cache, t.reverts)
            && id in t.tasks && t.tasks == s.tasks[id := t.tasks[id]] && TaskOk(c, t, id, t.tasks[id])
  {
    hide CacheOk, GatesSaw, RevertsOk, Replay;
    AppendSound(c, s, id, task, state, fate);
    var Write(mode, rec, restores) := task.job;
    var event := Event(|s.history| + 1, rec.kind, rec.patch, rec.meta, time);
    assert SectionOk(s, task.job);
    AppendCore(c, s, event, restores, state);
    var t := AppendStep(s, id, task, state, fate, time);
    WriteEnds(c, s, Appended(s, event, restores), t, id, task, Apply(state, rec.patch));
  }

  lemma WriteEnds(c: Config, s: State, grown: State, t: State, id: TaskId, task: Task, next: Option<Json>)
    requires TaskOk(c, s, id, task) && Writing(task) && task.job.Write? && id in s.tasks
    requires s.boundary <= |s.history|
    requires grown == s.(history := grown.history, log := grown.log, reverts := grown.reverts)
    requires s.history < grown.history
    requires next.Some? ==> Truth(grown.history, |grown.history|) == Ok(next.value)
    requires t == Ended(grown, id, task, Failed(BackendFailed))
             || t == Moved(grown, id, task.(pc := Stored(|grown.history|, next)))
    ensures Grows(c, s, t, id) && id in t.tasks && t.tasks == s.tasks[id := t.tasks[id]] && TaskOk(c, t, id, t.tasks[id])
  {
  }

  lemma CacheKept(c: Config, s: State, t: State)
    requires Inv(c, s) && t == s.(cache := t.cache) && CacheOk(t.cache, s.history)
    ensures Inv(c, t)
  {
    forall o | o in t.tasks ensures TaskOk(c, t, o, t.tasks[o]) {
      CacheBlind(c, s, t, o, s.tasks[o]);
    }
  }

  lemma CacheBlind(c: Config, s: State, t: State, id: TaskId, task: Task)
    requires t == s.(cache := t.cache) && TaskOk(c, s, id, task)
    ensures TaskOk(c, t, id, task)
  {
  }

  lemma StoredKept(c: Config, s: State, id: TaskId, task: Task, at: nat, next: Option<Json>, fate: Fate)
    requires Inv(c, s) && id in s.tasks && s.tasks[id] == task && task.pc == Stored(at, next)
    ensures Inv(c, StoredStep(c, s, id, task, at, next, fate))
  {
    var t := StoredStep(c, s, id, task, at, next, fate);
    if c.stride == 0 || at % c.stride != 0 || next.None? || fate.Fails? {
      EndKept(c, s, id, task, t.tasks[id].pc);
    } else {
      assert TaskOk(c, s, id, task);
      var mid := s.(cache := s.cache[at := next.value]);
      CacheKept(c, s, mid);
      EndKept(c, mid, id, task, t.tasks[id].pc);
    }
  }

  // ---- reverting and compacting -----------------------------------------------------

  lemma RevertKept(c: Config, s: State, id: TaskId, task: Task, state: Json, fate: Fate, diff: Patch, time: int)
    requires Inv(c, s) && id in s.tasks && s.tasks[id] == task
    requires task.pc.Answered? && task.pc.answer == Ok(state) && task.job.Revert?
    ensures Inv(c, UseAnswer(c, s, id, task, state, fate, diff, time))
  {
    var t := UseAnswer(c, s, id, task, state, fate, diff, time);
    assert TaskOk(c, s, id, task);
    if t != s {
      QuietKept(c, s, t, id, t.tasks[id]);
    }
  }

  lemma CompactedHolds(s: State, at: nat, state: Json, time: int)
    requires Holds(s.log, s.history, s.boundary)
    requires 1 <= at <= |s.history| && s.boundary <= at && Truth(s.history, at) == Ok(state)
    requires time == s.history[at - 1].at
    ensures Holds(Compacted(s, at, state, time).log, s.history, at)
  {
    hide Truth, Replay, Holds;
    RowsAfter(s.log, s.history, s.boundary, at);
  }

  lemma SwapKept(c: Config, s: State, id: TaskId, task: Task, fate: Fate, diff: Patch, time: int)
    requires Inv(c, s) && id in s.tasks && s.tasks[id] == task && task.pc.Swap?
    ensures Inv(c, GoStep(c, s, id, task, fate, diff, time))
  {
    hide GatesSaw, Replay;
    var t := GoStep(c, s, id, task, fate, diff, time);
    assert TaskOk(c, s, id, task);
    if fate.Fails? {
      EndKept(c, s, id, task, t.tasks[id].pc);
    } else {
      CompactedHolds(s, task.pc.at, task.pc.state, task.pc.time);
      StepKept(c, s, t, id, t.tasks[id]);
    }
  }

  /** The anchor row read before a compaction carries the original event's time. */
  lemma CompactReadKept(c: Config, s: State, id: TaskId, task: Task, state: Json, fate: Fate, diff: Patch, time: int)
    requires Inv(c, s) && id in s.tasks && s.tasks[id] == task
    requires task.pc.Answered? && task.pc.answer == Ok(state) && task.job.Compact?
    ensures Inv(c, UseAnswer(c, s, id, task, state, fate, diff, time))
  {
    hide CacheOk, GatesSaw, RevertsOk, Replay;
    var t := UseAnswer(c, s, id, task, state, fate, diff, time);
    assert TaskOk(c, s, id, task);
    if t.tasks[id].pc.Failed? {
      EndKept(c, s, id, task, t.tasks[id].pc);
    } else {
      AnchorTime(s.log, s.history, s.boundary, task.pc.at);
      QuietKept(c, s, t, id, t.tasks[id]);
    }
  }

  // ---- every run ------------------------------------------------------------------------

  lemma GoKept(c: Config, s: State, id: TaskId, task: Task, fate: Fate, diff: Patch, time: int)
    requires Inv(c, s) && id in s.tasks && s.tasks[id] == task
    ensures Inv(c, GoStep(c, s, id, task, fate, diff, time))
  {
    match task.pc {
      case Idle => StartKept(c, s, id, task);
      case Answered(at, answer) =>
        if answer.Err? {
          EndKept(c, s, id, task, Failed(answer.error));
        } else {
          match task.job {
            case Get(_) =>
            case Write(_, _, _) => WriteKept(c, s, id, task, answer.value, fate, diff, time);
            case Revert(_, _) => RevertKept(c, s, id, task, answer.value, fate, diff, time);
            case Compact(_) => CompactReadKept(c, s, id, task, answer.value, fate, diff, time);
          }
        }
      case Stored(at, next) => StoredKept(c, s, id, task, at, next, fate);
      case Swap(_, _, _) => SwapKept(c, s, id, task, fate, diff, time);
      case Failed(_) =>
      case Finished =>
      case _ =>
        if fate.Works? {
          ReadKept(c, s, id, task);
        } else {
          EndKept(c, s, id, task, Failed(BackendFailed));
        }
    }
  }

  lemma SpawnKept(c: Config, s: State, id: TaskId, job: Job)
    requires Inv(c, s) && id !in s.tasks && Allowed(c, job)
    ensures Inv(c, s.(tasks := s.tasks[id := Task(job, Idle)]))
  {
    QuietKept(c, s, s.(tasks := s.tasks[id := Task(job, Idle)]), id, Task(job, Idle));
  }

  lemma StepInv(c: Config, s: State, a: Action)
    requires Inv(c, s)
    ensures Inv(c, Step(c, s, a))
  {
    match a {
      case Spawn(id, job) => if id !in s.tasks && Allowed(c, job) { SpawnKept(c, s, id, job); }
      case Go(id, fate, diff, time) => if id in s.tasks { GoKept(c, s, id, s.tasks[id], fate, diff, time); }
      case Evict(kept) => CacheKept(c, s, Step(c, s, a));
      case Crash =>
    }
  }

  lemma {:induction false} RunInv(c: Config, actions: seq<Action>)
    ensures Inv(c, Run(c, actions))
    decreases |actions|
  {
    if actions != [] {
      var last := |actions| - 1;
      RunInv(c, actions[..last]);
      StepInv(c, Run(c, actions[..last]), actions[last]);
    }
  }

  // ---- what it means --------------------------------------------------------------------

  /**
   * Event `n + 1` of any run was accepted by the gates on exactly the replay of
   * events 1..n and the replay of events 1..n+1, however the writers interleave.
   */
  lemma GatesSawWhatWasCommitted(c: Config, actions: seq<Action>, n: nat)
    requires c.gated && n < |Run(c, actions).history|
    ensures var h := Run(c, actions).history;
            && h[n].seqNo == n + 1
            && Truth(h, n).Ok? && Apply(Truth(h, n).value, h[n].patch).Some?
            && Truth(h, n + 1) == Ok(Apply(Truth(h, n).value, h[n].patch).value)
            && c.gates(h[n].kind, h[n].patch, Truth(h, n).value, Truth(h, n + 1).value)
  {
    RunInv(c, actions);
    var s := Run(c, actions);
    assert GatesSaw(c, s.history, n);
    TruthStep(s.history, n);
  }

  /** So a postcondition the gates demand holds at every coordinate, and no log prefix fails to replay. */
  lemma PostconditionAlwaysHolds(c: Config, actions: seq<Action>, post: Json -> bool, n: nat)
    requires c.gated && 1 <= n <= |Run(c, actions).history|
    requires forall kind, patch, current, next :: c.gates(kind, patch, current, next) ==> post(next)
    ensures Truth(Run(c, actions).history, n).Ok? && post(Truth(Run(c, actions).history, n).value)
  {
    GatesSawWhatWasCommitted(c, actions, n - 1);
  }

  /** A finished read is right, whatever was appended, cached or compacted between its four steps. */
  lemma FinishedReadIsRight(c: Config, actions: seq<Action>, id: TaskId)
    requires id in Run(c, actions).tasks
    requires Run(c, actions).tasks[id].job.Get? && Run(c, actions).tasks[id].pc.Answered?
    ensures var s := Run(c, actions);
            var at := s.tasks[id].job.at;
            at <= |s.history| && (s.boundary <= at ==> s.tasks[id].pc.answer == Truth(s.history, at))
  {
    RunInv(c, actions);
    assert TaskOk(c, Run(c, actions), id, Run(c, actions).tasks[id]);
  }

  /**
   * The other side: a read overtaken by a compaction of its own coordinate
   * answers, without an error, with the state its base was taken at. It is
   * right if and only if that is the state at its own coordinate.
   */
  lemma OvertakenReadIsStale(c: Config, actions: seq<Action>, id: TaskId)
    requires id in Run(c, actions).tasks && Run(c, actions).tasks[id].pc.AskRows?
    requires Run(c, actions).tasks[id].pc.at < Run(c, actions).boundary
    ensures var s := Run(c, actions);
            var AskRows(at, from, _) := s.tasks[id].pc;
            && 1 <= from <= at <= |s.history|
            && AfterRead(s, s.tasks[id]) == Answered(at, Truth(s.history, from - 1))
            && (AfterRead(s, s.tasks[id]).answer == Truth(s.history, at) <==>
                 Truth(s.history, from - 1) == Truth(s.history, at))
  {
    RunInv(c, actions);
    var s := Run(c, actions);
    assert TaskOk(c, s, id, s.tasks[id]);
    var AskRows(at, from, base) := s.tasks[id].pc;
    ReadTailBelow(s.log, s.history, s.boundary, base, from, at);
  }

  /** A read that runs undisturbed in any reachable state, against whatever the cache holds then. */
  lemma ReachableStateAt(c: Config, actions: seq<Action>, at: nat)
    ensures var s := Run(c, actions);
            StateAt([], s.log, s.cache, at) == Answer(s.log, s.history, at)
  {
    RunInv(c, actions);
    var s := Run(c, actions);
    NoChain(s.history);
    StateAtIsTruth([], s.log, s.cache, s.history, s.boundary, at);
  }

  lemma StepGrows(c: Config, s: State, a: Action)
    requires Inv(c, s)
    ensures s.history <= Step(c, s, a).history && s.boundary <= Step(c, s, a).boundary
  {
    if a.Go? && a.id in s.tasks {
      var task := s.tasks[a.id];
      assert TaskOk(c, s, a.id, task);
      assert task.pc.Swap? ==> s.boundary <= task.pc.at;
      GoGrows(c, s, a.id, task, a.fate, a.diff, a.time);
    }
  }

  lemma GoGrows(c: Config, s: State, id: TaskId, task: Task, fate: Fate, diff: Patch, time: int)
    requires task.pc.Swap? ==> s.boundary <= task.pc.at
    ensures var t := GoStep(c, s, id, task, fate, diff, time);
            s.history <= t.history && s.boundary <= t.boundary
  {
    if task.pc.Answered? && task.pc.answer.Ok? {
      UseGrows(c, s, id, task, task.pc.answer.value, fate, diff, time);
    } else if task.pc.Idle? {
      assert Start(c, s, id, task).history == s.history && Start(c, s, id, task).boundary == s.boundary;
    } else if Reading(task.pc) {
      assert ReadStep(s, id, task).history == s.history && ReadStep(s, id, task).boundary == s.boundary;
    } else if task.pc.Stored? {
      var Stored(at, next) := task.pc;
      assert StoredStep(c, s, id, task, at, next, fate).history == s.history;
    }
  }

  lemma UseGrows(c: Config, s: State, id: TaskId, task: Task, state: Json, fate: Fate, diff: Patch, time: int)
    requires task.pc.Answered?
    ensures var t := UseAnswer(c, s, id, task, state, fate, diff, time);
            s.history <= t.history && s.boundary == t.boundary
  {
  }

  lemma {:induction false} RunGrows(c: Config, actions: seq<Action>, more: seq<Action>)
    ensures Run(c, actions).history <= Run(c, actions + more).history
    ensures Run(c, actions).boundary <= Run(c, actions + more).boundary
    decreases |more|
  {
    if more == [] {
      assert actions + more == actions;
    } else {
      var last := |more| - 1;
      RunGrows(c, actions, more[..last]);
      RunInv(c, actions + more[..last]);
      assert (actions + more)[..|actions + more| - 1] == actions + more[..last];
      StepGrows(c, Run(c, actions + more[..last]), more[last]);
    }
  }

  /**
   * History is immutable: what a coordinate answers now it answers forever,
   * until a compaction above it makes it answer `SeqCompacted`; and the
   * boundary never comes back down.
   */
  lemma AnswersNeverChange(c: Config, actions: seq<Action>, more: seq<Action>, at: nat)
    requires 1 <= at <= |Run(c, actions).history| && Run(c, actions).boundary <= at
    ensures var s, t := Run(c, actions), Run(c, actions + more);
            && s.boundary <= t.boundary
            && StateAt([], t.log, t.cache, at) ==
               if at < t.boundary then Err(SeqCompacted(t.boundary, at)) else StateAt([], s.log, s.cache, at)
  {
    var s, t := Run(c, actions), Run(c, actions + more);
    RunGrows(c, actions, more);
    RunInv(c, actions);
    RunInv(c, actions + more);
    TruthGrows(s.history, t.history);
    HoldsNumbered(s.log, s.history, s.boundary);
    HoldsNumbered(t.log, t.history, t.boundary);
    ReachableStateAt(c, actions, at);
    ReachableStateAt(c, actions + more, at);
  }

  /** Every cached state in every reachable state is the replay to its coordinate. */
  lemma CacheNeverLies(c: Config, actions: seq<Action>, at: nat)
    requires at in Run(c, actions).cache
    ensures var s := Run(c, actions);
            1 <= at <= |s.history| && Truth(s.history, at) == Ok(s.cache[at])
  {
    RunInv(c, actions);
  }

  /** The event a revert appended restores the state at its target, unless that was compacted away. */
  lemma RevertRestores(c: Config, actions: seq<Action>, at: nat)
    requires at in Run(c, actions).reverts && Run(c, actions).boundary <= Run(c, actions).reverts[at]
    ensures var s := Run(c, actions);
            && 1 <= at <= |s.history| && s.reverts[at] < at
            && Truth(s.history, at) == Truth(s.history, s.reverts[at])
  {
    RunInv(c, actions);
  }
}
