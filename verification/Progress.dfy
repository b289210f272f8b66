/**
 * What a task of `SharedLog` gets done. The theorems there say that nothing
 * wrong happens in any interleaving; these say that something does: one step
 * at a time for a write that has its answer, and to the end for any task left
 * alone from a reachable state.
 */
module Progress {
  import opened Wrappers
  import opened Json
  import opened Events
  import opened Upcasting
  import opened Reads
  import opened SharedLog

  // ---- one step: the gates and the append ------------------------------------------------

  /**
   * A write that has its answer, on a step that works: refused with `PatchRejected`
   * if and only if there are gates and its patch does not apply, with
   * `SchemaRejected` if and only if the gate rejects the states before and after
   * it, with `HeadConflict` if and only if neither is so and the head is not the
   * expected one; and otherwise the history is exactly one event longer.
   */
  lemma WriteStep(c: Config, actions: seq<Action>, id: TaskId, diff: Patch, time: int)
    requires id in Run(c, actions).tasks && Run(c, actions).tasks[id].job.Write?
    requires Run(c, actions).tasks[id].pc.Answered? && Run(c, actions).tasks[id].pc.answer.Ok?
    ensures var s := Run(c, actions);
            var t := Step(c, s, Go(id, Works, diff, time));
            var Write(mode, rec, _) := s.tasks[id].job;
            var doc := s.tasks[id].pc.answer.value;
            var next, n := Apply(doc, rec.patch), |s.history|;
            var event := Event(n + 1, rec.kind, rec.patch, rec.meta, time);
            var unfit := c.gated && next.None?;
            var rejected := c.gated && next.Some? && !c.gates(rec.kind, rec.patch, doc, next.value);
            var late := !unfit && !rejected && mode.IfHead? && mode.expected != n;
            && id in t.tasks
            && (t.tasks[id].pc == Failed(PatchRejected) <==> unfit)
            && (t.tasks[id].pc == Failed(SchemaRejected) <==> rejected)
            && (mode.IfHead? ==> (t.tasks[id].pc == Failed(HeadConflict(mode.expected, Head(s.log))) <==> late))
            && (unfit || rejected || late ==> t.history == s.history && t.log == s.log)
            && (!unfit && !rejected && !late ==>
                  && t.history == s.history + [event] && t.log == s.log + [event]
                  && t.tasks[id].pc == Stored(n + 1, next) && t.lock == s.lock)
  {
    hide Run, Apply;
    HeadIsLength(c, actions);
  }

  lemma HeadIsLength(c: Config, actions: seq<Action>)
    ensures HeadOr0(Run(c, actions).log) == |Run(c, actions).history|
  {
    hide Truth, Replay, Run;
    RunInv(c, actions);
    var s := Run(c, actions);
    HoldsNumbered(s.log, s.history, s.boundary);
  }

  /** A backend that fails leaves the log alone; one whose answer is lost has appended, and the caller is told it failed. */
  lemma WriteStepFails(c: Config, actions: seq<Action>, id: TaskId, fate: Fate, diff: Patch, time: int)
    requires id in Run(c, actions).tasks && Run(c, actions).tasks[id].job.Write? && !fate.Works?
    requires Run(c, actions).tasks[id].pc.Answered? && Run(c, actions).tasks[id].pc.answer.Ok?
    ensures var s := Run(c, actions);
            var t := Step(c, s, Go(id, fate, diff, time));
            var w := Step(c, s, Go(id, Works, diff, time));
            && id in t.tasks && t.tasks[id].pc.Failed?
            && (fate.Fails? ==> t.history == s.history && t.log == s.log)
            && (fate.Unacknowledged? ==> t.history == w.history && t.log == w.log)
  {
    hide Truth, Replay, Apply;
  }

  /** A read that fails ends its task, which holds nothing any more; the log is as it was. */
  lemma ReadStepFails(c: Config, actions: seq<Action>, id: TaskId, fate: Fate, diff: Patch, time: int)
    requires id in Run(c, actions).tasks && Reading(Run(c, actions).tasks[id].pc) && !fate.Works?
    ensures var s := Run(c, actions);
            var t := Step(c, s, Go(id, fate, diff, time));
            && t.history == s.history && t.log == s.log && t.cache == s.cache && t.boundary == s.boundary
            && id in t.tasks && t.tasks[id].pc == Failed(BackendFailed) && t.lock != Some(id) && t.compactor != Some(id)
            && forall o :: o != id ==> (s.lock == Some(o) <==> t.lock == Some(o))
  {
    hide Run, AfterRead;
  }

  /**
   * The last step of a write and of a compaction: nothing is done if the backend
   * fails; if only its answer is lost, the work is done and the caller told it failed.
   */
  lemma LastSteps(c: Config, s: State, id: TaskId, diff: Patch, time: int)
    requires id in s.tasks && (s.tasks[id].pc.Swap? || s.tasks[id].pc.Stored?)
    ensures var works, lost := Step(c, s, Go(id, Works, diff, time)), Step(c, s, Go(id, Unacknowledged, diff, time));
            var fails := Step(c, s, Go(id, Fails, diff, time));
            && fails.log == s.log && fails.cache == s.cache && fails.boundary == s.boundary
            && lost.log == works.log && lost.cache == works.cache && lost.boundary == works.boundary
            && lost.lock == works.lock == fails.lock && lost.lock != Some(id)
            && lost.compactor == works.compactor == fails.compactor && lost.compactor != Some(id)
            && id in lost.tasks && id in fails.tasks && id in works.tasks
            && (s.tasks[id].pc.Swap? ==>
                  && lost.tasks[id].pc.Failed? && fails.tasks[id].pc.Failed? && works.tasks[id].pc == Finished
                  && works.boundary == s.tasks[id].pc.at)
  {
  }

  /** Pruning leaves exactly the cache entries kept, and the log alone. */
  lemma EvictKeeps(c: Config, actions: seq<Action>, kept: set<nat>, at: nat)
    ensures var s, t := Run(c, actions), Run(c, actions + [Evict(kept)]);
            && t == s.(cache := t.cache) && (at in t.cache <==> at in s.cache && at in kept)
            && (at in t.cache ==> t.cache[at] == s.cache[at])
  {
    RunsOn(c, actions, Evict(kept));
  }

  /** A crash forgets tasks and locks, and nothing that is stored; the next process may write at once. */
  lemma CrashFrees(c: Config, actions: seq<Action>)
    ensures var s, t := Run(c, actions), Run(c, actions + [Crash]);
            && t.tasks == map[] && t.lock == None && t.compactor == None
            && t.history == s.history && t.log == s.log && t.cache == s.cache && t.boundary == s.boundary
  {
    RunsOn(c, actions, Crash);
  }

  // ---- a task alone -----------------------------------------------------------------------

  /** `n` steps of one task, all of which work. */
  function Alone(c: Config, s: State, id: TaskId, diff: Patch, time: int, n: nat): State {
    if n == 0 then s else Step(c, Alone(c, s, id, diff, time, n - 1), Go(id, Works, diff, time))
  }

  lemma {:induction false} AloneAdd(c: Config, s: State, id: TaskId, diff: Patch, time: int, m: nat, n: nat)
    ensures Alone(c, Alone(c, s, id, diff, time, m), id, diff, time, n) == Alone(c, s, id, diff, time, m + n)
    decreases n
  {
    hide Step;
    if n > 0 {
      AloneAdd(c, s, id, diff, time, m, n - 1);
    }
  }

  function Gos(id: TaskId, diff: Patch, time: int, n: nat): seq<Action> {
    if n == 0 then [] else Gos(id, diff, time, n - 1) + [Go(id, Works, diff, time)]
  }

  /** Such steps are part of a run like any others. */
  lemma {:induction false} AloneIsRun(c: Config, before: seq<Action>, id: TaskId, diff: Patch, time: int, n: nat)
    ensures Run(c, before + Gos(id, diff, time, n)) == Alone(c, Run(c, before), id, diff, time, n)
    decreases n
  {
    hide Step;
    if n == 0 {
      assert before + [] == before;
    } else {
      AloneIsRun(c, before, id, diff, time, n - 1);
      var all := before + Gos(id, diff, time, n);
      assert all[..|all| - 1] == before + Gos(id, diff, time, n - 1);
    }
  }

  /** How many reads are left at most. */
  function Left(pc: Pc): nat {
    match pc case AskHead(_) => 4 case AskBoundary(_) => 3 case AskCache(_) => 2 case AskRows(_, _, _) => 1 case _ => 0
  }

  /** What the reads still to come make of a task, if nothing changes meanwhile. */
  function AfterReads(s: State, task: Task): Pc
    requires Left(task.pc) > 0
    decreases Left(task.pc)
  {
    var pc := AfterRead(s, task);
    if Left(pc) > 0 then AfterReads(s, task.(pc := pc)) else pc
  }

  /** The task where its reads have ended. */
  function Settles(s: State, id: TaskId, task: Task, pc: Pc): State {
    if pc.Failed? then Ended(s, id, task, pc) else Moved(s, id, task.(pc := pc))
  }

  lemma ReadGo(c: Config, s: State, id: TaskId, diff: Patch, time: int)
    requires id in s.tasks && Left(s.tasks[id].pc) > 0
    ensures Step(c, s, Go(id, Works, diff, time)) == Settles(s, id, s.tasks[id], AfterRead(s, s.tasks[id]))
    ensures var pc := AfterRead(s, s.tasks[id]);
            Left(pc) < Left(s.tasks[id].pc) && (Left(pc) > 0 || pc.Answered? || pc.Failed?)
  {
    hide Replay, Read, UpTo, Base;
  }

  lemma SettlesTwice(s: State, id: TaskId, task: Task, mid: Pc, pc: Pc)
    requires !mid.Failed?
    ensures Settles(Moved(s, id, task.(pc := mid)), id, task.(pc := mid), pc) == Settles(s, id, task, pc)
  {
  }

  /** All the reads left, undisturbed. */
  lemma {:induction false} ReadsAlone(c: Config, s: State, id: TaskId, diff: Patch, time: int) returns (n: nat)
    requires id in s.tasks && Left(s.tasks[id].pc) > 0
    ensures Alone(c, s, id, diff, time, n) == Settles(s, id, s.tasks[id], AfterReads(s, s.tasks[id]))
    decreases Left(s.tasks[id].pc)
  {
    hide Step, AfterRead, Settles;
    var task, pc := s.tasks[id], AfterRead(s, s.tasks[id]);
    ReadGo(c, s, id, diff, time);
    assert Alone(c, s, id, diff, time, 0) == s;
    assert Alone(c, s, id, diff, time, 1) == Settles(s, id, task, pc);
    n := 1;
    if Left(pc) > 0 {
      var s1 := Moved(s, id, task.(pc := pc));
      assert Settles(s, id, task, pc) == s1 by { OnlyMoves(s, id, task, pc); }
      SameAfterReads(s, s1, task.(pc := pc));
      n := ReadsAlone(c, s1, id, diff, time);
      AloneAdd(c, s, id, diff, time, 1, n);
      SettlesTwice(s, id, task, pc, AfterReads(s, task));
      n := 1 + n;
    }
  }

  lemma OnlyMoves(s: State, id: TaskId, task: Task, pc: Pc)
    requires !pc.Failed?
    ensures Settles(s, id, task, pc) == Moved(s, id, task.(pc := pc))
  {
  }

  /** Reads look at the log and the cache only. */
  lemma {:induction false} SameAfterReads(s: State, t: State, task: Task)
    requires Left(task.pc) > 0 && s.log == t.log && s.cache == t.cache
    ensures AfterReads(s, task) == AfterReads(t, task)
    decreases Left(task.pc)
  {
    hide Replay, Read, UpTo, Base;
    var pc := AfterRead(s, task);
    assert pc == AfterRead(t, task);
    if Left(pc) > 0 { SameAfterReads(s, t, task.(pc := pc)); }
  }

  /** The four reads together are `state_at`. */
  lemma FourReads(s: State, task: Task, at: nat)
    requires task.pc == AskHead(at)
    ensures var pc, answer := AfterReads(s, task), StateAt([], s.log, s.cache, at);
            if answer.Ok? || answer.error.PatchFailed? then pc == Answered(at, answer)
            else pc == Failed(if answer.error.SeqCompacted? then answer.error else Refused(task, answer.error))
  {
    hide Replay, Refused, Read, UpTo;
    var s0 := AfterRead(s, task);
    if s0.AskBoundary? {
      var s1 := AfterRead(s, task.(pc := s0));
      if s1.AskCache? {
        var s2 := AfterRead(s, task.(pc := s1));
        if s2.AskRows? {
          RowsRead(s.log, s2.base, s2.from, at);
          var s3 := AfterRead(s, task.(pc := s2));
          assert AfterReads(s, task.(pc := s2)) == s3;
          assert AfterReads(s, task.(pc := s1)) == s3;
          assert AfterReads(s, task.(pc := s0)) == s3;
        } else {
          assert AfterReads(s, task.(pc := s1)) == s2;
          assert AfterReads(s, task.(pc := s0)) == s2;
        }
      }
    }
  }

  lemma RowsRead(log: seq<Event>, base: Json, from: nat, at: nat)
    requires from <= at
    ensures UpcastAll([], Read(log, from, at - from + 1)) == Read(log, from, Monus(at + 1, from))
    ensures var r := Replay(base, UpTo(Read(log, from, Monus(at + 1, from)), at)); r.Err? ==> r.error.PatchFailed?
  {
    NoChain(Read(log, from, at - from + 1));
    OnlyPatchesFail(base, UpTo(Read(log, from, Monus(at + 1, from)), at));
  }

  lemma {:induction false} OnlyPatchesFail(base: Json, events: seq<Event>)
    ensures Replay(base, events).Err? ==> Replay(base, events).error.PatchFailed?
    decreases |events|
  {
    if events != [] {
      OnlyPatchesFail(base, events[..|events| - 1]);
    }
  }

  // ---- reads ------------------------------------------------------------------------------

  ghost predicate EndsAs(t: State, id: TaskId, at: nat, truth: Result<Json>) {
    id in t.tasks && t.tasks[id].pc == if truth.Ok? then Answered(at, truth) else Failed(truth.error)
  }

  /** A read left alone ends with what the history gives at its coordinate, or with its error. */
  lemma GetEnds(c: Config, actions: seq<Action>, id: TaskId, at: nat, diff: Patch, time: int)
    requires id !in Run(c, actions).tasks
    ensures var s := Run(c, actions);
            var truth := Answer(s.log, s.history, at);
            exists n :: var t := Run(c, actions + [Spawn(id, Get(at))] + Gos(id, diff, time, n));
              t.history == s.history && t.log == s.log && EndsAs(t, id, at, truth)
  {
    hide Run, Replay, Truth, StateAt, Answer, AfterReads, Step, Alone, Gos;
    var s, job := Run(c, actions), Get(at);
    ReachableStateAt(c, actions, at);
    AnswerErrors(s.log, s.history, at);
    var s1 := s.(tasks := s.tasks[id := Task(job, AskHead(at))]);
    Begins(c, actions, id, job, diff, time, s1);
    FourReads(s1, s1.tasks[id], at);
    var n := ReadsAlone(c, s1, id, diff, time);
    var t := Alone(c, s1, id, diff, time, n);
    if t.tasks[id].pc.Answered? && t.tasks[id].pc.answer.Err? {
      AnswerFails(c, s1, id, diff, time, n);
      n := n + 1;
    }
    Resumes(c, actions, id, job, diff, time, s1, n);
    var u := Run(c, actions + [Spawn(id, Get(at))] + Gos(id, diff, time, 1 + n));
    assert u == Alone(c, s1, id, diff, time, n);
    assert u.history == s.history && u.log == s.log && id in u.tasks;
    assert EndsAs(u, id, at, Answer(s.log, s.history, at));
  }

  /** A task whose read failed ends with the error. */
  lemma AnswerFails(c: Config, s: State, id: TaskId, diff: Patch, time: int, n: nat)
    requires var t := Alone(c, s, id, diff, time, n);
             id in t.tasks && t.tasks[id].pc.Answered? && t.tasks[id].pc.answer.Err?
    ensures var t := Alone(c, s, id, diff, time, n);
            Alone(c, s, id, diff, time, n + 1) == Ended(t, id, t.tasks[id], Failed(t.tasks[id].pc.answer.error))
  {
  }

  /** The first step of a task that was just spawned. */
  lemma Begins(c: Config, actions: seq<Action>, id: TaskId, job: Job, diff: Patch, time: int, s1: State)
    requires id !in Run(c, actions).tasks && Allowed(c, job)
    requires var s := Run(c, actions);
             s1 == Start(c, s.(tasks := s.tasks[id := Task(job, Idle)]), id, Task(job, Idle))
    ensures Alone(c, Run(c, actions + [Spawn(id, job)]), id, diff, time, 1) == s1
  {
    hide Start;
    var spawned := actions + [Spawn(id, job)];
    assert spawned[..|spawned| - 1] == actions;
    assert Alone(c, Run(c, spawned), id, diff, time, 0) == Run(c, spawned);
  }

  lemma Resumes(c: Config, actions: seq<Action>, id: TaskId, job: Job, diff: Patch, time: int, s1: State, n: nat)
    requires Alone(c, Run(c, actions + [Spawn(id, job)]), id, diff, time, 1) == s1
    ensures Run(c, actions + [Spawn(id, job)] + Gos(id, diff, time, 1 + n)) == Alone(c, s1, id, diff, time, n)
  {
    hide Run, Step;
    AloneAdd(c, Run(c, actions + [Spawn(id, job)]), id, diff, time, 1, n);
    AloneIsRun(c, actions + [Spawn(id, job)], id, diff, time, 1 + n);
  }

  lemma AnswerErrors(log: seq<Event>, history: seq<Event>, at: nat)
    ensures Answer(log, history, at).Err? ==>
              var e := Answer(log, history, at).error;
              e.UnknownStream? || e.SeqOutOfRange? || e.SeqCompacted? || e.PatchFailed?
  {
    if at <= |history| { OnlyPatchesFail(Null, history[..at]); }
  }

  // ---- writes -----------------------------------------------------------------------------

  lemma InvAnswers(c: Config, s: State, at: nat)
    requires Inv(c, s)
    ensures StateAt([], s.log, s.cache, at) == Answer(s.log, s.history, at)
    ensures Head(s.log) == if s.history == [] then None else Some(|s.history|)
    ensures Answer(s.log, s.history, |s.history|) ==
            if s.history == [] then Err(UnknownStream) else Truth(s.history, |s.history|)
  {
    hide Replay;
    NoChain(s.history);
    HoldsPlainly(s.log, s.history, s.boundary);
    StateAtIsTruth([], s.log, s.cache, s.history, s.boundary, at);
    HoldsNumbered(s.log, s.history, s.boundary);
  }

  /** A reachable coordinate is read. */
  lemma AtRead(c: Config, s: State, id: TaskId, diff: Patch, time: int, at: nat) returns (n: nat)
    requires Inv(c, s) && id in s.tasks && s.tasks[id].pc == AskHead(at) && Answer(s.log, s.history, at).Ok?
    ensures Alone(c, s, id, diff, time, n) == Moved(s, id, s.tasks[id].(pc := Answered(at, Answer(s.log, s.history, at))))
  {
    hide Inv, Answer, StateAt, Alone, AfterReads;
    InvAnswers(c, s, at);
    FourReads(s, s.tasks[id], at);
    n := ReadsAlone(c, s, id, diff, time);
  }

  /** The head state is read. */
  lemma HeadRead(c: Config, s: State, id: TaskId, diff: Patch, time: int) returns (n: nat)
    requires Inv(c, s) && id in s.tasks && s.tasks[id].pc.NeedHead? && Truth(s.history, |s.history|).Ok?
    ensures Alone(c, s, id, diff, time, n) ==
            Moved(s, id, s.tasks[id].(pc := Answered(|s.history|, Truth(s.history, |s.history|))))
  {
    hide Inv, Answer, StateAt, AfterReads, Alone, Truth;
    InvAnswers(c, s, |s.history|);
    AsksHead(c, s, id, diff, time);
    n := 1;
    if s.history == [] {
      assert Truth(s.history, 0) == Ok(Null) by { EmptyTruth(s.history); }
    } else {
      var s1 := Moved(s, id, s.tasks[id].(pc := AskHead(|s.history|)));
      FourReads(s1, s1.tasks[id], |s.history|);
      var m := ReadsAlone(c, s1, id, diff, time);
      AloneAdd(c, s, id, diff, time, 1, m);
      n := 1 + m;
    }
  }

  lemma EmptyTruth(history: seq<Event>)
    ensures Truth(history, 0) == Ok(Null)
  {
  }

  lemma AsksHead(c: Config, s: State, id: TaskId, diff: Patch, time: int)
    requires id in s.tasks && s.tasks[id].pc.NeedHead?
    ensures Alone(c, s, id, diff, time, 1) ==
            Moved(s, id, s.tasks[id].(pc := match Head(s.log) case None => Answered(0, Ok(Null)) case Some(h) => AskHead(h)))
  {
    assert Alone(c, s, id, diff, time, 0) == s;
  }

  /** The gates let this event pass on this state. */
  predicate Passes(c: Config, rec: NewEvent, doc: Json) {
    c.gated ==> Apply(doc, rec.patch).Some? && c.gates(rec.kind, rec.patch, doc, Apply(doc, rec.patch).value)
  }

  /** The write is refused: nothing but its task has changed, and what it held is free. */
  ghost predicate IsRefused(c: Config, s: State, t: State, id: TaskId, rec: NewEvent, doc: Json) {
    && t.history == s.history && t.log == s.log && t.cache == s.cache && t.lock == None && id in t.tasks
    && t.boundary == s.boundary
    && t.tasks[id].pc == Failed(if Apply(doc, rec.patch).None? then PatchRejected else SchemaRejected)
  }

  /** The write is done: one event longer, the state after it cached on the stride, and what it held is free. */
  ghost predicate IsDone(c: Config, s: State, t: State, id: TaskId, rec: NewEvent, restores: Option<nat>, doc: Json,
                         time: int)
  {
    var n, next := |s.history| + 1, Apply(doc, rec.patch);
    var event := Event(n, rec.kind, rec.patch, rec.meta, time);
    var hit := c.stride > 0 && n % c.stride == 0;
    && t.history == s.history + [event] && t.log == s.log + [event] && t.lock == None && id in t.tasks
    && t.boundary == s.boundary
    && t.tasks[id].pc == (if hit && next.None? then Failed(PatchFailed(n)) else Finished)
    && t.cache == (if hit && next.Some? then s.cache[n := next.value] else s.cache)
    && t.reverts == if restores.None? then s.reverts else s.reverts[n := restores.value]
  }

  /** Where a write left alone ends. */
  ghost predicate WriteOver(c: Config, s: State, t: State, id: TaskId, rec: NewEvent, restores: Option<nat>, doc: Json,
                            time: int)
  {
    if Passes(c, rec, doc) then IsDone(c, s, t, id, rec, restores, doc, time) else IsRefused(c, s, t, id, rec, doc)
  }

  /** From the answer to the end. */
  lemma WriteFromAnswer(c: Config, s: State, id: TaskId, diff: Patch, time: int, at: nat, doc: Json) returns (n: nat)
    requires id in s.tasks && s.tasks[id].job.Write? && s.tasks[id].pc == Answered(at, Ok(doc))
    requires HeadOr0(s.log) == |s.history| && (s.lock == None || s.lock == Some(id))
    requires s.tasks[id].job.mode.IfHead? ==> s.tasks[id].job.mode.expected == |s.history|
    ensures var Write(_, rec, restores) := s.tasks[id].job;
            var t := Alone(c, s, id, diff, time, n);
            WriteOver(c, s, t, id, rec, restores, doc, time)
  {
    hide Apply;
    var task := s.tasks[id];
    assert Alone(c, s, id, diff, time, 0) == s;
    var s1 := Alone(c, s, id, diff, time, 1);
    n := 1;
    if Passes(c, task.job.rec, doc) {
      n := 2;
      assert Alone(c, s, id, diff, time, 2) == Step(c, s1, Go(id, Works, diff, time));
      assert s1.tasks[id].pc == Stored(|s.history| + 1, Apply(doc, task.job.rec.patch));
    }
  }

  /** The state that a spawned write begins in. */
  function Begun(c: Config, s: State, id: TaskId, job: Job): State {
    Start(c, s.(tasks := s.tasks[id := Task(job, Idle)]), id, Task(job, Idle))
  }

  lemma BegunInv(c: Config, actions: seq<Action>, id: TaskId, job: Job)
    requires id !in Run(c, actions).tasks && Allowed(c, job)
    ensures Inv(c, Run(c, actions)) && Inv(c, Begun(c, Run(c, actions), id, job))
  {
    hide Inv, Start, Run;
    RunInv(c, actions);
    var s := Run(c, actions);
    var spawned := actions + [Spawn(id, job)];
    RunInv(c, spawned + [Go(id, Works, [], 0)]);
    assert spawned[..|spawned| - 1] == actions;
    assert Run(c, spawned) == s.(tasks := s.tasks[id := Task(job, Idle)]) by { RunsOn(c, actions, Spawn(id, job)); }
    RunsOn(c, spawned, Go(id, Works, [], 0));
  }

  lemma RunsOn(c: Config, actions: seq<Action>, a: Action)
    ensures Run(c, actions + [a]) == Step(c, Run(c, actions), a)
  {
    hide Step;
    assert (actions + [a])[..|actions|] == actions;
  }

  /** From the first read to the answer. */
  lemma WriteReads(c: Config, s: State, id: TaskId, diff: Patch, time: int) returns (n: nat)
    requires Inv(c, s) && id in s.tasks && s.tasks[id].job.Write? && Truth(s.history, |s.history|).Ok?
    requires var (pc, mode) := (s.tasks[id].pc, s.tasks[id].job.mode);
             || pc == NeedHead || (pc == AskHead(|s.history|) && s.history != [])
             || (s.history == [] && pc == Answered(0, Ok(Null)))
    ensures Alone(c, s, id, diff, time, n) ==
            Moved(s, id, s.tasks[id].(pc := Answered(|s.history|, Truth(s.history, |s.history|))))
  {
    hide Inv, Answer;
    InvAnswers(c, s, |s.history|);
    if s.tasks[id].pc == NeedHead {
      n := HeadRead(c, s, id, diff, time);
    } else if s.history == [] {
      n := 0;
      assert Truth(s.history, 0) == Ok(Null);
    } else {
      n := AtRead(c, s, id, diff, time, |s.history|);
    }
  }

  /** From the first read to the end. */
  lemma WriteFromReads(c: Config, s: State, id: TaskId, diff: Patch, time: int, doc: Json) returns (n: nat)
    requires Inv(c, s) && id in s.tasks && s.tasks[id].job.Write? && Truth(s.history, |s.history|) == Ok(doc)
    requires var (pc, mode) := (s.tasks[id].pc, s.tasks[id].job.mode);
             && (|| pc == NeedHead || (pc == AskHead(|s.history|) && s.history != [])
                 || (s.history == [] && pc == Answered(0, Ok(Null))))
             && (mode.IfHead? ==> mode.expected == |s.history|)
    requires s.lock == None || s.lock == Some(id)
    ensures var Write(_, rec, restores) := s.tasks[id].job;
            var t := Alone(c, s, id, diff, time, n);
            WriteOver(c, s, t, id, rec, restores, doc, time)
  {
    hide Inv, Alone, Truth, Apply;
    InvAnswers(c, s, |s.history|);
    var k := WriteReads(c, s, id, diff, time);
    var s1 := Alone(c, s, id, diff, time, k);
    var m := WriteFromAnswer(c, s1, id, diff, time, |s.history|, doc);
    AloneAdd(c, s, id, diff, time, k, m);
    n := k + m;
  }

  /**
   * A write left alone, whose lock is free and whose head is the expected one:
   * judged on the true head state, it is refused by the gates or ends with the
   * stream one event longer.
   */
  lemma WriteEnds(c: Config, actions: seq<Action>, id: TaskId, mode: Mode, rec: NewEvent, doc: Json, diff: Patch, time: int)
    requires var s := Run(c, actions);
             && id !in s.tasks && s.lock == None && Truth(s.history, |s.history|) == Ok(doc)
             && if mode.Plain? then c.oneStore else mode.expected == |s.history|
    ensures var s := Run(c, actions);
            exists n :: var t := Run(c, actions + [Spawn(id, Write(mode, rec, None))] + Gos(id, diff, time, n));
              WriteOver(c, s, t, id, rec, None, doc, time)
  {
    hide Run, Inv, Truth, Apply, Alone, Gos, WriteOver;
    var s, job := Run(c, actions), Write(mode, rec, None);
    var s1 := Begun(c, s, id, job);
    BegunInv(c, actions, id, job);
    Begins(c, actions, id, job, diff, time, s1);
    assert Truth(s1.history, |s1.history|) == Ok(doc);
    var n := WriteFromReads(c, s1, id, diff, time, doc);
    Resumes(c, actions, id, job, diff, time, s1, n);
    Later(c, s, s1, Alone(c, s1, id, diff, time, n), id, rec, None, doc, time);
    assert Run(c, actions + [Spawn(id, job)] + Gos(id, diff, time, 1 + n)) == Alone(c, s1, id, diff, time, n);
  }

  /** A conditional write ahead of the head, left alone, ends with the conflict, and nothing is written. */
  lemma WriteAheadEnds(c: Config, actions: seq<Action>, id: TaskId, expected: nat, rec: NewEvent, diff: Patch, time: int)
    requires var s := Run(c, actions); id !in s.tasks && (c.oneStore ==> s.lock == None) && expected > |s.history|
    ensures var s := Run(c, actions);
            var spawned := actions + [Spawn(id, Write(IfHead(expected), rec, None))];
            exists n :: IsLate(s, Run(c, spawned + Gos(id, diff, time, n)), id, expected)
  {
    hide Run, Inv, Alone, Gos;
    var s, job := Run(c, actions), Write(IfHead(expected), rec, None);
    var s1 := Begun(c, s, id, job);
    BegunInv(c, actions, id, job);
    InvAnswers(c, s, expected);
    Begins(c, actions, id, job, diff, time, s1);
    ReadGo(c, s1, id, diff, time);
    AloneOnce(c, s1, id, diff, time);
    Resumes(c, actions, id, job, diff, time, s1, 1);
    assert IsLate(s, Run(c, actions + [Spawn(id, job)] + Gos(id, diff, time, 1 + 1)), id, expected);
  }

  ghost predicate IsLate(s: State, t: State, id: TaskId, expected: nat) {
    && t.history == s.history && t.log == s.log && t.lock != Some(id) && id in t.tasks
    && t.tasks[id].pc == Failed(HeadConflict(expected, Head(s.log)))
  }

  lemma AloneOnce(c: Config, s: State, id: TaskId, diff: Patch, time: int)
    ensures Alone(c, s, id, diff, time, 0) == s && Alone(c, s, id, diff, time, 1) == Step(c, s, Go(id, Works, diff, time))
  {
  }

  lemma Later(c: Config, s: State, s1: State, t: State, id: TaskId, rec: NewEvent, restores: Option<nat>, doc: Json, time: int)
    requires s1.history == s.history && s1.log == s.log && s1.cache == s.cache && s1.reverts == s.reverts
    requires s1.boundary == s.boundary
    ensures WriteOver(c, s1, t, id, rec, restores, doc, time) ==> WriteOver(c, s, t, id, rec, restores, doc, time)
  {
  }

  // ---- reverts and compactions ------------------------------------------------------------

  lemma {:induction false} AloneInv(c: Config, s: State, id: TaskId, diff: Patch, time: int, n: nat)
    requires Inv(c, s)
    ensures Inv(c, Alone(c, s, id, diff, time, n))
    decreases n
  {
    hide Inv, Step;
    if n > 0 {
      AloneInv(c, s, id, diff, time, n - 1);
      StepInv(c, Alone(c, s, id, diff, time, n - 1), Go(id, Works, diff, time));
    }
  }

  /** One more step. */
  lemma AloneStep(c: Config, s: State, id: TaskId, diff: Patch, time: int, n: nat, t: State)
    requires t == Alone(c, s, id, diff, time, n)
    ensures Alone(c, s, id, diff, time, n + 1) == Step(c, t, Go(id, Works, diff, time))
  {
  }

  /** What a revert to `to` stores. */
  function RevertRec(to: nat, diff: Patch): NewEvent {
    NewEvent(REVERT_KIND, diff, Object(map["revert_to" := Number(to)]))
  }

  /** A revert that has its two states becomes a write of the diff between them. */
  lemma RevertTurns(c: Config, s: State, id: TaskId, diff: Patch, time: int, to: nat, current: Json, target: Json)
    requires id in s.tasks
    ensures s.tasks[id].job == Revert(to, None) && s.tasks[id].pc.Answered? && s.tasks[id].pc.answer == Ok(current) ==>
              Step(c, s, Go(id, Works, diff, time)) == Moved(s, id, Task(Revert(to, Some(current)), AskHead(to)))
    ensures s.tasks[id].job == Revert(to, Some(current)) && s.tasks[id].pc.Answered? && s.tasks[id].pc.answer == Ok(target)
            && Apply(current, diff) == Some(target) ==>
              Step(c, s, Go(id, Works, diff, time)) == Moved(s, id, Task(Write(Plain, RevertRec(to, diff), Some(to)), NeedHead))
  {
    hide Apply;
  }

  /** From the first step of a revert to the write it becomes. */
  lemma RevertReads(c: Config, s: State, id: TaskId, diff: Patch, time: int, to: nat, current: Json, target: Json)
    returns (n: nat)
    requires Inv(c, s) && id in s.tasks && s.tasks[id] == Task(Revert(to, None), NeedHead)
    requires Truth(s.history, |s.history|) == Ok(current) && Answer(s.log, s.history, to) == Ok(target)
    requires Apply(current, diff) == Some(target)
    ensures Alone(c, s, id, diff, time, n) == Moved(s, id, Task(Write(Plain, RevertRec(to, diff), Some(to)), NeedHead))
  {
    hide Inv, Step, Alone, Truth, Apply, Answer;
    var h := HeadRead(c, s, id, diff, time);
    var s1 := Alone(c, s, id, diff, time, h);
    RevertTurns(c, s1, id, diff, time, to, current, target);
    AloneStep(c, s, id, diff, time, h, s1);
    var s2 := Moved(s, id, Task(Revert(to, Some(current)), AskHead(to)));
    assert Alone(c, s, id, diff, time, h + 1) == s2;
    AloneInv(c, s, id, diff, time, h + 1);
    var k := AtRead(c, s2, id, diff, time, to);
    AloneAdd(c, s, id, diff, time, h + 1, k);
    var s3 := Alone(c, s, id, diff, time, h + 1 + k);
    RevertTurns(c, s3, id, diff, time, to, current, target);
    AloneStep(c, s, id, diff, time, h + 1 + k, s3);
    n := h + 1 + k + 1;
  }

  /**
   * A revert left alone: where the gates let the diff pass, the stream ends one
   * event longer with the target's state at its head.
   */
  lemma RevertEnds(c: Config, actions: seq<Action>, id: TaskId, to: nat, current: Json, target: Json, diff: Patch, time: int)
    requires var s := Run(c, actions);
             && c.oneStore && id !in s.tasks && s.lock == None
             && Truth(s.history, |s.history|) == Ok(current) && Answer(s.log, s.history, to) == Ok(target)
    requires Apply(current, diff) == Some(target)
    ensures var s := Run(c, actions);
            exists n :: var t := Run(c, actions + [Spawn(id, Revert(to, None))] + Gos(id, diff, time, n));
              && WriteOver(c, s, t, id, RevertRec(to, diff), Some(to), current, time)
              && (Passes(c, RevertRec(to, diff), current) ==>
                    |t.history| == |s.history| + 1 && Truth(t.history, |t.history|) == Ok(target))
  {
    hide Run, Inv, Truth, Apply, Alone, Gos, WriteOver, Answer;
    var s, job, rec := Run(c, actions), Revert(to, None), RevertRec(to, diff);
    var s1 := Begun(c, s, id, job);
    BegunInv(c, actions, id, job);
    Begins(c, actions, id, job, diff, time, s1);
    var k := RevertReads(c, s1, id, diff, time, to, current, target);
    AloneInv(c, s1, id, diff, time, k);
    var s2 := Alone(c, s1, id, diff, time, k);
    var m := WriteFromReads(c, s2, id, diff, time, current);
    AloneAdd(c, s1, id, diff, time, k, m);
    var t := Alone(c, s1, id, diff, time, k + m);
    Resumes(c, actions, id, job, diff, time, s1, k + m);
    Later(c, s, s2, t, id, rec, Some(to), current, time);
    if Passes(c, rec, current) { DoneTruth(c, s, t, id, rec, Some(to), current, time, target); }
    assert Run(c, actions + [Spawn(id, job)] + Gos(id, diff, time, 1 + (k + m))) == t;
  }

  lemma DoneTruth(c: Config, s: State, t: State, id: TaskId, rec: NewEvent, restores: Option<nat>, doc: Json, time: int,
                  target: Json)
    requires Passes(c, rec, doc) && WriteOver(c, s, t, id, rec, restores, doc, time) && Truth(s.history, |s.history|) == Ok(doc)
    requires Apply(doc, rec.patch) == Some(target)
    ensures |t.history| == |s.history| + 1 && Truth(t.history, |t.history|) == Ok(target)
  {
    TruthPrefix(s.history, [t.history[|s.history|]], |s.history|);
    TruthStep(t.history, |s.history|);
  }

  /** The two steps of a compaction that has its state. */
  lemma CompactFromAnswer(c: Config, s: State, id: TaskId, diff: Patch, time: int, upTo: nat, state: Json, anchor: int)
    requires id in s.tasks && s.tasks[id] == Task(Compact(upTo), Answered(upTo, Ok(state))) && s.compactor == Some(id)
    requires Read(s.log, upTo, 1) != [] && Read(s.log, upTo, 1)[0].at == anchor
    ensures Alone(c, s, id, diff, time, 2) ==
            Ended(Compacted(s, upTo, state, anchor), id, s.tasks[id], Finished)
  {
    hide Read, From;
    assert Alone(c, s, id, diff, time, 0) == s;
    assert Alone(c, s, id, diff, time, 1) == Moved(s, id, s.tasks[id].(pc := Swap(upTo, state, anchor)));
  }

  /**
   * A compaction left alone, where none is under way, to a reachable coordinate:
   * the snapshot of its state stands in for the prefix.
   */
  lemma CompactEnds(c: Config, actions: seq<Action>, id: TaskId, upTo: nat, state: Json, diff: Patch, time: int)
    requires var s := Run(c, actions);
             && id !in s.tasks && s.compactor == None && 1 <= upTo && Answer(s.log, s.history, upTo) == Ok(state)
    ensures var s := Run(c, actions);
            exists n :: var t := Run(c, actions + [Spawn(id, Compact(upTo))] + Gos(id, diff, time, n));
              IsCompacted(s, t, id, upTo, state)
  {
    hide Run, Inv, Alone, Gos, Answer, Truth, IsCompacted, From;
    var s, job := Run(c, actions), Compact(upTo);
    var s1 := Begun(c, s, id, job);
    BegunInv(c, actions, id, job);
    Begins(c, actions, id, job, diff, time, s1);
    AnchorFound(c, s1, upTo);
    var anchor := s1.history[upTo - 1].at;
    var k := AtRead(c, s1, id, diff, time, upTo);
    var s2 := Alone(c, s1, id, diff, time, k);
    CompactFromAnswer(c, s2, id, diff, time, upTo, state, anchor);
    AloneAdd(c, s1, id, diff, time, k, 2);
    Resumes(c, actions, id, job, diff, time, s1, k + 2);
    var t := Run(c, actions + [Spawn(id, job)] + Gos(id, diff, time, 1 + (k + 2)));
    NowCompacted(s, s2, id, upTo, state, anchor);
    assert IsCompacted(s, t, id, upTo, state);
  }

  /** Snapshot for prefix, the cache below it gone, history and locks as they were, the slot free. */
  ghost predicate IsCompacted(s: State, t: State, id: TaskId, upTo: nat, state: Json) {
    && 1 <= upTo <= |s.history| && t.history == s.history && t.boundary == upTo && t.compactor == None
    && (forall o :: o != id ==> (t.lock == Some(o) <==> s.lock == Some(o)))
    && t.log == CompactedTo(s.log, upTo, state, s.history[upTo - 1].at)
    && t.cache == map k | k in s.cache && k >= upTo :: s.cache[k]
  }

  lemma NowCompacted(s: State, s2: State, id: TaskId, upTo: nat, state: Json, anchor: int)
    requires s2 == s.(tasks := s2.tasks, compactor := Some(id)) && id in s2.tasks
    requires 1 <= upTo <= |s.history| && anchor == s.history[upTo - 1].at
    ensures IsCompacted(s, Ended(Compacted(s2, upTo, state, anchor), id, s2.tasks[id], Finished), id, upTo, state)
  {
  }

  lemma AnchorFound(c: Config, s: State, upTo: nat)
    requires Inv(c, s) && 1 <= upTo && Answer(s.log, s.history, upTo).Ok?
    ensures upTo <= |s.history| && Read(s.log, upTo, 1) != [] && Read(s.log, upTo, 1)[0].at == s.history[upTo - 1].at
  {
    hide Replay;
    HoldsNumbered(s.log, s.history, s.boundary);
    AnchorTime(s.log, s.history, s.boundary, upTo);
  }

  // ---- two runs ---------------------------------------------------------------------------

  lemma {:induction false} Above(ids: set<TaskId>) returns (bound: nat)
    ensures forall id :: id in ids ==> id < bound
    decreases |ids|
  {
    bound := 0;
    if ids != {} {
      var id :| id in ids;
      var rest := Above(ids - {id});
      bound := if rest > id then rest else id + 1;
      assert forall k :: k in ids ==> k == id || k in ids - {id};
    }
  }

  /** One more write of a store whose gates accept everything. */
  lemma OneWrite(c: Config, actions: seq<Action>, doc: Json, next: Json) returns (more: seq<Action>)
    requires c.oneStore && c.gated && forall kind, patch, a, b :: c.gates(kind, patch, a, b)
    requires var s := Run(c, actions); s.lock == None && Truth(s.history, |s.history|) == Ok(doc)
    ensures var s, t := Run(c, actions), Run(c, actions + more);
            && |t.history| == |s.history| + 1 && s.history <= t.history && t.lock == None && t.reverts == s.reverts
            && t.boundary == s.boundary && Truth(t.history, |t.history|) == Ok(next)
  {
    hide Run, Inv, Truth, Alone, Gos;
    var s := Run(c, actions);
    var id := Above(s.tasks.Keys);
    var rec := NewEvent("edit", [Add([], next)], Null);
    assert Apply(doc, rec.patch) == Some(next) by { assert rec.patch[1..] == []; }
    WriteEnds(c, actions, id, Plain, rec, doc, [], 0);
    var n :| WriteOver(c, s, Run(c, actions + [Spawn(id, Write(Plain, rec, None))] + Gos(id, [], 0, n)), id, rec, None, doc, 0);
    more := [Spawn(id, Write(Plain, rec, None))] + Gos(id, [], 0, n);
    assert actions + more == actions + [Spawn(id, Write(Plain, rec, None))] + Gos(id, [], 0, n);
    DoneTruth(c, s, Run(c, actions + more), id, rec, None, doc, 0, next);
  }

  /** A gated store whose gates accept everything commits. */
  lemma GatedRunCommits(c: Config)
    requires c.oneStore && c.gated && forall kind, patch, a, b :: c.gates(kind, patch, a, b)
    ensures exists actions :: |Run(c, actions).history| == 1 && Truth(Run(c, actions).history, 1) == Ok(Number(1))
  {
    hide Truth;
    assert Truth(Run(c, []).history, 0) == Ok(Null) by { EmptyTruth([]); }
    var more := OneWrite(c, [], Null, Number(1));
    assert |Run(c, [] + more).history| == 1;
  }

  /** And reverts: after 1 and 2, a revert to the first event has 1 at the head again. */
  lemma GatedRevertCommits(c: Config)
    requires c.oneStore && c.gated && forall kind, patch, a, b :: c.gates(kind, patch, a, b)
    ensures exists actions :: var s := Run(c, actions);
              && |s.history| == 3 && s.reverts == map[3 := 1]
              && Truth(s.history, 2) == Ok(Number(2)) && Truth(s.history, 3) == Ok(Number(1))
  {
    hide Truth, Apply, Alone, Gos;
    assert Truth(Run(c, []).history, 0) == Ok(Null) by { EmptyTruth([]); }
    var a := OneWrite(c, [], Null, Number(1));
    var b := OneWrite(c, [] + a, Number(1), Number(2));
    var actions := [] + a + b;
    var r, s := Run(c, [] + a), Run(c, actions);
    TruthGrows(r.history, s.history);
    SecondRevert(c, actions);
  }

  lemma SecondRevert(c: Config, actions: seq<Action>)
    requires c.oneStore && c.gated && forall kind, patch, a, b :: c.gates(kind, patch, a, b)
    requires var s := Run(c, actions);
             && |s.history| == 2 && s.lock == None && s.reverts == map[] && s.boundary == 0
             && Truth(s.history, 1) == Ok(Number(1)) && Truth(s.history, 2) == Ok(Number(2))
    ensures exists actions :: var s := Run(c, actions);
              && |s.history| == 3 && s.reverts == map[3 := 1]
              && Truth(s.history, 2) == Ok(Number(2)) && Truth(s.history, 3) == Ok(Number(1))
  {
    hide Run, Inv, Truth, Alone, Gos;
    var s := Run(c, actions);
    RunInv(c, actions);
    FirstIsRead(c, s);
    var id := Above(s.tasks.Keys);
    var diff := [Replace([], Number(1))];
    assert Apply(Number(2), diff) == Some(Number(1)) by { assert diff[1..] == []; }
    RevertEnds(c, actions, id, 1, Number(2), Number(1), diff, 0);
    var n :| WriteOver(c, s, Run(c, actions + [Spawn(id, Revert(1, None))] + Gos(id, diff, 0, n)), id, RevertRec(1, diff),
                       Some(1), Number(2), 0);
    var t := Run(c, actions + [Spawn(id, Revert(1, None))] + Gos(id, diff, 0, n));
    DoneTruth(c, s, t, id, RevertRec(1, diff), Some(1), Number(2), 0, Number(1));
    TruthGrows(s.history, t.history);
    assert |t.history| == 3 && t.reverts == map[3 := 1];
  }

  lemma FirstIsRead(c: Config, s: State)
    requires Inv(c, s) && |s.history| == 2 && s.boundary == 0
    ensures Answer(s.log, s.history, 1) == Truth(s.history, 1)
  {
    hide Replay;
    HoldsNumbered(s.log, s.history, s.boundary);
  }
}
